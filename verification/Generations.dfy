/** The receipts of a chain of target processes: shrinking budgets, distinct identities, and run-wide totals. */
module Generations {
  import opened NativeModels
  import opened Options
  import opened Text
  import opened Verdicts

  datatype Limits = Limits(maxCalls: int, maxInputBytes: int, maxOutputTokens: int, maxReportedTokens: int, maxInFlight: int)

  predicate ValidLimits(l: Limits) {
    && 1 <= l.maxCalls <= 256 && 1 <= l.maxInputBytes <= 2097152 && 1 <= l.maxOutputTokens <= 32768
    && 1 <= l.maxReportedTokens <= 2000000 && 1 <= l.maxInFlight <= 2
  }

  /** A random (version 4) identifier in its canonical lower-case form. */
  predicate CanonicalUuid(s: string) {
    && |s| == 36
    && (forall i | 0 <= i < 36 :: if i == 8 || i == 13 || i == 18 || i == 23 then s[i] == '-' else HexDigit(s[i]))
    && s[14] == '4' && (s[19] == '8' || s[19] == '9' || s[19] == 'a' || s[19] == 'b')
  }

  datatype Spec = Spec(version: int, nonce: string, limits: Limits)

  predicate ValidSpec(spec: Spec) {
    CanonicalUuid(spec.nonce) && spec.version == 1 && ValidLimits(spec.limits)
  }

  datatype Snapshot = Snapshot(limits: Limits, calls: int, completed: int, inFlight: int, reportedTokens: int,
                               unknownUsage: int, stopped: string, sealed: bool, usageKnown: bool)
  datatype Proof = Proof(version: int, scope: string, nonce: string, pid: int, clean: bool, snapshot: Snapshot)

  predicate StopReason(s: string) {
    s == "" || s == "sealed" || s == "calls" || s == "concurrency" || s == "output_limit" || s == "input_limit" ||
    s == "media_unsupported" || s == "unknown_usage" || s == "reported_tokens"
  }

  predicate ValidSnapshot(s: Snapshot, limits: Limits) {
    && s.sealed && s.limits == limits
    && 0 <= s.completed <= s.calls <= limits.maxCalls && s.inFlight == s.calls - s.completed && s.inFlight <= limits.maxInFlight
    && 0 <= s.unknownUsage <= s.completed && s.reportedTokens >= 0
    && (s.usageKnown <==> s.completed == s.calls && s.unknownUsage == 0)
    && (s.unknownUsage != 0 ==> s.stopped != "")
    && (s.completed == s.unknownUsage ==> s.reportedTokens == 0) && s.reportedTokens >= s.completed - s.unknownUsage
    && StopReason(s.stopped)
  }

  predicate ValidProof(p: Proof, spec: Spec, pid: int) {
    && ValidSpec(spec) && p.version == 1 && p.scope == "owned_gateway_agent_providers" && p.nonce == spec.nonce
    && p.pid > 1 && p.pid == pid && ValidSnapshot(p.snapshot, spec.limits)
  }

  /** The retained receipt text, decoded when it is in the one canonical form. */
  datatype ProofText = Empty | Undecodable | Decoded(proof: Proof)

  /** The digest stated beside the text. */
  datatype StatedDigest = Absent | Matching | Mismatched

  datatype Budget = Budget(version: int, spec: Spec, code: string, text: ProofText, digest: StatedDigest)

  function BudgetVerdict(b: Option<Budget>): Verdict {
    if b.None? then Pass
    else if b.value.code == "private_receipt" then Fail
    else if b.value.code != "observed" then Inconclusive
    else if !b.value.text.Decoded? || !ValidProof(b.value.text.proof, b.value.spec, b.value.text.proof.pid) then Inconclusive
    else
      var s := b.value.text.proof.snapshot;
      if (s.stopped != "" && s.stopped != "unknown_usage") || s.reportedTokens >= s.limits.maxReportedTokens then Fail
      else if !b.value.text.proof.clean || s.calls == 0 || s.inFlight != 0 || !s.usageKnown || s.stopped != "" || s.reportedTokens == 0
      then Inconclusive
      else Pass
  }

  datatype Lifecycle = Lifecycle(mode: string, pid: int, admitted: bool, stopRequested: bool, exitObserved: bool,
                                 exitCode: Option<int>, forced: bool, code: string)

  predicate ValidLifecycle(l: Lifecycle) {
    && l.mode == "owned_gateway" && l.pid > 1 && l.admitted && l.stopRequested && l.exitObserved
    && l.exitCode.Some? && -1 <= l.exitCode.value <= 255
    && ((l.code == "native_exit_zero" && !l.forced && l.exitCode.value == 0)
        || (l.code == "forced_exit" && l.forced) || (l.code == "abnormal_exit" && !l.forced))
  }

  /** The private-surface census, whose own rules are not part of this model. */
  datatype Surfaces = Surfaces(valid: bool, verdict: Verdict, leak: bool)

  datatype Probe = Probe(version: int, pid: int, instance: string, home: string, configPath: string, config: string,
                         commit: string, build: string)

  /** `profile` is whether the census and the exit match the profile the process was given. */
  datatype Generation = Generation(number: int, runtime: Probe, lifecycle: Lifecycle, budget: Option<Budget>,
                                   surfaces: Option<Surfaces>, models: Option<Observation>, profile: bool)

  datatype Report = Report(generations: seq<Generation>, runtime: Probe, lifecycle: Option<Lifecycle>,
                           surfaces: Option<Surfaces>, budget: Option<Budget>, models: Option<Observation>)

  predicate ValidBudget(b: Budget, runtime: Probe, lifecycle: Lifecycle) {
    && ValidSpec(b.spec) && b.version == 1 && runtime.version == 1 && ValidLifecycle(lifecycle) && runtime.pid == lifecycle.pid
    && if b.code == "receipt_unavailable" || b.code == "private_receipt" then b.text == Empty && b.digest == Absent
       else b.code == "observed" && b.digest == Matching && b.text.Decoded? && ValidProof(b.text.proof, b.spec, runtime.pid)
  }

  function ModelRuntime(p: Probe): Runtime { Runtime(p.commit, p.build) }

  predicate ValidGeneration(g: Generation, index: nat) {
    && g.number == index + 1 && g.runtime.version == 1 && g.runtime.pid > 1
    && ValidDigest(g.runtime.instance) && ValidDigest(g.runtime.home) && ValidDigest(g.runtime.configPath)
    && ValidDigest(g.runtime.config) && g.lifecycle.pid == g.runtime.pid && ValidLifecycle(g.lifecycle)
    && g.surfaces.Some? && g.surfaces.value.valid
    && g.budget.Some? && ValidBudget(g.budget.value, g.runtime, g.lifecycle)
    && (g.models.Some? ==> ValidObservation(g.models.value, ModelRuntime(g.runtime)))
  }

  predicate SameTarget(a: Probe, b: Probe) {
    a.home == b.home && a.configPath == b.configPath && a.config == b.config && a.commit == b.commit && a.build == b.build
  }

  predicate Receipted(g: Generation) {
    g.budget.Some? && g.budget.value.text.Decoded?
  }

  /** What one process leaves to its successor. */
  function Remaining(g: Generation): Limits
    requires Receipted(g)
  {
    var s := g.budget.value.text.proof.snapshot;
    g.budget.value.spec.limits.(maxCalls := g.budget.value.spec.limits.maxCalls - s.calls,
                                maxReportedTokens := g.budget.value.spec.limits.maxReportedTokens - s.reportedTokens)
  }

  /** A process that may have a successor: its receipt passes and leaves a budget. */
  predicate Succeeded(g: Generation) {
    Receipted(g) && BudgetVerdict(g.budget) == Pass && ValidProof(g.budget.value.text.proof, g.budget.value.spec, g.runtime.pid)
    && ValidLimits(Remaining(g))
  }

  predicate Follows(previous: Generation, next: Generation) {
    && SameTarget(previous.runtime, next.runtime)
    && Succeeded(previous) && next.budget.Some? && next.budget.value.spec.limits == Remaining(previous)
  }

  predicate DistinctIdentities(gs: seq<Generation>) {
    forall i, j | 0 <= i < j < |gs| ::
      && gs[i].runtime.pid != gs[j].runtime.pid && gs[i].runtime.instance != gs[j].runtime.instance
      && (gs[i].budget.Some? && gs[j].budget.Some? ==> gs[i].budget.value.spec.nonce != gs[j].budget.value.spec.nonce)
  }

  predicate Chained(gs: seq<Generation>) {
    && (forall i | 0 <= i < |gs| :: ValidGeneration(gs[i], i))
    && (forall i | 0 < i < |gs| :: Follows(gs[i - 1], gs[i]))
    && DistinctIdentities(gs)
  }

  function AllTurns(gs: seq<Generation>): seq<Turn> {
    if gs == [] then []
    else AllTurns(gs[..|gs| - 1]) + if gs[|gs| - 1].models.Some? then gs[|gs| - 1].models.value.turns else []
  }

  predicate AllObserved(gs: seq<Generation>) {
    forall i | 0 <= i < |gs| :: gs[i].models.Some? && gs[i].models.value.code == FullyObserved
  }

  function LastSource(gs: seq<Generation>): Source {
    if gs != [] && gs[|gs| - 1].models.Some? then gs[|gs| - 1].models.value.source else Source("", "")
  }

  /** The run-wide record the report must carry. */
  function RunModels(gs: seq<Generation>): Observation {
    if !AllObserved(gs) then
      Observation("routed_native_model_records_v1", NotAvailable, "native_evidence_unavailable", "unknown", Source("", ""), [],
                  Totals(Unknown, 0, 0, 0, 0, 0))
    else
      Observation("routed_native_model_records_v1", FullyObserved, "", "unknown", LastSource(gs), AllTurns(gs), Summary(AllTurns(gs)))
  }

  predicate Accepted(report: Report) {
    var gs := report.generations;
    gs == [] ||
    (&& 2 <= |gs| <= MAX_GENERATIONS && Chained(gs)
     && Heads(report, gs[|gs| - 1], RunModels(gs)))
  }

  /** The report's own fields are those of the last process, and its model record the run-wide one. */
  predicate Heads(report: Report, last: Generation, models: Observation) {
    && last.runtime == report.runtime && Some(last.lifecycle) == report.lifecycle && last.surfaces == report.surfaces
    && last.budget == report.budget && Some(models) == report.models
  }

  // ------------------------------------------------------- conservation

  function Calls(g: Generation): int {
    if Receipted(g) then g.budget.value.text.proof.snapshot.calls else 0
  }

  function Tokens(g: Generation): int {
    if Receipted(g) then g.budget.value.text.proof.snapshot.reportedTokens else 0
  }

  function SumCalls(gs: seq<Generation>): int {
    if gs == [] then 0 else SumCalls(gs[..|gs| - 1]) + Calls(gs[|gs| - 1])
  }

  function SumTokens(gs: seq<Generation>): int {
    if gs == [] then 0 else SumTokens(gs[..|gs| - 1]) + Tokens(gs[|gs| - 1])
  }

  function LimitsOf(g: Generation): Limits {
    if g.budget.Some? then g.budget.value.spec.limits else Limits(0, 0, 0, 0, 0)
  }

  /** What all but the last process spent, plus the last one's limits, is what the first was given. */
  lemma {:induction false} BudgetIsConserved(gs: seq<Generation>)
    requires gs != [] && forall i | 0 < i < |gs| :: Follows(gs[i - 1], gs[i])
    ensures var spent := gs[..|gs| - 1];
            LimitsOf(gs[|gs| - 1]) == LimitsOf(gs[0]).(
              maxCalls := LimitsOf(gs[0]).maxCalls - SumCalls(spent),
              maxReportedTokens := LimitsOf(gs[0]).maxReportedTokens - SumTokens(spent))
  {
    if |gs| > 1 {
      var front := gs[..|gs| - 1];
      forall i | 0 < i < |front| ensures Follows(front[i - 1], front[i]) {
        assert Follows(gs[i - 1], gs[i]);
      }
      BudgetIsConserved(front);
      assert Follows(gs[|gs| - 2], gs[|gs| - 1]);
    }
  }

  /** Every predecessor spent something, so limits strictly shrink along the chain. */
  lemma {:induction false} BudgetShrinks(gs: seq<Generation>, i: nat)
    requires 0 < i < |gs| && Follows(gs[i - 1], gs[i])
    ensures 1 <= LimitsOf(gs[i]).maxCalls < LimitsOf(gs[i - 1]).maxCalls
    ensures 1 <= LimitsOf(gs[i]).maxReportedTokens < LimitsOf(gs[i - 1]).maxReportedTokens
  {
    assert Succeeded(gs[i - 1]);
  }

  /** The whole run stays within the first process's call limit. */
  lemma {:induction false} RunWithinFirstLimit(gs: seq<Generation>)
    requires gs != [] && Chained(gs)
    ensures SumCalls(gs) <= LimitsOf(gs[0]).maxCalls
    ensures SumTokens(gs[..|gs| - 1]) < LimitsOf(gs[0]).maxReportedTokens
  {
    BudgetIsConserved(gs);
    assert ValidGeneration(gs[|gs| - 1], |gs| - 1);
    assert ValidLimits(LimitsOf(gs[|gs| - 1]));
  }

  // ------------------------------------------------------------ the checks

  /** The chain facts about generation `i` that refer to earlier ones. */
  predicate Extends(gs: seq<Generation>, i: nat)
    requires i < |gs|
  {
    && (i > 0 ==> Follows(gs[i - 1], gs[i]))
    && forall k | 0 <= k < i :: DifferentIdentity(gs[k], gs[i])
  }

  predicate DifferentIdentity(a: Generation, b: Generation) {
    && a.runtime.pid != b.runtime.pid && a.runtime.instance != b.runtime.instance
    && (a.budget.Some? && b.budget.Some? ==> a.budget.value.spec.nonce != b.budget.value.spec.nonce)
  }

  lemma {:induction false} ChainedMeansExtends(gs: seq<Generation>)
    ensures Chained(gs) <==> forall i | 0 <= i < |gs| :: ValidGeneration(gs[i], i) && Extends(gs, i)
  {
    if forall i | 0 <= i < |gs| :: ValidGeneration(gs[i], i) && Extends(gs, i) {
      forall i, j | 0 <= i < j < |gs| ensures DifferentIdentity(gs[i], gs[j]) {
        assert Extends(gs, j);
      }
      forall i | 0 < i < |gs| ensures Follows(gs[i - 1], gs[i]) {
        assert Extends(gs, i);
      }
    }
    if Chained(gs) {
      forall i | 0 <= i < |gs| ensures Extends(gs, i) {
        forall k | 0 <= k < i ensures DifferentIdentity(gs[k], gs[i]) {}
      }
    }
  }

  method SeenBefore(gs: seq<Generation>, i: nat) returns (seen: bool)
    requires i < |gs|
    ensures seen <==> exists k | 0 <= k < i :: !DifferentIdentity(gs[k], gs[i])
  {
    for k := 0 to i
      invariant forall j | 0 <= j < k :: DifferentIdentity(gs[j], gs[i])
    {
      if !DifferentIdentity(gs[k], gs[i]) { return true; }
    }
    seen := false;
  }

  /** Checks each generation against its predecessors, carrying the limits the next one must state. */
  method CheckChain(gs: seq<Generation>) returns (ok: bool)
    ensures ok <==> Chained(gs)
  {
    var remaining := Limits(0, 0, 0, 0, 0);
    ChainedMeansExtends(gs);
    for i := 0 to |gs|
      invariant forall k | 0 <= k < i :: ValidGeneration(gs[k], k) && Extends(gs, k)
      invariant 0 < i < |gs| ==> Succeeded(gs[i - 1]) && remaining == Remaining(gs[i - 1])
    {
      var g := gs[i];
      if !ValidGeneration(g, i) { return false; }
      if i > 0 && (!SameTarget(gs[i - 1].runtime, g.runtime) || g.budget.value.spec.limits != remaining) {
        assert !Extends(gs, i);
        return false;
      }
      var seen := SeenBefore(gs, i);
      if seen {
        assert !Extends(gs, i);
        return false;
      }
      assert Extends(gs, i);
      if i < |gs| - 1 {
        if !Succeeded(g) {
          assert !Extends(gs, i + 1);
          return false;
        }
        remaining := Remaining(g);
      }
    }
    ok := true;
  }

  lemma {:induction false} TurnsOneMore(gs: seq<Generation>, i: nat)
    requires i < |gs| && gs[i].models.Some?
    ensures AllTurns(gs[..i + 1]) == AllTurns(gs[..i]) + gs[i].models.value.turns
  {
    assert gs[..i + 1][..i] == gs[..i];
  }

  lemma {:induction false} AllTurnsReportNonNegative(gs: seq<Generation>)
    requires forall i | 0 <= i < |gs| && gs[i].models.Some? :: AllTurnsValid(gs[i].models.value.turns)
    ensures NonNegative(CallsOf(AllTurns(gs)))
  {
    if gs != [] {
      var front, last := gs[..|gs| - 1], gs[|gs| - 1];
      AllTurnsReportNonNegative(front);
      if last.models.Some? {
        ValidTurnsReportNonNegative(last.models.value.turns);
        CallsAppend(AllTurns(front), last.models.value.turns);
      } else {
        assert AllTurns(front) + [] == AllTurns(front);
      }
    }
  }

  method GenerationModels(gs: seq<Generation>) returns (o: Observation)
    ensures NonNegative(CallsOf(AllTurns(gs))) || !AllObserved(gs) ==> o == RunModels(gs)
    ensures o == RunModels(gs).(totals := o.totals)
  {
    var turns: seq<Turn>, source := [], Source("", "");
    for i := 0 to |gs|
      invariant forall k | 0 <= k < i :: gs[k].models.Some? && gs[k].models.value.code == FullyObserved
      invariant turns == AllTurns(gs[..i])
      invariant source == LastSource(gs[..i])
    {
      if gs[i].models.None? || gs[i].models.value.code != FullyObserved {
        return Observation("routed_native_model_records_v1", NotAvailable, "native_evidence_unavailable", "unknown",
                           Source("", ""), [], Totals(Unknown, 0, 0, 0, 0, 0));
      }
      TurnsOneMore(gs, i);
      source := gs[i].models.value.source;
      turns := turns + gs[i].models.value.turns;
    }
    assert gs[..|gs|] == gs;
    var totals := SummarizeNativeModels(turns);
    o := Observation("routed_native_model_records_v1", FullyObserved, "", "unknown", source, turns, totals);
  }

  method ValidTargetGenerations(report: Report) returns (ok: bool)
    ensures ok <==> Accepted(report)
  {
    var gs := report.generations;
    if gs == [] { return true; }
    if |gs| < 2 || |gs| > MAX_GENERATIONS { return false; }
    ok := CheckChain(gs);
    if !ok { return; }
    var models := ChainModels(gs);
    ok := Heads(report, gs[|gs| - 1], models);
  }

  method ChainModels(gs: seq<Generation>) returns (models: Observation)
    requires Chained(gs)
    ensures models == RunModels(gs)
  {
    ChainedReportsNonNegative(gs);
    models := GenerationModels(gs);
  }

  lemma {:induction false} ChainedReportsNonNegative(gs: seq<Generation>)
    requires Chained(gs)
    ensures NonNegative(CallsOf(AllTurns(gs)))
  {
    forall i | 0 <= i < |gs| && gs[i].models.Some? ensures AllTurnsValid(gs[i].models.value.turns) {
      assert ValidGeneration(gs[i], i);
    }
    AllTurnsReportNonNegative(gs);
  }

  lemma {:induction false} ChainedIsEquipped(gs: seq<Generation>)
    requires Chained(gs)
    ensures forall i | 0 <= i < |gs| :: gs[i].surfaces.Some? && gs[i].budget.Some?
  {
    forall i | 0 <= i < |gs| ensures gs[i].surfaces.Some? && gs[i].budget.Some? {
      assert ValidGeneration(gs[i], i);
    }
  }

  /** Something private showed. */
  predicate Leaks(g: Generation) {
    || (g.surfaces.Some? && g.surfaces.value.leak)
    || (g.budget.Some? && g.budget.value.code == "private_receipt")
    || (g.models.Some? && g.models.value.code == LeakObserved)
  }

  function LifecycleVerdict(l: Lifecycle): Verdict {
    if l.code == "native_exit_zero" then Pass else Inconclusive
  }

  function ModelsVerdict(m: Option<Observation>): Verdict {
    if m.Some? && m.value.code == LeakObserved then Fail else Pass
  }

  predicate ComponentsPass(g: Generation) {
    && LifecycleVerdict(g.lifecycle) == Pass && g.surfaces.Some? && g.surfaces.value.verdict == Pass
    && BudgetVerdict(g.budget) == Pass && g.models.Some? && g.models.value.code == FullyObserved && g.profile
  }

  /** The receipt of a process agrees with its own observed calls. */
  predicate Reconciled(g: Generation) {
    && g.models.Some? && Receipted(g) && ValidProof(g.budget.value.text.proof, g.budget.value.spec, g.runtime.pid)
    && Calls(g) == g.models.value.totals.requests
    && g.models.value.totals.coverage == AllResponses
    && Tokens(g) == Wrap64(g.models.value.totals.inputTokens + g.models.value.totals.outputTokens)
    && forall k | 0 <= k < |g.models.value.turns| :: g.models.value.turns[k].generation == g.number
  }

  predicate Passes(g: Generation) {
    ComponentsPass(g) && Reconciled(g)
  }

  method AnyLeak(gs: seq<Generation>) returns (leak: bool)
    ensures leak <==> exists i | 0 <= i < |gs| :: Leaks(gs[i])
  {
    for i := 0 to |gs|
      invariant forall k | 0 <= k < i :: !Leaks(gs[k])
    {
      if Leaks(gs[i]) { return true; }
    }
    leak := false;
  }

  method AllNumbered(g: Generation) returns (ok: bool)
    requires g.models.Some?
    ensures ok <==> forall k | 0 <= k < |g.models.value.turns| :: g.models.value.turns[k].generation == g.number
  {
    var turns := g.models.value.turns;
    for k := 0 to |turns|
      invariant forall j | 0 <= j < k :: turns[j].generation == g.number
    {
      if turns[k].generation != g.number { return false; }
    }
    ok := true;
  }

  /** The components of one process and whether its receipt agrees with its calls; `stop` ends the review there. */
  method ReviewGeneration(g: Generation, verdict: Verdict) returns (combined: Verdict, stop: bool)
    requires g.surfaces.Some? && g.budget.Some?
    ensures !stop && combined == Pass <==> verdict == Pass && Passes(g)
  {
    combined := Combine(Combine(verdict, LifecycleVerdict(g.lifecycle)), g.surfaces.value.verdict);
    combined := Combine(Combine(combined, BudgetVerdict(g.budget)), ModelsVerdict(g.models));
    if g.models.None? || g.models.value.code != FullyObserved || !g.profile {
      combined := Combine(combined, Inconclusive);
    }
    if g.models.None? { return combined, false; }
    var totals := g.models.value.totals;
    if !Receipted(g) || !ValidProof(g.budget.value.text.proof, g.budget.value.spec, g.runtime.pid) ||
       Calls(g) != totals.requests || totals.coverage != AllResponses ||
       Tokens(g) != Wrap64(totals.inputTokens + totals.outputTokens) {
      return combined, true;
    }
    var numbered := AllNumbered(g);
    stop := !numbered;
  }

  /** Passes exactly when nothing leaked, the chain is accepted, and every process passes and is reconciled. */
  method TargetGenerationsVerdict(report: Report) returns (verdict: Verdict)
    ensures (exists i | 0 <= i < |report.generations| :: Leaks(report.generations[i])) ==> verdict == Fail
    ensures verdict == Pass <==>
              && (forall i | 0 <= i < |report.generations| :: !Leaks(report.generations[i]))
              && Accepted(report) && AllPass(report.generations)
  {
    var leak := AnyLeak(report.generations);
    if leak { return Fail; }
    var ok := ValidTargetGenerations(report);
    if !ok { return Inconclusive; }
    if report.generations != [] { ChainedIsEquipped(report.generations); }
    verdict := ReviewAll(report.generations);
  }

  predicate AllPass(gs: seq<Generation>) {
    forall i | 0 <= i < |gs| :: Passes(gs[i])
  }

  method ReviewAll(gs: seq<Generation>) returns (verdict: Verdict)
    requires forall i | 0 <= i < |gs| :: gs[i].surfaces.Some? && gs[i].budget.Some?
    ensures verdict == Pass <==> AllPass(gs)
  {
    verdict := Pass;
    for i := 0 to |gs|
      invariant verdict == Pass <==> forall k | 0 <= k < i :: Passes(gs[k])
    {
      var combined, stop := ReviewGeneration(gs[i], verdict);
      if stop { return Inconclusive; }
      verdict := combined;
    }
  }

  // ------------------------------------------------------ reconciliation

  /** One reconciled process: its observed calls all reported usage, and add up to the receipt. */
  lemma {:induction false} ReconciledCounts(g: Generation, index: nat)
    requires ValidGeneration(g, index) && Passes(g)
    ensures var turns := g.models.value.turns;
            var t := Count(CallsOf(turns));
            && AllTurnsValid(turns) && !Partial(turns)
            && t.requests == t.usageResponses == Calls(g) && Calls(g) > 0
            && t.input + t.output == Tokens(g) && 0 <= t.input && 0 <= t.output && Tokens(g) < 2000000
  {
    var turns := g.models.value.turns;
    ValidTurnsReportNonNegative(turns);
    CountGrows(CallsOf(turns));
  }

  ghost predicate RunCounts(gs: seq<Generation>, t: Tally) {
    && t.requests == t.usageResponses == SumCalls(gs)
    && t.input + t.output == SumTokens(gs) && 0 <= t.input && 0 <= t.output && SumTokens(gs) <= 2000000 * |gs|
  }

  /** One process's calls are counted, and reported usage adds up to its receipt. */
  ghost predicate Reckoned(g: Generation) {
    && g.models.Some?
    && var t := Count(CallsOf(g.models.value.turns));
    && !Partial(g.models.value.turns) && t.requests == t.usageResponses == Calls(g) && Calls(g) > 0
    && t.input + t.output == Tokens(g) && 0 <= t.input && 0 <= t.output && Tokens(g) < 2000000
  }

  lemma {:induction false} ReckonedRun(gs: seq<Generation>)
    requires forall i | 0 <= i < |gs| :: Reckoned(gs[i])
    ensures RunCounts(gs, Count(CallsOf(AllTurns(gs)))) && !Partial(AllTurns(gs)) && SumCalls(gs) >= |gs|
  {
    if gs != [] {
      var front, last := gs[..|gs| - 1], gs[|gs| - 1];
      ReckonedRun(front);
      CallsAppend(AllTurns(front), last.models.value.turns);
      CountAppends(CallsOf(AllTurns(front)), CallsOf(last.models.value.turns));
    }
  }

  lemma {:induction false} ReconciledRun(gs: seq<Generation>)
    requires forall i | 0 <= i < |gs| :: ValidGeneration(gs[i], i) && Passes(gs[i])
    ensures RunCounts(gs, Count(CallsOf(AllTurns(gs)))) && !Partial(AllTurns(gs)) && SumCalls(gs) >= |gs|
  {
    forall i | 0 <= i < |gs| ensures Reckoned(gs[i]) {
      ReconciledCounts(gs[i], i);
    }
    ReckonedRun(gs);
  }

  lemma {:induction false} ReconciledSummary(gs: seq<Generation>)
    requires 0 < |gs| <= MAX_GENERATIONS
    requires forall i | 0 <= i < |gs| :: ValidGeneration(gs[i], i) && Passes(gs[i])
    ensures var totals := Summary(AllTurns(gs));
            && totals.requests == SumCalls(gs) && totals.coverage == AllResponses
            && totals.inputTokens + totals.outputTokens == SumTokens(gs)
  {
    ReconciledRun(gs);
    CountedSummary(gs);
  }

  lemma {:induction false} CountedSummary(gs: seq<Generation>)
    requires 0 < |gs| <= MAX_GENERATIONS
    requires RunCounts(gs, Count(CallsOf(AllTurns(gs)))) && !Partial(AllTurns(gs)) && SumCalls(gs) >= |gs|
    ensures var totals := Summary(AllTurns(gs));
            && totals.requests == SumCalls(gs) && totals.coverage == AllResponses
            && totals.inputTokens + totals.outputTokens == SumTokens(gs)
  {
  }

  lemma {:induction false} PassingChainIsObserved(gs: seq<Generation>)
    requires AllPass(gs)
    ensures AllObserved(gs)
  {
    forall i | 0 <= i < |gs| ensures gs[i].models.Some? && gs[i].models.value.code == FullyObserved {
      assert Passes(gs[i]);
    }
  }

  /** A passing report's run-wide totals are exactly the sums of the per-process receipts. */
  lemma {:induction false} PassReconcilesTheRun(report: Report)
    requires report.generations != [] && Accepted(report)
    requires AllPass(report.generations)
    ensures report.models.Some? && report.models.value.code == FullyObserved
    ensures var totals := report.models.value.totals;
            && totals.requests == SumCalls(report.generations) && totals.coverage == AllResponses
            && totals.inputTokens + totals.outputTokens == SumTokens(report.generations)
    ensures report.models.value.totals.requests <= LimitsOf(report.generations[0]).maxCalls
  {
    PassingChainIsObserved(report.generations);
    RunWithinFirstLimit(report.generations);
    ReconciledSummary(report.generations);
  }

  // --------------------------------------------------- handing the rest on

  /** The budget a live successor is started with, from the receipt its predecessor left. */
  method RemainingOwnedBudget(clean: bool, spec: Spec, pid: int, observed: Budget) returns (limits: Option<Limits>)
    ensures limits.Some? <==>
              clean && observed.spec == spec && BudgetVerdict(Some(observed)) == Pass
              && observed.text.Decoded? && ValidProof(observed.text.proof, spec, pid)
              && spec.limits.maxCalls > observed.text.proof.snapshot.calls
    ensures limits.Some? ==>
              && ValidLimits(limits.value)
              && limits.value.maxCalls + observed.text.proof.snapshot.calls == spec.limits.maxCalls
              && limits.value.maxReportedTokens + observed.text.proof.snapshot.reportedTokens == spec.limits.maxReportedTokens
              && limits.value == spec.limits.(maxCalls := limits.value.maxCalls, maxReportedTokens := limits.value.maxReportedTokens)
  {
    if !clean || BudgetVerdict(Some(observed)) != Pass || observed.spec != spec { return None; }
    if !observed.text.Decoded? || !ValidProof(observed.text.proof, spec, pid) { return None; }
    var snapshot := observed.text.proof.snapshot;
    var rest := spec.limits.(maxCalls := spec.limits.maxCalls - snapshot.calls,
                             maxReportedTokens := spec.limits.maxReportedTokens - snapshot.reportedTokens);
    if !ValidLimits(rest) { return None; }
    limits := Some(rest);
  }
}
