/** Observed model calls: their independent validator and the overflow-guarded totals. */
module NativeModels {
  import opened Options
  import opened Text

  const MAX_INT64: int := 0x7fff_ffff_ffff_ffff
  const MAX_TRACES := 16
  const MAX_RECORDS := 512
  const MAX_CALLS := 2048
  const MAX_GENERATIONS := 4

  datatype Usage = Usage(inputTokens: int, outputTokens: int)
  datatype UsageState = NotReturned | Reported | LegacyUnknown | Unavailable | OtherState

  datatype Inputs = Inputs(prompt: string, stableSystem: string, dynamicSystem: string,
                           tools: string, history: string, dynamicTail: string)

  /** `sources` is whether the optional system-source fingerprint, if any, is well formed. */
  datatype Call = Call(
    attempt: string, requestProvider: string, requestModel: string, inputs: Inputs, sources: bool,
    responseProvider: string, responseModel: string, responseDigest: string,
    state: UsageState, usage: Option<Usage>, retried: bool)

  datatype TraceScope = TraceScope(workspace: string, turn: string)
  datatype TurnCode = Observed | MissingTrace | InvalidTrace | AmbiguousTrace | OtherCode

  datatype Turn = Turn(
    generation: int, trial: string, scope: TraceScope, binding: string, code: TurnCode,
    traceID: string, traceDigest: string, sessionHash: string, retryRecords: int, calls: seq<Call>)

  datatype Coverage = Unknown | PartialResponses | AllResponses | Overflow | OtherCoverage
  datatype Totals = Totals(coverage: Coverage, requests: int, responses: int, usageResponses: int,
                           inputTokens: int, outputTokens: int)

  datatype Source = Source(version: string, commit: string)
  datatype Runtime = Runtime(commit: string, version: string)
  datatype ObservationCode = FullyObserved | PartlyObserved | NotAvailable | LeakObserved | OtherObservation

  datatype Observation = Observation(
    scope: string, code: ObservationCode, reason: string, allCalls: string, source: Source,
    turns: seq<Turn>, totals: Totals)

  // ---------------------------------------------------------------- totals

  /** The exact counts of a list of calls. */
  datatype Tally = Tally(requests: nat, responses: nat, usageResponses: nat, input: int, output: int) {
    function Plus(that: Tally): Tally {
      Tally(requests + that.requests, responses + that.responses, usageResponses + that.usageResponses,
            input + that.input, output + that.output)
    }
  }

  function One(call: Call): Tally {
    Tally(1, if call.state == NotReturned then 0 else 1, if call.usage.None? then 0 else 1,
          if call.usage.None? then 0 else call.usage.value.inputTokens,
          if call.usage.None? then 0 else call.usage.value.outputTokens)
  }

  function Count(calls: seq<Call>): Tally {
    if calls == [] then Tally(0, 0, 0, 0, 0)
    else Count(calls[..|calls| - 1]).Plus(One(calls[|calls| - 1]))
  }

  function CallsOf(turns: seq<Turn>): seq<Call> {
    if turns == [] then [] else CallsOf(turns[..|turns| - 1]) + turns[|turns| - 1].calls
  }

  predicate Partial(turns: seq<Turn>) {
    exists i | 0 <= i < |turns| :: turns[i].code != Observed
  }

  predicate NonNegative(calls: seq<Call>) {
    forall i | 0 <= i < |calls| && calls[i].usage.Some? ::
      calls[i].usage.value.inputTokens >= 0 && calls[i].usage.value.outputTokens >= 0
  }

  predicate Fits(t: Tally) {
    t.input <= MAX_INT64 && t.output <= MAX_INT64
  }

  /** The totals the report should state, from exact counts. */
  function Summary(turns: seq<Turn>): Totals {
    var t := Count(CallsOf(turns));
    if !Fits(t) then Totals(Overflow, t.requests, t.responses, t.usageResponses, 0, 0)
    else
      Totals(if t.usageResponses == 0 then Unknown
             else if !Partial(turns) && t.usageResponses == t.requests then AllResponses
             else PartialResponses,
             t.requests, t.responses, t.usageResponses, t.input, t.output)
  }

  /** What a 64-bit signed register holds after adding or subtracting two register values. */
  function Wrap64(x: int): int {
    if x > MAX_INT64 then x - 2 * (MAX_INT64 + 1)
    else if x < -MAX_INT64 - 1 then x + 2 * (MAX_INT64 + 1)
    else x
  }

  lemma {:induction false} CountGrows(calls: seq<Call>)
    requires NonNegative(calls)
    ensures Count(calls).input >= 0 && Count(calls).output >= 0
  {
    if calls != [] {
      CountGrows(calls[..|calls| - 1]);
    }
  }

  datatype Registers = Registers(requests: int, responses: int, usageResponses: int, input: int, output: int, overflow: bool)

  /** The registers after reading `calls`: exact until a sum would pass the maximum, then flagged for good. */
  ghost predicate Accumulated(calls: seq<Call>, r: Registers) {
    Registered(Count(calls), r)
  }

  ghost predicate Registered(t: Tally, r: Registers) {
    && r.requests == t.requests && r.responses == t.responses && r.usageResponses == t.usageResponses
    && r.overflow == !Fits(t)
    && 0 <= r.input <= MAX_INT64 && 0 <= r.output <= MAX_INT64
    && (!r.overflow ==> r.input == t.input && r.output == t.output)
  }

  lemma {:induction false} NonNegativeSnoc(calls: seq<Call>, call: Call)
    ensures NonNegative(calls + [call]) <==> NonNegative(calls) && NonNegative([call])
    ensures NonNegative([call]) <==> SaneUsage(call)
  {
    var more := calls + [call];
    assert [call][0] == call;
    if NonNegative(more) {
      assert forall k | 0 <= k < |calls| :: more[k] == calls[k];
      assert more[|calls|] == call;
    }
  }

  lemma {:induction false} CountSnoc(calls: seq<Call>, call: Call)
    ensures Count(calls + [call]) == Count(calls).Plus(One(call))
    ensures NonNegative(calls + [call]) <==> NonNegative(calls) && NonNegative([call])
    ensures NonNegative([call]) <==> SaneUsage(call)
  {
    var more := calls + [call];
    assert more[..|more| - 1] == calls && more[|more| - 1] == call;
    NonNegativeSnoc(calls, call);
  }

  predicate SaneUsage(call: Call) {
    call.usage.None? || (call.usage.value.inputTokens >= 0 && call.usage.value.outputTokens >= 0)
  }

  method AddCall(r: Registers, call: Call, ghost t: Tally) returns (next: Registers)
    ensures Registered(t, r) && SaneUsage(call) ==> Registered(t.Plus(One(call)), next)
  {
    next := r.(requests := r.requests + 1, responses := r.responses + if call.state != NotReturned then 1 else 0);
    if call.usage.None? { return; }
    next := next.(usageResponses := r.usageResponses + 1);
    var usage := call.usage.value;
    if r.overflow || usage.inputTokens > Wrap64(MAX_INT64 - r.input) || usage.outputTokens > Wrap64(MAX_INT64 - r.output) {
      next := next.(overflow := true);
      return;
    }
    next := next.(input := Wrap64(r.input + usage.inputTokens), output := Wrap64(r.output + usage.outputTokens));
  }

  method AddCalls(r: Registers, calls: seq<Call>, ghost before: seq<Call>) returns (next: Registers)
    requires NonNegative(before) ==> Accumulated(before, r)
    ensures NonNegative(before + calls) ==> Accumulated(before + calls, next)
  {
    next := r;
    assert before + calls[..0] == before;
    for j := 0 to |calls|
      invariant NonNegative(before + calls[..j]) ==> Accumulated(before + calls[..j], next)
    {
      ghost var prefix := before + calls[..j];
      next := AddCall(next, calls[j], Count(prefix));
      assert before + calls[..j + 1] == prefix + [calls[j]];
      CountSnoc(prefix, calls[j]);
    }
    assert calls[..|calls|] == calls;
  }

  method SummarizeNativeModels(turns: seq<Turn>) returns (totals: Totals)
    ensures NonNegative(CallsOf(turns)) ==> totals == Summary(turns)
  {
    var r, partial := Registers(0, 0, 0, 0, 0, false), false;
    for i := 0 to |turns|
      invariant partial == Partial(turns[..i])
      invariant NonNegative(CallsOf(turns[..i])) ==> Accumulated(CallsOf(turns[..i]), r)
    {
      partial := partial || turns[i].code != Observed;
      r := AddCalls(r, turns[i].calls, CallsOf(turns[..i]));
      assert turns[..i + 1][..i] == turns[..i];
      PartialSnoc(turns, i);
    }
    assert turns[..|turns|] == turns;
    var coverage, input, output := Unknown, r.input, r.output;
    if r.overflow {
      coverage, input, output := Overflow, 0, 0;
    } else if r.usageResponses > 0 {
      coverage := PartialResponses;
      if !partial && r.usageResponses == r.requests { coverage := AllResponses; }
    }
    totals := Totals(coverage, r.requests, r.responses, r.usageResponses, input, output);
  }

  lemma {:induction false} PartialSnoc(turns: seq<Turn>, i: nat)
    requires i < |turns|
    ensures Partial(turns[..i + 1]) == (Partial(turns[..i]) || turns[i].code != Observed)
  {
    if Partial(turns[..i + 1]) {
      var k :| 0 <= k < i + 1 && turns[..i + 1][k].code != Observed;
      assert k < i ==> turns[..i][k].code != Observed;
    }
    if k :| 0 <= k < i && turns[..i][k].code != Observed {
      assert turns[..i + 1][k].code != Observed;
    }
    assert turns[..i + 1][i] == turns[i];
  }

  lemma {:induction false} PlusAssociates(x: Tally, y: Tally, z: Tally)
    ensures x.Plus(y).Plus(z) == x.Plus(y.Plus(z))
    ensures x.Plus(y).Plus(z) == x.Plus(z).Plus(y)
  {
  }

  lemma {:induction false} LastOfConcatenation<T>(a: seq<T>, b: seq<T>)
    requires b != []
    ensures a + b == (a + b[..|b| - 1]) + [b[|b| - 1]]
  {
  }

  lemma {:induction false} Around<T>(b: seq<T>, k: nat)
    requires k < |b|
    ensures b == (b[..k] + [b[k]]) + b[k + 1..]
  {
  }

  lemma {:induction false} CountAppends(a: seq<Call>, b: seq<Call>)
    ensures Count(a + b) == Count(a).Plus(Count(b))
    decreases |b|
  {
    if b == [] {
      assert a + b == a && Count(b) == Tally(0, 0, 0, 0, 0);
    } else {
      var front := b[..|b| - 1];
      CountAppends(a, front);
      LastOfConcatenation(a, b);
      CountSnoc(a + front, b[|b| - 1]);
      assert Count(b) == Count(front).Plus(One(b[|b| - 1]));
      PlusAssociates(Count(a), Count(front), One(b[|b| - 1]));
    }
  }

  lemma {:induction false} CallsAppend(a: seq<Turn>, b: seq<Turn>)
    ensures CallsOf(a + b) == CallsOf(a) + CallsOf(b)
    decreases |b|
  {
    if b == [] {
      assert a + b == a;
    } else {
      var front := b[..|b| - 1];
      assert (a + b)[..|a + b| - 1] == a + front;
      CallsAppend(a, front);
    }
  }

  /** Exact counts are insensitive to order. */
  lemma {:induction false} CountIgnoresOrder(a: seq<Call>, b: seq<Call>)
    requires multiset(a) == multiset(b)
    ensures Count(a) == Count(b)
    decreases |a|
  {
    if a == [] {
      assert |multiset(b)| == |b|;
    } else {
      var last := a[|a| - 1];
      var k := Remaining(a, b);
      CountIgnoresOrder(a[..|a| - 1], b[..k] + b[k + 1..]);
      CountMiddle(b, k);
    }
  }

  lemma {:induction false} CountMiddle(b: seq<Call>, k: nat)
    requires k < |b|
    ensures Count(b) == Count(b[..k] + b[k + 1..]).Plus(One(b[k]))
  {
    CountAppends(b[..k], b[k + 1..]);
    CountSnoc(b[..k], b[k]);
    CountAppends(b[..k] + [b[k]], b[k + 1..]);
    Around(b, k);
    PlusAssociates(Count(b[..k]), One(b[k]), Count(b[k + 1..]));
  }

  /** Taking the last element of one list out of a permutation of it leaves a permutation. */
  lemma {:induction false} Remaining<T>(a: seq<T>, b: seq<T>) returns (k: nat)
    requires a != [] && multiset(a) == multiset(b)
    ensures k < |b| && b[k] == a[|a| - 1]
    ensures multiset(a[..|a| - 1]) == multiset(b[..k] + b[k + 1..])
  {
    var last := a[|a| - 1];
    assert last in multiset(b);
    k :| 0 <= k < |b| && b[k] == last;
    Around(b, k);
    assert a == a[..|a| - 1] + [last];
    assert multiset(a) == multiset(a[..|a| - 1]) + multiset{last};
    assert multiset((b[..k] + [last]) + b[k + 1..]) == multiset(b[..k]) + multiset{last} + multiset(b[k + 1..]);
    assert multiset(b[..k] + b[k + 1..]) == multiset(b[..k]) + multiset(b[k + 1..]);
    assert multiset(a[..|a| - 1]) == multiset(a) - multiset{last};
  }

  lemma {:induction false} TurnsReordered(a: seq<Turn>, b: seq<Turn>)
    requires multiset(a) == multiset(b)
    ensures multiset(CallsOf(a)) == multiset(CallsOf(b)) && Partial(a) == Partial(b)
    decreases |a|
  {
    CallsReordered(a, b);
    forall i | 0 <= i < |a| ensures a[i] in b {
      assert a[i] in multiset(b);
    }
    forall i | 0 <= i < |b| ensures b[i] in a {
      assert b[i] in multiset(a);
    }
  }

  lemma {:induction false} CallsReordered(a: seq<Turn>, b: seq<Turn>)
    requires multiset(a) == multiset(b)
    ensures multiset(CallsOf(a)) == multiset(CallsOf(b))
    decreases |a|
  {
    if a == [] {
      assert |multiset(b)| == |b|;
    } else {
      var k := Remaining(a, b);
      CallsReordered(a[..|a| - 1], b[..k] + b[k + 1..]);
      CallsMiddle(b, k);
    }
  }

  lemma {:induction false} CallsMiddle(b: seq<Turn>, k: nat)
    requires k < |b|
    ensures multiset(CallsOf(b)) == multiset(CallsOf(b[..k] + b[k + 1..])) + multiset(b[k].calls)
  {
    CallsAppend(b[..k], b[k + 1..]);
    CallsAppend(b[..k], [b[k]]);
    CallsAppend(b[..k] + [b[k]], b[k + 1..]);
    assert CallsOf([b[k]]) == b[k].calls;
    Around(b, k);
  }

  /** Two lists of turns that differ only in the order of calls within turns. */
  ghost predicate SameButCallOrder(a: seq<Turn>, b: seq<Turn>) {
    |a| == |b| && forall i | 0 <= i < |a| ::
      b[i] == a[i].(calls := b[i].calls) && multiset(a[i].calls) == multiset(b[i].calls)
  }

  lemma {:induction false} CallOrderIgnored(a: seq<Turn>, b: seq<Turn>)
    requires SameButCallOrder(a, b)
    ensures multiset(CallsOf(a)) == multiset(CallsOf(b)) && Partial(a) == Partial(b)
    decreases |a|
  {
    if a != [] {
      CallOrderIgnored(a[..|a| - 1], b[..|b| - 1]);
      assert multiset(a[|a| - 1].calls) == multiset(b[|b| - 1].calls);
    }
    assert forall i | 0 <= i < |a| :: a[i].code == b[i].code;
  }

  /** The totals depend on neither the order of the turns nor the order of the calls in a turn. */
  lemma {:induction false} TotalsIgnoreOrder(a: seq<Turn>, b: seq<Turn>, c: seq<Turn>)
    requires multiset(a) == multiset(b) && SameButCallOrder(b, c)
    ensures Summary(a) == Summary(c)
  {
    TurnsReordered(a, b);
    CallOrderIgnored(b, c);
    CountIgnoresOrder(CallsOf(a), CallsOf(c));
  }

  /** Totals of a concatenation: counts always add up, token sums exactly while they fit. */
  lemma {:induction false} TotalsAddUp(a: seq<Turn>, b: seq<Turn>)
    requires NonNegative(CallsOf(a)) && NonNegative(CallsOf(b))
    ensures var s, t, u := Summary(a), Summary(b), Summary(a + b);
            && u.requests == s.requests + t.requests
            && u.responses == s.responses + t.responses
            && u.usageResponses == s.usageResponses + t.usageResponses
            && (u.coverage != Overflow ==>
                  && s.coverage != Overflow && t.coverage != Overflow
                  && u.inputTokens == s.inputTokens + t.inputTokens && u.outputTokens == s.outputTokens + t.outputTokens)
            && ((s.coverage != Overflow && t.coverage != Overflow
                 && s.inputTokens + t.inputTokens <= MAX_INT64 && s.outputTokens + t.outputTokens <= MAX_INT64)
                  ==> u.coverage != Overflow)
  {
    CallsAppend(a, b);
    CountAppends(CallsOf(a), CallsOf(b));
    CountGrows(CallsOf(a));
    CountGrows(CallsOf(b));
  }

  // ------------------------------------------------------------- validator

  predicate KnownSource(runtime: Runtime) {
    && |runtime.commit| == 40 && (forall i | 0 <= i < 40 :: HexDigit(runtime.commit[i]))
    && BoundedText(runtime.version, 128)
  }

  predicate ValidInputs(inputs: Inputs) {
    && ValidDigest(inputs.prompt) && ValidDigest(inputs.stableSystem) && ValidDigest(inputs.dynamicSystem)
    && ValidDigest(inputs.tools) && ValidDigest(inputs.history) && ValidDigest(inputs.dynamicTail)
  }

  /** The request half of a call. */
  predicate ValidRequest(call: Call) {
    && ValidId(call.attempt)
    && (call.requestProvider == "" || BoundedText(call.requestProvider, 128))
    && BoundedText(call.requestModel, 256)
    && call.sources && ValidInputs(call.inputs)
  }

  /** The response half: nothing at all, or a bounded answer whose usage is present exactly when reported. */
  predicate ValidResponse(call: Call) {
    if call.state == NotReturned then
      call.responseProvider == "" && call.responseModel == "" && call.responseDigest == "" && call.usage.None?
    else
      && (call.responseProvider == "" || BoundedText(call.responseProvider, 128))
      && (call.responseModel == "" || BoundedText(call.responseModel, 256))
      && (call.responseDigest == "" || ValidDigest(call.responseDigest))
      && call.state != OtherState
      && (call.state == Reported <==> call.usage.Some?)
      && (call.usage.Some? ==> call.usage.value.inputTokens >= 0 && call.usage.value.outputTokens >= 0)
  }

  predicate ValidCall(call: Call) {
    ValidRequest(call) && ValidResponse(call) && (call.retried ==> call.state == NotReturned)
  }

  function Retried(calls: seq<Call>): nat {
    if calls == [] then 0
    else Retried(calls[..|calls| - 1]) + if calls[|calls| - 1].retried then 1 else 0
  }

  /** The validator's rules for the calls of one observed turn. */
  predicate ValidCalls(calls: seq<Call>, retryRecords: int) {
    AllValid(calls) && DistinctAttempts(calls) && Retried(calls) <= retryRecords
  }

  predicate AllValid(calls: seq<Call>) {
    forall k | 0 <= k < |calls| :: ValidCall(calls[k])
  }

  predicate DistinctAttempts(calls: seq<Call>) {
    forall j, k | 0 <= j < k < |calls| :: calls[j].attempt != calls[k].attempt
  }

  predicate CompleteScope(scope: TraceScope) {
    NotBlank(scope.workspace) && NotBlank(scope.turn)
  }

  predicate ValidTurn(turn: Turn) {
    && 0 <= turn.generation <= MAX_GENERATIONS
    && ValidId(turn.trial) && CompleteScope(turn.scope) && LocalPath(turn.scope.workspace)
    && ValidId(turn.scope.turn) && ValidDigest(turn.binding)
    && if turn.code != Observed then
         && turn.code != OtherCode
         && turn.traceID == "" && turn.traceDigest == "" && turn.sessionHash == ""
         && turn.calls == [] && turn.retryRecords == 0
       else
         && ValidId(turn.traceID) && ValidDigest(turn.traceDigest) && ValidDigest(turn.sessionHash)
         && 0 <= turn.retryRecords <= MAX_RECORDS
         && ValidCalls(turn.calls, turn.retryRecords)
  }

  /** No two turns share a binding, and no trace name or digest serves two observed turns. */
  predicate DistinctTurns(turns: seq<Turn>) {
    && (forall i, j | 0 <= i < j < |turns| :: turns[i].binding != turns[j].binding)
    && (forall i, j | 0 <= i < j < |turns| && turns[i].code == Observed && turns[j].code == Observed ::
          && turns[i].traceID != turns[j].traceID && turns[i].traceDigest != turns[j].traceDigest
          && turns[i].traceID != turns[j].traceDigest && turns[i].traceDigest != turns[j].traceID)
  }

  function Reasons(): set<string> {
    {"not_stopped", "private_coverage_unknown", "source_unknown", "no_scopes", "scope_limit",
     "native_evidence_unavailable", "raw_private_evidence"}
  }

  predicate ValidObservation(o: Observation, runtime: Runtime) {
    && o.scope == "routed_native_model_records_v1" && o.allCalls == "unknown"
    && |o.turns| <= MAX_TRACES && o.totals.requests <= MAX_CALLS && o.totals == Summary(o.turns)
    && if o.code == NotAvailable || o.code == LeakObserved then
         && o.turns == [] && o.source == Source("", "") && o.reason in Reasons()
         && (o.code == LeakObserved ==> o.reason == "raw_private_evidence")
       else
         && o.code != OtherObservation && o.reason == ""
         && KnownSource(runtime) && o.source == Source(runtime.version, runtime.commit)
         && o.turns != []
         && AllTurnsValid(o.turns) && DistinctTurns(o.turns)
         && (o.code == PartlyObserved <==> Partial(o.turns))
  }

  function Attempts(calls: seq<Call>): set<string> {
    set k | 0 <= k < |calls| :: calls[k].attempt
  }

  lemma {:induction false} AttemptsSnoc(calls: seq<Call>, i: nat)
    requires i < |calls|
    ensures Attempts(calls[..i + 1]) == Attempts(calls[..i]) + {calls[i].attempt}
  {
    var front, more := calls[..i], calls[..i + 1];
    forall a | a in Attempts(more) ensures a in Attempts(front) + {calls[i].attempt} {
      var k :| 0 <= k < |more| && more[k].attempt == a;
      assert k < i ==> front[k].attempt == a;
    }
    forall a | a in Attempts(front) ensures a in Attempts(more) {
      var k :| 0 <= k < |front| && front[k].attempt == a;
      assert more[k].attempt == a;
    }
    assert more[i].attempt in Attempts(more);
  }

  lemma {:induction false} DistinctAttemptsSnoc(calls: seq<Call>, i: nat)
    requires i < |calls|
    ensures DistinctAttempts(calls[..i + 1]) <==> DistinctAttempts(calls[..i]) && calls[i].attempt !in Attempts(calls[..i])
    ensures DistinctAttempts(calls) ==> DistinctAttempts(calls[..i + 1])
  {
    var front, more := calls[..i], calls[..i + 1];
    assert forall k | 0 <= k < i :: more[k] == front[k] && front[k].attempt in Attempts(front);
  }

  lemma {:induction false} RetriedSnoc(calls: seq<Call>, i: nat)
    requires i < |calls|
    ensures Retried(calls[..i + 1]) == Retried(calls[..i]) + if calls[i].retried then 1 else 0
  {
    assert calls[..i + 1][..i] == calls[..i];
  }

  lemma {:induction false} AllValidSnoc(calls: seq<Call>, i: nat)
    requires i < |calls|
    ensures AllValid(calls[..i + 1]) <==> AllValid(calls[..i]) && ValidCall(calls[i])
    ensures AllValid(calls) ==> ValidCall(calls[i])
  {
    var front, more := calls[..i], calls[..i + 1];
    assert forall k | 0 <= k < i :: more[k] == front[k];
    assert more[i] == calls[i];
  }

  /** The attempt and retry bookkeeping of one turn. */
  method CheckCalls(calls: seq<Call>, retryRecords: int) returns (ok: bool)
    ensures ok <==> ValidCalls(calls, retryRecords)
  {
    var attempts: set<string>, retries := {}, 0;
    for i := 0 to |calls|
      invariant AllValid(calls[..i]) && DistinctAttempts(calls[..i])
      invariant attempts == Attempts(calls[..i]) && retries == Retried(calls[..i])
    {
      var call := calls[i];
      AllValidSnoc(calls, i);
      AttemptsSnoc(calls, i);
      DistinctAttemptsSnoc(calls, i);
      RetriedSnoc(calls, i);
      if !ValidCall(call) || call.attempt in attempts { return false; }
      attempts := attempts + {call.attempt};
      if call.retried { retries := retries + 1; }
    }
    assert calls[..|calls|] == calls;
    return retries <= retryRecords;
  }

  function Bindings(turns: seq<Turn>): set<string> {
    set k | 0 <= k < |turns| :: turns[k].binding
  }

  /** The trace names and digests of the observed turns. */
  function Traces(turns: seq<Turn>): set<string> {
    (set k | 0 <= k < |turns| && turns[k].code == Observed :: turns[k].traceID)
    + (set k | 0 <= k < |turns| && turns[k].code == Observed :: turns[k].traceDigest)
  }

  predicate AllTurnsValid(turns: seq<Turn>) {
    forall i | 0 <= i < |turns| :: ValidTurn(turns[i])
  }

  lemma {:induction false} TurnsSnoc(turns: seq<Turn>, i: nat)
    requires i < |turns|
    ensures Bindings(turns[..i + 1]) == Bindings(turns[..i]) + {turns[i].binding}
    ensures Traces(turns[..i + 1]) ==
            Traces(turns[..i]) + if turns[i].code == Observed then {turns[i].traceID, turns[i].traceDigest} else {}
  {
    var front, more := turns[..i], turns[..i + 1];
    assert forall k | 0 <= k < i :: more[k] == front[k];
    assert more[i] == turns[i];
    forall s ensures s in Bindings(more) <==> s in Bindings(front) || s == turns[i].binding {
      if k :| 0 <= k < i && front[k].binding == s { assert more[k].binding == s; }
      if k :| 0 <= k < |more| && more[k].binding == s { assert k < i ==> front[k].binding == s; }
      assert more[i].binding in Bindings(more);
    }
    forall s ensures s in Traces(more) <==>
        s in Traces(front) || (turns[i].code == Observed && (s == turns[i].traceID || s == turns[i].traceDigest))
    {
      if k :| 0 <= k < i && front[k].code == Observed && (s == front[k].traceID || s == front[k].traceDigest) {
        assert more[k].code == Observed && (s == more[k].traceID || s == more[k].traceDigest);
      }
      if k :| 0 <= k < |more| && more[k].code == Observed && (s == more[k].traceID || s == more[k].traceDigest) {
        assert k < i ==> front[k].code == Observed && (s == front[k].traceID || s == front[k].traceDigest);
      }
    }
  }

  /** A turn that repeats nothing of its predecessors. */
  predicate Novel(turns: seq<Turn>, i: nat)
    requires i < |turns|
  {
    && turns[i].binding !in Bindings(turns[..i])
    && (turns[i].code == Observed ==>
          turns[i].traceID !in Traces(turns[..i]) && turns[i].traceDigest !in Traces(turns[..i]))
  }

  lemma {:induction false} DistinctMeansNovel(turns: seq<Turn>)
    ensures DistinctTurns(turns) <==> forall i | 0 <= i < |turns| :: Novel(turns, i)
  {
    if DistinctTurns(turns) {
      forall i | 0 <= i < |turns| ensures Novel(turns, i) {
        assert forall k | 0 <= k < i :: turns[..i][k] == turns[k];
      }
    }
    if forall i | 0 <= i < |turns| :: Novel(turns, i) {
      forall i, j | 0 <= i < j < |turns| ensures turns[i].binding != turns[j].binding {
        assert Novel(turns, j) && turns[..j][i].binding in Bindings(turns[..j]);
      }
      forall i, j | 0 <= i < j < |turns| && turns[i].code == Observed && turns[j].code == Observed
        ensures turns[i].traceID != turns[j].traceID && turns[i].traceDigest != turns[j].traceDigest
        ensures turns[i].traceID != turns[j].traceDigest && turns[i].traceDigest != turns[j].traceID
      {
        assert Novel(turns, j);
        assert turns[..j][i].code == Observed;
        assert turns[..j][i].traceID in Traces(turns[..j]) && turns[..j][i].traceDigest in Traces(turns[..j]);
      }
    }
  }

  method CheckTurn(turn: Turn) returns (ok: bool)
    ensures ok <==> ValidTurn(turn)
  {
    if turn.generation < 0 || turn.generation > MAX_GENERATIONS || !ValidId(turn.trial) || !CompleteScope(turn.scope) ||
       !LocalPath(turn.scope.workspace) || !ValidId(turn.scope.turn) || !ValidDigest(turn.binding) {
      return false;
    }
    if turn.code != Observed {
      return turn.code != OtherCode && turn.traceID == "" && turn.traceDigest == "" && turn.sessionHash == "" &&
        turn.calls == [] && turn.retryRecords == 0;
    }
    if !ValidId(turn.traceID) || !ValidDigest(turn.traceDigest) || !ValidDigest(turn.sessionHash) ||
       turn.retryRecords < 0 || turn.retryRecords > MAX_RECORDS {
      return false;
    }
    ok := CheckCalls(turn.calls, turn.retryRecords);
  }

  /** Whether a turn repeats no binding and no trace seen before, and what has been seen then. */
  method CheckNovel(turn: Turn, seen: set<string>, traces: set<string>)
    returns (ok: bool, seenNow: set<string>, tracesNow: set<string>)
    ensures ok <==> turn.binding !in seen && (turn.code == Observed ==> turn.traceID !in traces && turn.traceDigest !in traces)
    ensures ok ==> seenNow == seen + {turn.binding}
    ensures ok ==> tracesNow == traces + if turn.code == Observed then {turn.traceID, turn.traceDigest} else {}
  {
    seenNow, tracesNow := seen + {turn.binding}, traces;
    if turn.binding in seen { return false, seen, traces; }
    if turn.code == Observed {
      if turn.traceID in traces || turn.traceDigest in traces { return false, seen, traces; }
      tracesNow := traces + {turn.traceID, turn.traceDigest};
    }
    ok := true;
  }

  /** The first `n` turns are valid and each repeats nothing before it. */
  ghost predicate Admitted(turns: seq<Turn>, n: nat)
    requires n <= |turns|
  {
    forall k | 0 <= k < n :: ValidTurn(turns[k]) && Novel(turns, k)
  }

  lemma {:induction false} AdmittedSnoc(turns: seq<Turn>, i: nat)
    requires i < |turns| && Admitted(turns, i)
    ensures Admitted(turns, i + 1) <==> ValidTurn(turns[i]) && Novel(turns, i)
    ensures Admitted(turns, |turns|) ==> ValidTurn(turns[i]) && Novel(turns, i)
  {
  }

  lemma {:induction false} AdmittedMeansValid(turns: seq<Turn>)
    ensures Admitted(turns, |turns|) <==> AllTurnsValid(turns) && DistinctTurns(turns)
  {
    DistinctMeansNovel(turns);
  }

  method CheckTurns(turns: seq<Turn>) returns (ok: bool, partial: bool)
    ensures ok <==> AllTurnsValid(turns) && DistinctTurns(turns)
    ensures ok ==> partial == Partial(turns)
  {
    ok, partial := ScanTurns(turns);
    AdmittedMeansValid(turns);
  }

  method ScanTurns(turns: seq<Turn>) returns (ok: bool, partial: bool)
    ensures ok <==> Admitted(turns, |turns|)
    ensures ok ==> partial == Partial(turns)
  {
    var seen: set<string>, traces: set<string> := {}, {};
    partial := false;
    for i := 0 to |turns|
      invariant Admitted(turns, i)
      invariant seen == Bindings(turns[..i]) && traces == Traces(turns[..i])
      invariant partial == Partial(turns[..i])
    {
      PartialSnoc(turns, i);
      TurnsSnoc(turns, i);
      AdmittedSnoc(turns, i);
      ok := CheckTurn(turns[i]);
      if !ok { return; }
      ok, seen, traces := CheckNovel(turns[i], seen, traces);
      if !ok { return; }
      partial := partial || turns[i].code != Observed;
    }
    assert turns[..|turns|] == turns;
    ok := true;
  }

  method Valid(observation: Option<Observation>, runtime: Runtime) returns (ok: bool)
    ensures ok <==> observation.None? || ValidObservation(observation.value, runtime)
  {
    if observation.None? { return true; }
    var o := observation.value;
    var totals := SummarizeNativeModels(o.turns);
    if o.scope != "routed_native_model_records_v1" || o.allCalls != "unknown" || |o.turns| > MAX_TRACES ||
       o.totals != totals || o.totals.requests > MAX_CALLS {
      if ValidObservation(o, runtime) { ValidTurnsReportNonNegative(o.turns); }
      return false;
    }
    if o.code == NotAvailable || o.code == LeakObserved {
      assert o.turns == [] ==> CallsOf(o.turns) == [];
      return o.turns == [] && o.source == Source("", "") && o.reason in Reasons() &&
        (o.code != LeakObserved || o.reason == "raw_private_evidence");
    }
    if o.code == OtherObservation || o.reason != "" || !KnownSource(runtime) ||
       o.source != Source(runtime.version, runtime.commit) || o.turns == [] {
      return false;
    }
    var turns, partial := CheckTurns(o.turns);
    if turns { ValidTurnsReportNonNegative(o.turns); }
    return turns && (o.code == PartlyObserved) == partial;
  }

  /** Valid turns never report negative usage, so their totals are exact. */
  lemma {:induction false} ValidTurnsReportNonNegative(turns: seq<Turn>)
    requires AllTurnsValid(turns)
    ensures NonNegative(CallsOf(turns))
  {
    if turns != [] {
      var front, last := turns[..|turns| - 1], turns[|turns| - 1];
      ValidTurnsReportNonNegative(front);
      forall k | 0 <= k < |last.calls| && last.calls[k].usage.Some?
        ensures last.calls[k].usage.value.inputTokens >= 0 && last.calls[k].usage.value.outputTokens >= 0
      {
        assert ValidTurn(last);
        assert ValidCall(last.calls[k]);
      }
    }
  }
}
