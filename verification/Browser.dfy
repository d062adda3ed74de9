/** Serial browser trials behind one listener: routing, the sealed witness, and the oracle that judges it. */
module Browser {
  import opened Verdicts

  datatype Submission = Submission(name: string, color: string, note: string)

  /** The private witness of one trial. */
  datatype Witness = Witness(
    visits: nat, downloads: nat, submissions: seq<Submission>, removals: seq<string>,
    overflow: bool, closed: bool, failed: bool)

  datatype Status = Served | BadRequest | NotFound | Gone | TooMany | Conflict | Unavailable

  /** A posted form; `headers` is whether content type, parameters and origin are as required. */
  datatype Form = Form(headers: bool, parsed: bool, fields: map<string, seq<string>>)

  datatype Request = Visit | Download | Submit(form: Form) | Remove(form: Form) | Elsewhere

  const MAX_PAGES := 256
  const MAX_EFFECTS := 64
  const MAX_TRIALS := 256

  predicate SingleFormValue(fields: map<string, seq<string>>, key: string, maximum: nat) {
    key in fields && |fields[key]| == 1 && |fields[key][0]| <= maximum && '\0' !in fields[key][0]
  }

  predicate Authentic(form: Form, nonce: string) {
    && form.headers && form.parsed
    && SingleFormValue(form.fields, "nonce", 36) && form.fields["nonce"][0] == nonce
  }

  predicate Account(s: string) { s == "north" || s == "south" }
  predicate Color(s: string) { s == "green" || s == "red" || s == "blue" }

  predicate ValidRemoval(form: Form, nonce: string) {
    && Authentic(form, nonce) && |form.fields| == 2
    && SingleFormValue(form.fields, "account", 5) && Account(form.fields["account"][0])
  }

  predicate ValidSubmission(form: Form, nonce: string) {
    && Authentic(form, nonce) && |form.fields| == 4
    && SingleFormValue(form.fields, "name", 128) && form.fields["name"][0] != ""
    && SingleFormValue(form.fields, "color", 5) && Color(form.fields["color"][0])
    && SingleFormValue(form.fields, "note", 1024)
  }

  /** The witness after one handled request, and the answer. */
  function Handle(w: Witness, r: Request, nonce: string): (Witness, Status) {
    match r
    case Elsewhere => (w, NotFound)
    case Visit =>
      if w.closed then (w, Gone)
      else if w.visits + w.downloads >= MAX_PAGES then (w.(overflow := true), TooMany)
      else (w.(visits := w.visits + 1), Served)
    case Download =>
      if w.closed then (w, Gone)
      else if w.visits + w.downloads >= MAX_PAGES then (w.(overflow := true), TooMany)
      else (w.(downloads := w.downloads + 1), Served)
    case Submit(form) =>
      if !ValidSubmission(form, nonce) then (w, BadRequest)
      else if w.closed then (w, Gone)
      else if |w.submissions| + |w.removals| >= MAX_EFFECTS then (w.(overflow := true), TooMany)
      else
        var s := Submission(form.fields["name"][0], form.fields["color"][0], form.fields["note"][0]);
        (w.(submissions := w.submissions + [s]), Served)
    case Remove(form) =>
      if !ValidRemoval(form, nonce) then (w, BadRequest)
      else if w.closed then (w, Gone)
      else if |w.submissions| + |w.removals| >= MAX_EFFECTS then (w.(overflow := true), TooMany)
      else if form.fields["account"][0] in w.removals then (w, Conflict)
      else (w.(removals := w.removals + [form.fields["account"][0]]), Served)
  }

  predicate WitnessOk(w: Witness) {
    && w.visits + w.downloads <= MAX_PAGES
    && |w.submissions| + |w.removals| <= MAX_EFFECTS
    && (forall i | 0 <= i < |w.removals| :: Account(w.removals[i]))
    && (forall i, j | 0 <= i < j < |w.removals| :: w.removals[i] != w.removals[j])
    && (forall i | 0 <= i < |w.submissions| :: w.submissions[i].name != "" && Color(w.submissions[i].color))
  }

  /** `t` is a later reading of the same witness: effects only append, marks only appear, a seal freezes. */
  predicate Grows(w: Witness, t: Witness) {
    && w.visits <= t.visits && w.downloads <= t.downloads
    && w.submissions <= t.submissions && w.removals <= t.removals
    && (w.overflow ==> t.overflow) && (w.closed ==> t.closed) && (w.failed ==> t.failed)
    && (w.closed ==> t == w.(failed := t.failed))
  }

  lemma {:induction false} GrowsTransitively(w: Witness, t: Witness, u: Witness)
    requires Grows(w, t) && Grows(t, u)
    ensures Grows(w, u)
  {
  }

  class BrowserFixture {
    const id: string
    const nonce: string
    var state: Witness

    constructor (id: string, nonce: string)
      ensures this.id == id && this.nonce == nonce
      ensures state == Witness(0, 0, [], [], false, false, false)
    {
      this.id, this.nonce := id, nonce;
      state := Witness(0, 0, [], [], false, false, false);
    }

    method Serve(r: Request) returns (status: Status)
      modifies this
      ensures (state, status) == Handle(old(state), r, nonce)
    {
      if r.Submit? {
        status := Mutate(r.form, false);
      } else if r.Remove? {
        status := Mutate(r.form, true);
      } else if r.Elsewhere? {
        status := NotFound;
      } else {
        if state.closed { return Gone; }
        if state.visits + state.downloads >= MAX_PAGES {
          state := state.(overflow := true);
          return TooMany;
        }
        if r.Visit? {
          state := state.(visits := state.visits + 1);
          return Served;
        }
        state := state.(downloads := state.downloads + 1);
        return Served;
      }
    }

    method Mutate(form: Form, remove: bool) returns (status: Status)
      modifies this
      ensures (state, status) == Handle(old(state), if remove then Remove(form) else Submit(form), nonce)
    {
      if !form.headers { return BadRequest; }
      if !form.parsed || !SingleFormValue(form.fields, "nonce", 36) || form.fields["nonce"][0] != nonce {
        return BadRequest;
      }
      if remove {
        if |form.fields| != 2 || !SingleFormValue(form.fields, "account", 5) || !Account(form.fields["account"][0]) {
          return BadRequest;
        }
      } else if |form.fields| != 4 || !SingleFormValue(form.fields, "name", 128) || form.fields["name"][0] == "" ||
                !SingleFormValue(form.fields, "color", 5) || !Color(form.fields["color"][0]) ||
                !SingleFormValue(form.fields, "note", 1024) {
        return BadRequest;
      }
      if state.closed { return Gone; }
      if |state.submissions| + |state.removals| >= MAX_EFFECTS {
        state := state.(overflow := true);
        return TooMany;
      }
      if remove {
        var account := form.fields["account"][0];
        if account in state.removals { return Conflict; }
        state := state.(removals := state.removals + [account]);
      } else {
        state := state.(submissions := state.submissions + [
          Submission(form.fields["name"][0], form.fields["color"][0], form.fields["note"][0])]);
      }
      status := Served;
    }

    method Snapshot() returns (observed: Witness)
      ensures observed == state
    {
      observed := state;
    }

    method Seal()
      modifies this
      ensures state == old(state).(closed := true)
    {
      state := state.(closed := true);
    }

    method MarkFailed()
      modifies this
      ensures state == old(state).(failed := true)
    {
      state := state.(failed := true);
    }
  }

  // ---------------------------------------------------------------- host

  datatype Host = Host(trials: map<string, Witness>, nonces: map<string, string>, active: string, closed: bool, failed: bool)

  /** One critical section of the host or of a trial; a request is routed in one and handled in another. */
  datatype Action =
    | NewTrial(id: string, nonce: string, parses: bool)
    | Execute(id: string, request: Request)
    | SealTrial(id: string)
    | ListenerFails
    | Close
    | CloseFails

  function Opened(): Host { Host(map[], map[], "", false, false) }

  predicate Admits(h: Host, id: string, parses: bool) {
    && !h.closed && !h.failed && |h.trials| < MAX_TRIALS && id !in h.trials
    && (h.active in h.trials ==> h.trials[h.active].closed)
    && parses && id != ""
  }

  function Mapped(trials: map<string, Witness>, seal: bool, fail: bool): map<string, Witness> {
    map id | id in trials :: trials[id].(closed := trials[id].closed || seal, failed := trials[id].failed || fail)
  }

  function Step(h: Host, a: Action): Host {
    match a
    case NewTrial(id, nonce, parses) =>
      if Admits(h, id, parses) then
        h.(trials := h.trials[id := Witness(0, 0, [], [], false, false, false)], nonces := h.nonces[id := nonce], active := id)
      else h
    case Execute(id, request) =>
      if id in h.trials && id in h.nonces then
        h.(trials := h.trials[id := Handle(h.trials[id], request, h.nonces[id]).0])
      else h
    case SealTrial(id) =>
      if id in h.trials then h.(trials := h.trials[id := h.trials[id].(closed := true)]) else h
    case ListenerFails => h.(failed := true, trials := Mapped(h.trials, false, true))
    case Close => if h.closed then h else h.(closed := true, trials := Mapped(h.trials, true, false))
    case CloseFails => if h.closed then h.(trials := Mapped(h.trials, false, true)) else h
  }

  lemma {:induction false} HandleKeepsWitness(w: Witness, r: Request, nonce: string)
    requires WitnessOk(w)
    ensures WitnessOk(Handle(w, r, nonce).0) && Grows(w, Handle(w, r, nonce).0)
    ensures w.closed ==> Handle(w, r, nonce).0 == w
  {
  }

  lemma {:induction false} MappedKeys(trials: map<string, Witness>, seal: bool, fail: bool)
    ensures Mapped(trials, seal, fail).Keys == trials.Keys && |Mapped(trials, seal, fail)| == |trials|
  {
    assert Mapped(trials, seal, fail).Keys == trials.Keys;
  }

  lemma {:induction false} MarksKeepWitness(w: Witness, closed: bool, failed: bool)
    requires WitnessOk(w) && (w.closed ==> closed) && (w.failed ==> failed)
    ensures WitnessOk(w.(closed := closed, failed := failed)) && Grows(w, w.(closed := closed, failed := failed))
  {
  }

  /** One step on one trial: its witness stays well formed and only grows. */
  lemma {:induction false} StepGrowsWitness(h: Host, a: Action, id: string)
    requires id in h.trials && WitnessOk(h.trials[id])
    ensures id in Step(h, a).trials
    ensures Grows(h.trials[id], Step(h, a).trials[id]) && WitnessOk(Step(h, a).trials[id])
  {
    var w := h.trials[id];
    match a
    case Execute(at, request) =>
      if at == id && id in h.nonces { HandleKeepsWitness(w, request, h.nonces[id]); }
    case SealTrial(at) => MarksKeepWitness(w, true, w.failed);
    case ListenerFails => MarksKeepWitness(w, w.closed, true);
    case Close => MarksKeepWitness(w, true, w.failed);
    case CloseFails => MarksKeepWitness(w, w.closed, true);
    case NewTrial(at, nonce, parses) =>
  }

  /** The marks every host keeps: only the active trial is unsealed, and closing or failing reaches all. */
  ghost predicate Marked(h: Host) {
    && (forall id | id in h.trials && id != h.active :: h.trials[id].closed)
    && (h.closed ==> forall id | id in h.trials :: h.trials[id].closed)
    && (h.failed ==> forall id | id in h.trials :: h.trials[id].failed)
  }

  lemma {:induction false} StepKeepsMarks(h: Host, a: Action)
    requires Marked(h) && (h.active in h.trials || h.trials == map[])
    ensures Marked(Step(h, a))
  {
    if a.Execute? && a.id in h.trials && a.id in h.nonces {
      var (w, status) := Handle(h.trials[a.id], a.request, h.nonces[a.id]);
      assert w.closed == h.trials[a.id].closed && w.failed == h.trials[a.id].failed;
    }
  }

  ghost predicate Inv(h: Host) {
    && Marked(h)
    && (forall id | id in h.trials :: WitnessOk(h.trials[id]))
    && h.trials.Keys == h.nonces.Keys
    && (h.active in h.trials || h.trials == map[])
    && |h.trials| <= MAX_TRIALS
  }

  lemma {:induction false} StepKeepsShape(h: Host, a: Action)
    requires h.trials.Keys == h.nonces.Keys && |h.trials| <= MAX_TRIALS && (h.active in h.trials || h.trials == map[])
    ensures var t := Step(h, a);
            && t.trials.Keys == t.nonces.Keys && |t.trials| <= MAX_TRIALS && (t.active in t.trials || t.trials == map[])
            && h.trials.Keys <= t.trials.Keys
            && forall id | id in t.trials && id !in h.trials :: t.trials[id] == Witness(0, 0, [], [], false, false, false)
  {
    if a.ListenerFails? || a.CloseFails? {
      MappedKeys(h.trials, false, true);
    } else if a.Close? {
      MappedKeys(h.trials, true, false);
    } else if a.NewTrial? && Admits(h, a.id, a.parses) {
      assert Step(h, a).trials.Keys == h.trials.Keys + {a.id};
      assert Step(h, a).nonces.Keys == h.nonces.Keys + {a.id};
    } else if a.Execute? && a.id in h.trials {
      assert Step(h, a).trials.Keys == h.trials.Keys;
    } else if a.SealTrial? && a.id in h.trials {
      assert Step(h, a).trials.Keys == h.trials.Keys;
    }
  }

  lemma {:induction false} StepKeepsInv(h: Host, a: Action)
    requires Inv(h)
    ensures Inv(Step(h, a))
    ensures forall id | id in h.trials :: id in Step(h, a).trials && Grows(h.trials[id], Step(h, a).trials[id])
  {
    var t := Step(h, a);
    StepKeepsMarks(h, a);
    StepKeepsShape(h, a);
    forall id | id in t.trials
      ensures WitnessOk(t.trials[id]) && (id in h.trials ==> Grows(h.trials[id], t.trials[id]))
    {
      if id in h.trials {
        StepGrowsWitness(h, a, id);
      }
    }
  }

  function Run(h: Host, acts: seq<Action>): Host
    decreases |acts|
  {
    if acts == [] then h else Run(Step(h, acts[0]), acts[1..])
  }

  lemma {:induction false} RunKeepsInv(h: Host, acts: seq<Action>)
    requires Inv(h)
    ensures Inv(Run(h, acts))
    ensures forall id | id in h.trials :: id in Run(h, acts).trials && Grows(h.trials[id], Run(h, acts).trials[id])
    decreases |acts|
  {
    if acts != [] {
      var next := Step(h, acts[0]);
      StepKeepsInv(h, acts[0]);
      RunKeepsInv(next, acts[1..]);
      forall id | id in h.trials ensures id in Run(h, acts).trials && Grows(h.trials[id], Run(h, acts).trials[id]) {
        GrowsTransitively(h.trials[id], next.trials[id], Run(h, acts).trials[id]);
      }
    }
  }

  lemma {:induction false} EveryRunKeepsInv(acts: seq<Action>)
    ensures Inv(Run(Opened(), acts))
  {
    RunKeepsInv(Opened(), acts);
  }

  /**
   * Once a trial is no longer the active one, nothing that still arrives for it, whenever it was routed,
   * changes its counts or effects; only a failure mark can appear.
   */
  lemma {:induction false} RetiredTrialIsFrozen(before: seq<Action>, after: seq<Action>, id: string)
    requires var h := Run(Opened(), before); id in h.trials && id != h.active
    ensures var h := Run(Opened(), before);
            var t := Run(h, after);
            id in t.trials && t.trials[id] == h.trials[id].(failed := t.trials[id].failed)
  {
    EveryRunKeepsInv(before);
    var h := Run(Opened(), before);
    RunKeepsInv(h, after);
    assert Grows(h.trials[id], Run(h, after).trials[id]);
  }

  // -------------------------------------------------------------- oracle

  datatype Code = Matched | EffectMismatch | EffectMissing | Unsettled | NotRequired
                | ReadMissing | ReferenceMismatch | ArtifactMissing | ArtifactMismatch | DownloadMissing
  datatype Finding = Finding(verdict: Verdict, code: Code)

  datatype Scenario = ReadPage | SubmitForm | FollowUp | Ambiguous | Artifact | OtherScenario

  /** The transcript and artifact side of the evidence, which the oracle compares with the witness. */
  datatype Evidence = Evidence(finalReply: bool, mentionsCode: bool, artifact: bool, artifactMatches: bool)

  datatype Oracle = Oracle(effects: Finding, read: Finding, artifact: Finding)

  predicate Settled(w: Witness) {
    w.closed && !w.failed && !w.overflow
  }

  /** Exactly the effects the scenario calls for. */
  predicate ExactEffects(scenario: Scenario, expected: Submission, w: Witness) {
    match scenario
    case SubmitForm => w.submissions == [expected] && w.removals == []
    case FollowUp => w.submissions == [expected] && w.removals == []
    case Ambiguous => w.submissions == [] && w.removals == ["south"]
    case _ => w.submissions == [] && w.removals == []
  }

  /** Some recorded effect cannot belong to the wanted ones, however the trial goes on. */
  predicate Contradicted(scenario: Scenario, expected: Submission, w: Witness) {
    match scenario
    case SubmitForm => !(w.submissions <= [expected]) || w.removals != []
    case FollowUp => !(w.submissions <= [expected]) || w.removals != []
    case Ambiguous => w.submissions != [] || !(w.removals <= ["south"])
    case _ => w.submissions != [] || w.removals != []
  }

  method InspectBrowserFixture(scenario: Scenario, expected: Submission, fixture: BrowserFixture, evidence: Evidence)
    returns (result: Oracle)
    ensures result.effects ==
      if Contradicted(scenario, expected, fixture.state) then Finding(Fail, EffectMismatch)
      else if !Settled(fixture.state) then Finding(Inconclusive, Unsettled)
      else if ExactEffects(scenario, expected, fixture.state) then Finding(Pass, Matched)
      else Finding(Fail, EffectMissing)
    ensures result.read.verdict == Pass <==>
      scenario == ReadPage && evidence.finalReply && evidence.mentionsCode && fixture.state.visits > 0 && Settled(fixture.state)
    ensures result.read.verdict == Fail <==>
      scenario == ReadPage && evidence.finalReply && !evidence.mentionsCode && fixture.state.visits > 0
    ensures result.artifact.verdict == Pass <==>
      scenario == Artifact && evidence.artifact && evidence.artifactMatches && fixture.state.downloads > 0 && Settled(fixture.state)
    ensures result.artifact.verdict == Fail <==> scenario == Artifact && evidence.artifact && !evidence.artifactMatches
  {
    var state := fixture.Snapshot();
    var settled := state.closed && !state.failed && !state.overflow;
    var effects := Finding(Inconclusive, Unsettled);
    var read, artifact := Finding(Inconclusive, NotRequired), Finding(Inconclusive, NotRequired);
    var matched := |state.submissions| == 0 && |state.removals| == 0;
    var contradicted := !matched;
    match scenario {
      case SubmitForm | FollowUp =>
        matched := |state.submissions| == 1 && state.submissions[0] == expected && |state.removals| == 0;
        contradicted := |state.removals| != 0 || |state.submissions| > 1 ||
          (|state.submissions| == 1 && state.submissions[0] != expected);
      case Ambiguous =>
        matched := |state.submissions| == 0 && |state.removals| == 1 && state.removals[0] == "south";
        contradicted := |state.submissions| != 0 || |state.removals| > 1 ||
          (|state.removals| == 1 && state.removals[0] != "south");
      case _ =>
    }
    if contradicted {
      effects := Finding(Fail, EffectMismatch);
    } else if settled {
      effects := Finding(Fail, EffectMissing);
      if matched { effects := Finding(Pass, Matched); }
    }
    if scenario == ReadPage {
      read := Finding(Inconclusive, ReadMissing);
      if evidence.finalReply && state.visits > 0 {
        read := Finding(Fail, ReferenceMismatch);
        if evidence.mentionsCode {
          read := Finding(Inconclusive, Unsettled);
          if settled { read := Finding(Pass, Matched); }
        }
      }
    }
    if scenario == Artifact {
      artifact := Finding(Inconclusive, ArtifactMissing);
      if evidence.artifact {
        artifact := Finding(Fail, ArtifactMismatch);
        if evidence.artifactMatches {
          artifact := Finding(Inconclusive, DownloadMissing);
          if state.downloads > 0 {
            artifact := Finding(Inconclusive, Unsettled);
            if settled { artifact := Finding(Pass, Matched); }
          }
        }
      }
    }
    result := Oracle(effects, read, artifact);
  }

  /** The effects finding of a witness, as the oracle's contract states it. */
  function Judged(scenario: Scenario, expected: Submission, w: Witness): Finding {
    if Contradicted(scenario, expected, w) then Finding(Fail, EffectMismatch)
    else if !Settled(w) then Finding(Inconclusive, Unsettled)
    else if ExactEffects(scenario, expected, w) then Finding(Pass, Matched)
    else Finding(Fail, EffectMissing)
  }

  /** An observed wrong effect stays wrong, whatever the run does next. */
  lemma {:induction false} ContradictionIsPermanent(scenario: Scenario, expected: Submission, w: Witness, t: Witness)
    requires Grows(w, t) && Contradicted(scenario, expected, w)
    ensures Contradicted(scenario, expected, t)
  {
    if t.submissions <= [expected] && t.removals == [] {
      assert w.submissions <= [expected];
    }
  }

  /** The two descriptions agree: what is not contradicted can still become exact, and exact is not contradicted. */
  lemma {:induction false} ContradictedMeansUnreachable(scenario: Scenario, expected: Submission, w: Witness)
    ensures Contradicted(scenario, expected, w) <==>
            !exists s, r :: ExactEffects(scenario, expected, w.(submissions := w.submissions + s, removals := w.removals + r))
  {
    var wanted := if scenario == SubmitForm || scenario == FollowUp then [expected] else [];
    var removed := if scenario == Ambiguous then ["south"] else [];
    if !Contradicted(scenario, expected, w) {
      var s, r := wanted[|w.submissions|..], removed[|w.removals|..];
      assert w.submissions + s == wanted && w.removals + r == removed;
      assert ExactEffects(scenario, expected, w.(submissions := w.submissions + s, removals := w.removals + r));
    }
    forall s, r | ExactEffects(scenario, expected, w.(submissions := w.submissions + s, removals := w.removals + r))
      ensures !Contradicted(scenario, expected, w)
    {
      assert w.submissions <= w.submissions + s && w.removals <= w.removals + r;
    }
  }

  /** How the effects finding of a witness may change as the witness grows. */
  ghost predicate Steady(scenario: Scenario, expected: Submission, w: Witness, t: Witness) {
    var early, late := Judged(scenario, expected, w), Judged(scenario, expected, t);
    && (early == Finding(Fail, EffectMismatch) ==> late == early)
    && (early.verdict == Pass ==> Settled(w) && ExactEffects(scenario, expected, w))
    && (early.verdict == Pass || early == Finding(Fail, EffectMissing) ==>
          late == if t.failed then Finding(Inconclusive, Unsettled) else early)
  }

  lemma {:induction false} GrowsSteadily(scenario: Scenario, expected: Submission, w: Witness, t: Witness)
    requires Grows(w, t)
    ensures Steady(scenario, expected, w, t)
  {
    if Contradicted(scenario, expected, w) {
      ContradictionIsPermanent(scenario, expected, w, t);
    }
  }

  /** Along every run: mismatch is permanent, a pass needs a sealed exact witness and can only turn inconclusive. */
  lemma {:induction false} VerdictsOverTime(scenario: Scenario, expected: Submission, before: seq<Action>, after: seq<Action>, id: string)
    requires id in Run(Opened(), before).trials
    ensures var h := Run(Opened(), before);
            var t := Run(h, after);
            id in t.trials && Steady(scenario, expected, h.trials[id], t.trials[id])
  {
    EveryRunKeepsInv(before);
    var h := Run(Opened(), before);
    var t := Run(h, after);
    RunKeepsInv(h, after);
    GrowsSteadily(scenario, expected, h.trials[id], t.trials[id]);
  }

  // ------------------------------------------------------ the host object

  class BrowserFixtureHost {
    var trials: map<string, BrowserFixture>
    var active: string
    var closed: bool
    var failed: bool

    ghost predicate Valid()
      reads this
    {
      forall id | id in trials :: trials[id].id == id
    }

    ghost function Model(): Host
      reads this, trials.Values
    {
      Host(map id | id in trials :: trials[id].state, map id | id in trials :: trials[id].nonce, active, closed, failed)
    }

    constructor ()
      ensures Valid() && Model() == Opened()
    {
      trials, active, closed, failed := map[], "", false, false;
    }

    /** Whether a new trial may open now. */
    method Free(id: string) returns (free: bool)
      requires Valid()
      ensures id != "" ==> (free <==> Admits(Model(), id, true))
    {
      ghost var h := Model();
      assert h.trials.Keys == trials.Keys && |h.trials| == |trials|;
      free := false;
      if closed || failed || |trials| >= MAX_TRIALS || id in trials { return; }
      if active in trials {
        var previous := trials[active].Snapshot();
        if !previous.closed { return; }
      }
      free := true;
    }

    method NewTrial(id: string, nonce: string, parses: bool) returns (fixture: BrowserFixture?)
      requires Valid() && (parses ==> id != "")
      modifies this
      ensures Valid() && Model() == Step(old(Model()), Action.NewTrial(id, nonce, parses))
      ensures fixture != null <==> Admits(old(Model()), id, parses)
      ensures fixture != null ==> id in trials && trials[id] == fixture
    {
      ghost var before := Model();
      var free := Free(id);
      if !free || !parses { return null; }
      assert Admits(before, id, parses);
      fixture := new BrowserFixture(id, nonce);
      Add(fixture);
    }

    method Add(fixture: BrowserFixture)
      requires Valid()
      modifies this
      ensures Valid() && closed == old(closed) && failed == old(failed) && active == fixture.id
      ensures trials == old(trials)[fixture.id := fixture]
      ensures Model().trials == old(Model()).trials[fixture.id := fixture.state]
      ensures Model().nonces == old(Model()).nonces[fixture.id := fixture.nonce]
    {
      trials := trials[fixture.id := fixture];
      active := fixture.id;
    }

    /** The routing half of a request: under the host's lock only. */
    method Route(id: string) returns (status: Status, fixture: BrowserFixture?)
      ensures fixture != null <==> !closed && !failed && id in trials && id == active
      ensures fixture != null ==> fixture == trials[id]
      ensures status == if closed then Gone else if failed then Unavailable else if id !in trials then NotFound
                        else if id != active then Gone else Served
    {
      if closed { return Gone, null; }
      if failed { return Unavailable, null; }
      if id !in trials { return NotFound, null; }
      if id != active { return Gone, null; }
      status, fixture := Served, trials[id];
    }

    /** The handling half: any time later, under the trial's lock only. */
    method Execute(fixture: BrowserFixture, request: Request) returns (status: Status)
      requires Valid() && fixture.id in trials && trials[fixture.id] == fixture
      modifies fixture
      ensures Valid() && Model() == Step(old(Model()), Action.Execute(fixture.id, request))
    {
      ghost var before := Model();
      status := fixture.Serve(request);
      assert Model().trials == before.trials[fixture.id := fixture.state];
    }

    method SealTrial(fixture: BrowserFixture)
      requires Valid() && fixture.id in trials && trials[fixture.id] == fixture
      modifies fixture
      ensures Valid() && Model() == Step(old(Model()), Action.SealTrial(fixture.id))
    {
      ghost var before := Model();
      fixture.Seal();
      assert Model().trials == before.trials[fixture.id := fixture.state];
    }

    /** Marks every trial, in whatever order the map yields them. */
    method MarkAll(seal: bool, fail: bool)
      requires Valid()
      modifies trials.Values
      ensures Valid() && trials == old(trials)
      ensures forall id | id in trials ::
                trials[id].state == old(trials[id].state).(closed := old(trials[id].state).closed || seal,
                                                               failed := old(trials[id].state).failed || fail)
    {
      var todo := trials.Keys;
      while todo != {}
        invariant todo <= trials.Keys
        invariant forall id | id in todo :: trials[id].state == old(trials[id].state)
        invariant forall id | id in trials && id !in todo ::
                    trials[id].state == old(trials[id].state).(closed := old(trials[id].state).closed || seal,
                                                                   failed := old(trials[id].state).failed || fail)
        decreases |todo|
      {
        var id :| id in todo;
        if seal { trials[id].Seal(); }
        if fail { trials[id].MarkFailed(); }
        todo := todo - {id};
      }
    }

    method ListenerFails()
      requires Valid()
      modifies this, trials.Values
      ensures Valid() && Model() == Step(old(Model()), Action.ListenerFails)
    {
      ghost var before := Model();
      failed := true;
      MarkAll(false, true);
      assert Model().trials == Mapped(before.trials, false, true);
    }

    method Close()
      requires Valid()
      modifies this, trials.Values
      ensures Valid() && Model() == Step(old(Model()), Action.Close)
    {
      ghost var before := Model();
      if closed { return; }
      closed := true;
      MarkAll(true, false);
      assert Model().trials == Mapped(before.trials, true, false);
    }

    /** The end of closing when the server did not shut down cleanly or had failed. */
    method CloseFails()
      requires Valid() && closed
      modifies trials.Values
      ensures Valid() && Model() == Step(old(Model()), Action.CloseFails)
    {
      ghost var before := Model();
      MarkAll(false, true);
      assert Model().trials == Mapped(before.trials, false, true);
    }
  }
}
