/** The barrier fixture that holds a tool call until its driver releases it. */
module ActiveTool {
  import opened Text

  datatype Args = Args(trial: string, slot: int)

  datatype Phase = Registered | Active | Released | Canceled | Closed

  /** What the call's context reports: still live, cancelled, or past its deadline. */
  datatype Context = Live | Cancelled | DeadlineExceeded

  datatype Barrier = Barrier(
    session: string,
    phase: Phase,
    entered: int,
    release: int,
    settled: int,
    cancellation: Context,
    enteredCloses: int,
    releasedCloses: int,
    settledCloses: int)

  datatype State = State(
    barriers: map<Args, Barrier>,
    inFlight: int,
    workers: int,
    sequence: int,
    closed: bool,
    failed: bool,
    closingCloses: int)

  /** One critical section of the fixture; `Leave` is the worker's exit after its call returned. */
  datatype Action =
    | Register(args: Args, session: string)
    | Enter(args: Args, ctx: Context)
    | Settle(args: Args, ctx: Context)
    | Leave
    | Release(args: Args)
    | Fail
    | Shutdown

  const Initial := State(map[], 0, 0, 0, false, false, 0)

  function NewBarrier(session: string): Barrier {
    Barrier(session, Registered, 0, 0, 0, Live, 0, 0, 0)
  }

  /** Whether the critical section takes effect rather than being refused. */
  predicate Allowed(s: State, a: Action) {
    match a
    case Register(args, session) =>
      && ValidId(args.trial) && ValidId(session) && 1 <= args.slot <= 2
      && !s.closed && !s.failed && |s.barriers| < 128 && args !in s.barriers
    case Enter(args, ctx) =>
      && ctx == Live && !s.closed && !s.failed && args in s.barriers
      && s.barriers[args].phase == Registered && s.inFlight < 2
    case Settle(args, ctx) =>
      && args in s.barriers && s.barriers[args].phase == Active
      && (s.barriers[args].releasedCloses > 0 || ctx != Live || s.closed)
    case Leave => s.workers > s.inFlight
    case Release(args) =>
      && !s.closed && !s.failed && args in s.barriers
      && s.barriers[args].phase == Active && s.barriers[args].release == 0
    case Fail => true
    case Shutdown => !s.closed
  }

  function Outcome(s: State, ctx: Context): Phase {
    if s.closed || s.failed then Closed else if ctx != Live then Canceled else Released
  }

  /** The state one critical section leaves behind; a refused one changes nothing. */
  function Step(s: State, a: Action): State {
    if !Allowed(s, a) then s else
    match a
    case Register(args, session) => s.(barriers := s.barriers[args := NewBarrier(session)])
    case Enter(args, _) =>
      var b := s.barriers[args];
      s.(sequence := s.sequence + 1, inFlight := s.inFlight + 1, workers := s.workers + 1,
         barriers := s.barriers[args := b.(phase := Active, entered := s.sequence + 1,
                                           enteredCloses := b.enteredCloses + 1)])
    case Settle(args, ctx) =>
      var b := s.barriers[args];
      var outcome := Outcome(s, ctx);
      s.(sequence := s.sequence + 1, inFlight := s.inFlight - 1,
         barriers := s.barriers[args := b.(phase := outcome, settled := s.sequence + 1,
                                           cancellation := if outcome == Canceled then ctx else b.cancellation,
                                           settledCloses := b.settledCloses + 1)])
    case Leave => s.(workers := s.workers - 1)
    case Release(args) =>
      var b := s.barriers[args];
      s.(sequence := s.sequence + 1,
         barriers := s.barriers[args := b.(release := s.sequence + 1, releasedCloses := b.releasedCloses + 1)])
    case Fail => s.(failed := true)
    case Shutdown => s.(closed := true, closingCloses := s.closingCloses + 1)
  }

  /** The state after an interleaving of critical sections. */
  function After(acts: seq<Action>): State {
    if acts == [] then Initial else Step(After(acts[..|acts| - 1]), acts[|acts| - 1])
  }

  // ---------------------------------------------------------------- stamps

  datatype Stage = EnteredStage | ReleaseStage | SettledStage

  function Stamp(b: Barrier, stage: Stage): int {
    match stage
    case EnteredStage => b.entered
    case ReleaseStage => b.release
    case SettledStage => b.settled
  }

  predicate Carries(s: State, args: Args, stage: Stage, n: int) {
    args in s.barriers && Stamp(s.barriers[args], stage) == n
  }

  ghost predicate Carried(s: State, n: int) {
    exists args, stage :: Carries(s, args, stage, n)
  }

  /** The nonzero stamps are exactly 1 up to the sequence counter, each borne once. */
  ghost predicate StampsExact(s: State) {
    && (forall n | 1 <= n <= s.sequence :: Carried(s, n))
    && (forall args, stage | args in s.barriers :: 0 <= Stamp(s.barriers[args], stage) <= s.sequence)
    && (forall a, b, x, y | a in s.barriers && b in s.barriers &&
                            Stamp(s.barriers[a], x) == Stamp(s.barriers[b], y) != 0 :: a == b && x == y)
  }

  function Once(stamp: int): int {
    if stamp == 0 then 0 else 1
  }

  /** Stage order, agreement of phase with stamps, and one close per channel. */
  predicate BarrierOk(b: Barrier) {
    && (b.phase == Registered <==> b.entered == 0)
    && (b.entered == 0 ==> b.release == 0 && b.settled == 0)
    && (b.phase == Registered || b.phase == Active <==> b.settled == 0)
    && (b.release != 0 ==> b.entered < b.release)
    && (b.settled != 0 ==> b.entered < b.settled && b.release < b.settled)
    && (b.phase == Released ==> b.release != 0)
    && b.enteredCloses == Once(b.entered)
    && b.releasedCloses == Once(b.release)
    && b.settledCloses == Once(b.settled)
    && (b.phase == Canceled <==> b.cancellation != Live)
  }

  function ActiveArgs(s: State): set<Args> {
    set args | args in s.barriers && s.barriers[args].phase == Active
  }

  ghost predicate Inv(s: State) {
    && StampsExact(s)
    && (forall args | args in s.barriers :: BarrierOk(s.barriers[args]) && 1 <= args.slot <= 2)
    && s.inFlight == |ActiveArgs(s)| <= 2
    && s.inFlight <= s.workers
    && |s.barriers| <= 128
    && s.closingCloses == (if s.closed then 1 else 0)
    && s.sequence >= 0
  }

  /** Issuing the next stamp to one unstamped stage of one barrier keeps the numbering exact. */
  lemma {:induction false} IssueKeepsStamps(s: State, t: State, args: Args, stage: Stage)
    requires StampsExact(s) && s.sequence >= 0
    requires args in s.barriers && args in t.barriers && t.barriers == s.barriers[args := t.barriers[args]]
    requires Stamp(s.barriers[args], stage) == 0
    requires t.sequence == s.sequence + 1 == Stamp(t.barriers[args], stage)
    requires forall other | other != stage :: Stamp(t.barriers[args], other) == Stamp(s.barriers[args], other)
    ensures StampsExact(t)
  {
    forall n | 1 <= n <= t.sequence ensures Carried(t, n) {
      if n == t.sequence {
        assert Carries(t, args, stage, n);
      } else {
        assert Carried(s, n);
        var x, y :| Carries(s, x, y, n);
        assert Carries(t, x, y, n);
      }
    }
    forall x, y | x in t.barriers
      ensures Stamp(t.barriers[x], y) == if x == args && y == stage then t.sequence else Stamp(s.barriers[x], y)
      ensures 0 <= Stamp(s.barriers[x], y) <= s.sequence
    {
    }
  }

  /** A step that leaves all stamps alone, possibly adding a barrier without stamps. */
  lemma {:induction false} QuietKeepsStamps(s: State, t: State)
    requires StampsExact(s) && t.sequence == s.sequence >= 0
    requires s.barriers.Keys <= t.barriers.Keys
    requires forall x, y | x in t.barriers ::
               Stamp(t.barriers[x], y) == if x in s.barriers then Stamp(s.barriers[x], y) else 0
    ensures StampsExact(t)
  {
    forall n | 1 <= n <= t.sequence ensures Carried(t, n) {
      assert Carried(s, n);
      var x, y :| Carries(s, x, y, n);
      assert Carries(t, x, y, n);
    }
  }

  lemma {:induction false} StepKeepsStamps(s: State, a: Action)
    requires Inv(s)
    ensures StampsExact(Step(s, a))
  {
    if Allowed(s, a) && (a.Enter? || a.Settle? || a.Release?) {
      assert BarrierOk(s.barriers[a.args]);
      IssueKeepsStamps(s, Step(s, a), a.args,
                       if a.Enter? then EnteredStage else if a.Settle? then SettledStage else ReleaseStage);
    } else {
      QuietKeepsStamps(s, Step(s, a));
    }
  }

  /** Writing one barrier moves only that barrier in or out of the active set. */
  lemma {:induction false} ActiveAfterWrite(s: State, t: State, args: Args, b: Barrier)
    requires t.barriers == s.barriers[args := b]
    ensures ActiveArgs(t) == if b.phase == Active then ActiveArgs(s) + {args} else ActiveArgs(s) - {args}
  {
  }

  lemma {:induction false} StepKeepsFlight(s: State, a: Action)
    requires s.inFlight == |ActiveArgs(s)| <= 2
    ensures Step(s, a).inFlight == |ActiveArgs(Step(s, a))| <= 2
  {
    var t := Step(s, a);
    if Allowed(s, a) && (a.Register? || a.Enter? || a.Settle? || a.Release?) {
      ActiveAfterWrite(s, t, a.args, t.barriers[a.args]);
      if a.Enter? {
        assert a.args !in ActiveArgs(s);
        assert |ActiveArgs(s) + {a.args}| == |ActiveArgs(s)| + 1;
      } else if a.Register? {
        assert ActiveArgs(s) - {a.args} == ActiveArgs(s);
      } else if a.Settle? {
        assert a.args in ActiveArgs(s);
        assert |ActiveArgs(s) - {a.args}| == |ActiveArgs(s)| - 1;
      } else {
        assert ActiveArgs(s) + {a.args} == ActiveArgs(s);
      }
    } else {
      assert t.barriers == s.barriers;
    }
  }

  lemma {:induction false} StampsBounded(s: State, args: Args)
    requires StampsExact(s) && args in s.barriers
    ensures 0 <= s.barriers[args].entered <= s.sequence
    ensures 0 <= s.barriers[args].release <= s.sequence
    ensures 0 <= s.barriers[args].settled <= s.sequence
  {
    var b := s.barriers[args];
    assert Stamp(b, EnteredStage) == b.entered && Stamp(b, ReleaseStage) == b.release && Stamp(b, SettledStage) == b.settled;
  }

  lemma {:induction false} StepKeepsBarriers(s: State, a: Action)
    requires StampsExact(s) && s.sequence >= 0
    requires forall args | args in s.barriers :: BarrierOk(s.barriers[args])
    ensures forall args | args in Step(s, a).barriers :: BarrierOk(Step(s, a).barriers[args])
  {
    if Allowed(s, a) && (a.Enter? || a.Settle? || a.Release?) {
      StampsBounded(s, a.args);
    }
  }

  lemma {:induction false} StepKeepsInv(s: State, a: Action)
    requires Inv(s)
    ensures Inv(Step(s, a))
  {
    StepKeepsStamps(s, a);
    StepKeepsFlight(s, a);
    StepKeepsBarriers(s, a);
  }

  /** Every interleaving keeps the stamps exact, the stages ordered and the flight cap. */
  lemma {:induction false} EveryRunKeepsInv(acts: seq<Action>)
    ensures Inv(After(acts))
  {
    if acts != [] {
      EveryRunKeepsInv(acts[..|acts| - 1]);
      StepKeepsInv(After(acts[..|acts| - 1]), acts[|acts| - 1]);
    } else {
      assert ActiveArgs(Initial) == {};
    }
  }

  lemma {:induction false} Uncancelled(acts: seq<Action>, args: Args)
    requires args in After(acts).barriers && After(acts).barriers[args].phase == Active
    ensures After(acts).barriers[args].cancellation == Live
  {
    EveryRunKeepsInv(acts);
    assert BarrierOk(After(acts).barriers[args]);
  }

  // ------------------------------------------------- one run, two moments

  /** `t` is a later moment of the run that `s` belongs to: stamps set in `s` stay, later ones are larger. */
  predicate Later(s: State, t: State) {
    && s.sequence <= t.sequence
    && (s.closed ==> t.closed)
    && (s.failed ==> t.failed)
    && forall args | args in s.barriers ::
         && args in t.barriers
         && t.barriers[args].session == s.barriers[args].session
         && forall stage :: StampKept(s.barriers[args], t.barriers[args], stage, s.sequence)
  }

  predicate StampKept(b: Barrier, c: Barrier, stage: Stage, bound: int) {
    if Stamp(b, stage) != 0 then Stamp(c, stage) == Stamp(b, stage)
    else Stamp(c, stage) == 0 || Stamp(c, stage) > bound
  }

  /** A barrier absent at the earlier moment has no stamp from before it. */
  predicate NewcomersLater(s: State, t: State) {
    forall args, stage | args in t.barriers && args !in s.barriers ::
      Stamp(t.barriers[args], stage) == 0 || Stamp(t.barriers[args], stage) > s.sequence
  }

  lemma {:induction false} StepKeepsStamp(s: State, t: State, a: Action, args: Args, stage: Stage)
    requires s.sequence <= t.sequence && args in t.barriers && BarrierOk(t.barriers[args])
    requires args in s.barriers ==> StampKept(s.barriers[args], t.barriers[args], stage, s.sequence)
    requires args !in s.barriers ==> Stamp(t.barriers[args], stage) == 0 || Stamp(t.barriers[args], stage) > s.sequence
    ensures var u := Step(t, a);
            && args in u.barriers
            && u.barriers[args].session == t.barriers[args].session
            && (args in s.barriers ==> StampKept(s.barriers[args], u.barriers[args], stage, s.sequence))
            && (args !in s.barriers ==> Stamp(u.barriers[args], stage) == 0 || Stamp(u.barriers[args], stage) > s.sequence)
  {
  }

  lemma {:induction false} StepIsMonotone(s: State, t: State, a: Action)
    requires Later(s, t) && NewcomersLater(s, t)
    requires forall args | args in t.barriers :: BarrierOk(t.barriers[args])
    ensures Later(s, Step(t, a)) && NewcomersLater(s, Step(t, a))
  {
    var u := Step(t, a);
    forall args, stage | args in s.barriers
      ensures args in u.barriers && u.barriers[args].session == s.barriers[args].session
      ensures StampKept(s.barriers[args], u.barriers[args], stage, s.sequence)
    {
      StepKeepsStamp(s, t, a, args, stage);
    }
    forall args, stage | args in u.barriers && args !in s.barriers
      ensures Stamp(u.barriers[args], stage) == 0 || Stamp(u.barriers[args], stage) > s.sequence
    {
      if args in t.barriers {
        StepKeepsStamp(s, t, a, args, stage);
      }
    }
  }

  lemma {:induction false} RunIsMonotone(acts: seq<Action>, i: nat)
    requires i <= |acts|
    ensures Later(After(acts[..i]), After(acts)) && NewcomersLater(After(acts[..i]), After(acts))
    decreases |acts|
  {
    if i == |acts| {
      assert acts[..i] == acts;
    } else {
      var front := acts[..|acts| - 1];
      RunIsMonotone(front, i);
      assert front[..i] == acts[..i];
      EveryRunKeepsInv(front);
      StepIsMonotone(After(acts[..i]), After(front), acts[|acts| - 1]);
    }
  }

  lemma {:induction false} SequenceStep(s: State, a: Action)
    ensures s.sequence <= Step(s, a).sequence <= s.sequence + 1
  {
  }

  lemma {:induction false} SequenceAfter(acts: seq<Action>)
    requires acts != []
    ensures var front := acts[..|acts| - 1]; After(front).sequence <= After(acts).sequence <= After(front).sequence + 1
  {
    SequenceStep(After(acts[..|acts| - 1]), acts[|acts| - 1]);
  }

  lemma {:induction false} PrefixOfFront(acts: seq<Action>, i: nat)
    requires i < |acts|
    ensures acts[..|acts| - 1][..i] == acts[..i]
  {
  }

  /** A stamp of the final state was issued at one step: unset before it, set right after it. */
  lemma {:induction false} StampIssued(acts: seq<Action>, n: int) returns (i: nat)
    requires 1 <= n <= After(acts).sequence
    ensures i < |acts| && After(acts[..i]).sequence == n - 1 && After(acts[..i + 1]).sequence == n
    decreases |acts|
  {
    assert acts != [] by {
      assert After([]).sequence == 0;
    }
    var front := acts[..|acts| - 1];
    SequenceAfter(acts);
    if After(front).sequence < n {
      i := |acts| - 1;
      assert acts[..i + 1] == acts;
    } else {
      i := StampIssued(front, n);
      PrefixOfFront(acts, i);
      PrefixOfFront(acts, i + 1);
    }
  }

  // -------------------------------------------------------------- shutdown

  /** After shutdown began nothing registers, enters or is released any more. */
  predicate Frozen(s: State, t: State) {
    && t.closed
    && t.barriers.Keys == s.barriers.Keys
    && forall args | args in s.barriers ::
         && t.barriers[args].entered == s.barriers[args].entered
         && t.barriers[args].release == s.barriers[args].release
         && (s.barriers[args].settled != 0 ==> t.barriers[args] == s.barriers[args])
         && (t.barriers[args] != s.barriers[args] ==> s.barriers[args].phase == Active && t.barriers[args].phase == Closed)
  }

  function From(s: State, acts: seq<Action>): State
    decreases |acts|
  {
    if acts == [] then s else From(Step(s, acts[0]), acts[1..])
  }

  lemma {:induction false} StepFreezes(s: State, a: Action)
    requires Inv(s) && s.closed
    ensures Frozen(s, Step(s, a))
  {
    forall args | args in s.barriers ensures BarrierOk(s.barriers[args]) {
    }
  }

  lemma {:induction false} FrozenIsTransitive(s: State, t: State, u: State)
    requires Inv(s) && Inv(t) && Frozen(s, t) && Frozen(t, u)
    ensures Frozen(s, u)
  {
    forall args | args in s.barriers
      ensures BarrierOk(s.barriers[args]) && BarrierOk(t.barriers[args])
    {
    }
  }

  lemma {:induction false} ShutdownFreezes(s: State, acts: seq<Action>)
    requires Inv(s) && s.closed
    ensures Frozen(s, From(s, acts)) && Inv(From(s, acts))
    decreases |acts|
  {
    if acts != [] {
      var t := Step(s, acts[0]);
      StepKeepsInv(s, acts[0]);
      StepFreezes(s, acts[0]);
      ShutdownFreezes(t, acts[1..]);
      FrozenIsTransitive(s, t, From(t, acts[1..]));
    }
  }

  ghost predicate Scheduled(args: Args, acts: seq<Action>) {
    exists ctx :: Settle(args, ctx) in acts
  }

  /** Any continuation that schedules each held call once drains the fixture, whatever else runs. */
  lemma {:induction false} ShutdownDrains(s: State, acts: seq<Action>)
    requires Inv(s) && s.closed
    requires forall args | args in ActiveArgs(s) :: Scheduled(args, acts)
    ensures ActiveArgs(From(s, acts)) == {} && From(s, acts).inFlight == 0
    decreases |acts|
  {
    if acts == [] {
      assert ActiveArgs(s) == {};
    } else {
      var t := Step(s, acts[0]);
      StepKeepsInv(s, acts[0]);
      forall args | args in ActiveArgs(t) ensures Scheduled(args, acts[1..]) {
        assert args in ActiveArgs(s);
        var ctx :| Settle(args, ctx) in acts;
        assert acts == [acts[0]] + acts[1..];
        assert Settle(args, ctx) != acts[0];
      }
      ShutdownDrains(t, acts[1..]);
    }
  }

  /** Every call held when shutdown began ends closed and settled, in any such continuation. */
  lemma {:induction false} ShutdownClosesHeldCalls(s: State, acts: seq<Action>, args: Args)
    requires Inv(s) && s.closed && args in ActiveArgs(s)
    requires forall held | held in ActiveArgs(s) :: Scheduled(held, acts)
    ensures var t := From(s, acts); args in t.barriers && t.barriers[args].phase == Closed && t.barriers[args].settled != 0
  {
    ShutdownFreezes(s, acts);
    ShutdownDrains(s, acts);
    var t := From(s, acts);
    assert args in t.barriers && args !in ActiveArgs(t);
    assert BarrierOk(t.barriers[args]);
  }

  /** The worker count reaches zero only once no call is held, which is what shutdown waits for. */
  lemma {:induction false} WaitReturnsWhenDrained(acts: seq<Action>)
    requires After(acts).workers == 0
    ensures forall args | args in After(acts).barriers :: After(acts).barriers[args].phase != Active
  {
    EveryRunKeepsInv(acts);
    var s := After(acts);
    assert ActiveArgs(s) == {};
    forall args | args in s.barriers ensures s.barriers[args].phase != Active {
      assert args !in ActiveArgs(s);
    }
  }

  /** One hundred and twenty-eight barriers issue at most three stamps each. */
  lemma {:induction false} SequenceBounded(acts: seq<Action>)
    ensures After(acts).sequence <= 384
  {
    EveryRunKeepsInv(acts);
    var s := After(acts);
    var owners := set args, stage | args in s.barriers && stage in {EnteredStage, ReleaseStage, SettledStage} :: (args, stage);
    OwnersCount(s.barriers.Keys, owners);
    Pigeonhole(s, s.sequence, owners);
  }

  lemma {:induction false} OwnersCount(keys: set<Args>, owners: set<(Args, Stage)>)
    requires owners == set args, stage | args in keys && stage in {EnteredStage, ReleaseStage, SettledStage} :: (args, stage)
    ensures |owners| == 3 * |keys|
    decreases |keys|
  {
    if keys == {} {
      assert owners == {};
    } else {
      var k :| k in keys;
      var mine := {(k, EnteredStage), (k, ReleaseStage), (k, SettledStage)};
      var rest := set args, stage | args in keys - {k} && stage in {EnteredStage, ReleaseStage, SettledStage} :: (args, stage);
      OwnersCount(keys - {k}, rest);
      assert owners == rest + mine && rest !! mine;
    }
  }

  lemma {:induction false} Pigeonhole(s: State, n: int, owners: set<(Args, Stage)>)
    requires StampsExact(s) && 0 <= n <= s.sequence
    requires forall args, stage | args in s.barriers && 1 <= Stamp(s.barriers[args], stage) <= n :: (args, stage) in owners
    ensures n <= |owners|
    decreases n
  {
    if n > 0 {
      assert Carried(s, n);
      var args, stage :| Carries(s, args, stage, n);
      Pigeonhole(s, n - 1, owners - {(args, stage)});
    }
  }

  // ------------------------------------------------------------ the fixture

  class Fixture {
    var barriers: map<Args, Barrier>
    var inFlight: int
    var workers: int
    var sequence: int
    var closed: bool
    var failed: bool
    var closingCloses: int
    ghost var log: seq<Action>

    ghost function Model(): State
      reads this
    {
      State(barriers, inFlight, workers, sequence, closed, failed, closingCloses)
    }

    /** The fields are what the log of critical sections made them. */
    ghost predicate Valid()
      reads this
    {
      Model() == After(log)
    }

    constructor ()
      ensures Valid() && log == []
    {
      barriers := map[];
      inFlight, workers, sequence, closingCloses := 0, 0, 0, 0;
      closed, failed := false, false;
      log := [];
    }

    ghost method Record(a: Action)
      requires Model() == Step(After(log), a)
      modifies `log
      ensures Valid() && log == old(log) + [a]
    {
      assert (log + [a])[..|log|] == log;
      log := log + [a];
    }

    method Register(args: Args, session: string) returns (ok: bool)
      requires Valid()
      modifies this
      ensures Valid() && log == old(log) + [Action.Register(args, session)]
      ensures ok == Allowed(old(Model()), Action.Register(args, session))
    {
      ok := ValidId(args.trial) && ValidId(session) && args.slot >= 1 && args.slot <= 2 &&
        !closed && !failed && |barriers| < 128 && args !in barriers;
      if ok {
        barriers := barriers[args := NewBarrier(session)];
      }
      Record(Action.Register(args, session));
    }

    /** The admission half of a call: up to the point where it waits. */
    method Enter(args: Args, ctx: Context) returns (ok: bool)
      requires Valid()
      modifies this
      ensures Valid() && log == old(log) + [Action.Enter(args, ctx)]
      ensures ok == Allowed(old(Model()), Action.Enter(args, ctx))
    {
      if ctx != Live || closed || failed || args !in barriers ||
         barriers[args].phase != Registered || inFlight >= 2 {
        ok := false;
      } else {
        var barrier := barriers[args];
        sequence := sequence + 1;
        barrier := barrier.(phase := Active, entered := sequence);
        inFlight := inFlight + 1;
        workers := workers + 1;
        barrier := barrier.(enteredCloses := barrier.enteredCloses + 1);
        barriers := barriers[args := barrier];
        ok := true;
      }
      Record(Action.Enter(args, ctx));
    }

    /** The settlement half: the wait ended because of a release, the context, or the closing fixture. */
    method Settle(args: Args, ctx: Context) returns (ok: bool)
      requires Valid()
      requires args in barriers && barriers[args].phase == Active
      requires barriers[args].releasedCloses > 0 || ctx != Live || closed
      modifies this
      ensures Valid() && log == old(log) + [Action.Settle(args, ctx)]
      ensures ok <==> barriers[args].phase == Released
    {
      Uncancelled(log, args);
      var barrier := barriers[args];
      var state := Released;
      if {
        case barrier.releasedCloses > 0 =>
        case ctx != Live => state := Canceled;
        case closed => state := Closed;
      }
      if closed || failed {
        state := Closed;
      } else if ctx != Live {
        state := Canceled;
      }
      sequence := sequence + 1;
      barrier := barrier.(phase := state, settled := sequence);
      if state == Canceled {
        barrier := barrier.(cancellation := Cancelled);
        if ctx == DeadlineExceeded {
          barrier := barrier.(cancellation := DeadlineExceeded);
        }
      }
      inFlight := inFlight - 1;
      barrier := barrier.(settledCloses := barrier.settledCloses + 1);
      barriers := barriers[args := barrier];
      ok := state == Released;
      Record(Action.Settle(args, ctx));
    }

    method Leave()
      requires Valid() && workers > inFlight
      modifies this
      ensures Valid() && log == old(log) + [Action.Leave]
    {
      workers := workers - 1;
      Record(Action.Leave);
    }

    method Release(args: Args) returns (ok: bool)
      requires Valid()
      modifies this
      ensures Valid() && log == old(log) + [Action.Release(args)]
      ensures ok == Allowed(old(Model()), Action.Release(args))
    {
      if closed || failed || args !in barriers || barriers[args].phase != Active || barriers[args].release != 0 {
        ok := false;
      } else {
        var barrier := barriers[args];
        sequence := sequence + 1;
        barrier := barrier.(release := sequence);
        barrier := barrier.(releasedCloses := barrier.releasedCloses + 1);
        barriers := barriers[args := barrier];
        ok := true;
      }
      Record(Action.Release(args));
    }

    /** The listener died. */
    method Fail()
      requires Valid()
      modifies this
      ensures Valid() && log == old(log) + [Action.Fail]
    {
      failed := true;
      Record(Action.Fail);
    }

    /** The once-only first critical section of shutdown. */
    method Shutdown()
      requires Valid()
      modifies this
      ensures Valid() && log == old(log) + [Action.Shutdown]
    {
      if !closed {
        closed := true;
        closingCloses := closingCloses + 1;
      }
      Record(Action.Shutdown);
    }

    method Snapshot(args: Args) returns (ok: bool, observation: Barrier)
      ensures ok <==> !failed && args in barriers
      ensures ok ==> observation == barriers[args]
    {
      ok := !failed && args in barriers;
      observation := if ok then barriers[args] else NewBarrier("");
    }

    /** Returns once the call entered, the context ended or the fixture closes; either ready case may win. */
    method WaitEntered(args: Args, ctx: Context) returns (ok: bool)
      requires Valid()
      requires args !in barriers || ctx != Live || closed || barriers[args].enteredCloses > 0
      ensures ok ==> ctx == Live && !failed && args in barriers && barriers[args].phase == Active
      ensures args in barriers && ctx == Live && !closed && !failed && barriers[args].phase == Active ==> ok
    {
      if args !in barriers || ctx != Live {
        return false;
      }
      if {
        case barriers[args].enteredCloses > 0 =>
          var found, observation := Snapshot(args);
          ok := found && observation.phase == Active;
        case closed =>
          ok := false;
      }
    }
  }
}
