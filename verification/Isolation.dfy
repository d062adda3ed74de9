/** Stamps as evidence that one held tool call enclosed another. */
module Isolation {
  import opened ActiveTool

  /** The comparison the evidence check makes between the two fixture observations. */
  predicate StampsNested(a: Barrier, b: Barrier) {
    a.entered < b.entered && b.settled < a.release
  }

  predicate ActiveAt(acts: seq<Action>, i: nat, args: Args)
    requires i <= |acts|
  {
    args in After(acts[..i]).barriers && After(acts[..i]).barriers[args].phase == Active
  }

  /** Held: entered, not settled, and its driver has not released it. */
  predicate HeldAt(acts: seq<Action>, i: nat, args: Args)
    requires i <= |acts|
  {
    ActiveAt(acts, i, args) && After(acts[..i]).barriers[args].release == 0
  }

  /** At every moment of the run at which `b` was active, `a` was held. */
  ghost predicate Enclosed(acts: seq<Action>, a: Args, b: Args) {
    forall i: nat | i <= |acts| && ActiveAt(acts, i, b) :: HeldAt(acts, i, a)
  }

  /** What a final stamp says about an earlier moment: set there exactly when it is not above the counter. */
  lemma {:induction false} StampAtMoment(acts: seq<Action>, i: nat, args: Args, stage: Stage)
    requires i <= |acts| && args in After(acts).barriers
    ensures var s := After(acts[..i]);
            var n := Stamp(After(acts).barriers[args], stage);
            (args in s.barriers && Stamp(s.barriers[args], stage) != 0) <==> (n != 0 && n <= s.sequence)
  {
    RunIsMonotone(acts, i);
    EveryRunKeepsInv(acts[..i]);
    var s := After(acts[..i]);
    if args in s.barriers {
      assert StampKept(s.barriers[args], After(acts).barriers[args], stage, s.sequence);
      assert 0 <= Stamp(s.barriers[args], stage) <= s.sequence;
    }
  }

  /** When a barrier is active, and when it is held, read off its final stamps. */
  lemma {:induction false} PhaseAtMoment(acts: seq<Action>, i: nat, args: Args)
    requires i <= |acts| && args in After(acts).barriers
    ensures var b := After(acts).barriers[args];
            var now := After(acts[..i]).sequence;
            && (ActiveAt(acts, i, args) <==> 0 < b.entered <= now && (b.settled == 0 || now < b.settled))
            && (ActiveAt(acts, i, args) ==> (HeldAt(acts, i, args) <==> b.release == 0 || now < b.release))
  {
    StampAtMoment(acts, i, args, EnteredStage);
    StampAtMoment(acts, i, args, ReleaseStage);
    StampAtMoment(acts, i, args, SettledStage);
    EveryRunKeepsInv(acts);
    EveryRunKeepsInv(acts[..i]);
    StampsBounded(After(acts), args);
    if args in After(acts[..i]).barriers {
      assert BarrierOk(After(acts[..i]).barriers[args]);
    }
  }

  /** Nested stamps prove enclosure over the whole run. */
  lemma {:induction false} NestedStampsEnclose(acts: seq<Action>, a: Args, b: Args)
    requires a in After(acts).barriers && b in After(acts).barriers
    requires After(acts).barriers[a].entered != 0 && After(acts).barriers[b].settled != 0
    requires StampsNested(After(acts).barriers[a], After(acts).barriers[b])
    ensures Enclosed(acts, a, b)
  {
    EveryRunKeepsInv(acts);
    assert BarrierOk(After(acts).barriers[a]) && BarrierOk(After(acts).barriers[b]);
    StampsBounded(After(acts), a);
    forall i: nat | i <= |acts| && ActiveAt(acts, i, b) ensures HeldAt(acts, i, a) {
      PhaseAtMoment(acts, i, a);
      PhaseAtMoment(acts, i, b);
    }
  }

  /** Enclosure over the whole run, for a released `a` and a settled `b`, forces nested stamps. */
  lemma {:induction false} EnclosureNestsStamps(acts: seq<Action>, a: Args, b: Args)
    requires a in After(acts).barriers && b in After(acts).barriers
    requires After(acts).barriers[a].release != 0 && After(acts).barriers[b].settled != 0
    requires Enclosed(acts, a, b)
    ensures a != b && StampsNested(After(acts).barriers[a], After(acts).barriers[b])
  {
    var s := After(acts);
    EveryRunKeepsInv(acts);
    StampsBounded(s, a);
    StampsBounded(s, b);
    assert BarrierOk(s.barriers[a]) && BarrierOk(s.barriers[b]);
    var entry := StampIssued(acts, s.barriers[b].entered);
    PhaseAtMoment(acts, entry + 1, b);
    PhaseAtMoment(acts, entry + 1, a);
    assert HeldAt(acts, entry + 1, a);
    var exit := StampIssued(acts, s.barriers[b].settled);
    PhaseAtMoment(acts, exit, b);
    PhaseAtMoment(acts, exit, a);
    assert HeldAt(acts, exit, a);
    assert Stamp(s.barriers[a], EnteredStage) != Stamp(s.barriers[b], EnteredStage);
    assert Stamp(s.barriers[a], ReleaseStage) != Stamp(s.barriers[b], SettledStage);
  }

  // ------------------------------------------------------ the live ordering

  /** Any interleaving of other goroutines: drivers, tool calls, cancellations, the listener. */
  method Interleave(fixture: Fixture, script: seq<Action>)
    requires fixture.Valid()
    modifies fixture
    ensures fixture.Valid() && old(fixture.log) <= fixture.log
  {
    for i := 0 to |script|
      invariant fixture.Valid() && old(fixture.log) <= fixture.log
    {
      match script[i]
      case Register(args, session) => var _ := fixture.Register(args, session);
      case Enter(args, ctx) => var _ := fixture.Enter(args, ctx);
      case Settle(args, ctx) =>
        if args in fixture.barriers && fixture.barriers[args].phase == Active &&
           (fixture.barriers[args].releasedCloses > 0 || ctx != Live || fixture.closed) {
          var _ := fixture.Settle(args, ctx);
        }
      case Leave => if fixture.workers > fixture.inFlight { fixture.Leave(); }
      case Release(args) => var _ := fixture.Release(args);
      case Fail => fixture.Fail();
      case Shutdown => fixture.Shutdown();
    }
  }

  /** One stamp at two moments: kept once set, and issued later only above the earlier counter. */
  lemma {:induction false} StampLater(early: seq<Action>, late: seq<Action>, args: Args, stage: Stage)
    requires early <= late
    ensures args in After(early).barriers ==> args in After(late).barriers
    ensures args in After(late).barriers ==>
              var n := if args in After(early).barriers then Stamp(After(early).barriers[args], stage) else 0;
              var m := Stamp(After(late).barriers[args], stage);
              0 <= n <= After(early).sequence && if n != 0 then m == n else m == 0 || m > After(early).sequence
    ensures After(early).sequence <= After(late).sequence
  {
    RunIsMonotone(late, |early|);
    assert late[..|early|] == early;
    EveryRunKeepsInv(early);
    if args in After(early).barriers {
      assert StampKept(After(early).barriers[args], After(late).barriers[args], stage, After(early).sequence);
      assert 0 <= Stamp(After(early).barriers[args], stage) <= After(early).sequence;
    }
  }

  lemma {:induction false} Ordered(acts: seq<Action>, args: Args)
    requires args in After(acts).barriers
    ensures BarrierOk(After(acts).barriers[args])
  {
    EveryRunKeepsInv(acts);
  }

  /** The stamps of a settled barrier never change again. */
  lemma {:induction false} SettledIsFinal(early: seq<Action>, late: seq<Action>, args: Args, stage: Stage)
    requires early <= late && args in After(early).barriers && After(early).barriers[args].settled != 0
    ensures args in After(late).barriers
    ensures Stamp(After(late).barriers[args], stage) == Stamp(After(early).barriers[args], stage)
  {
    StampLater(early, late, args, EnteredStage);
    StampLater(early, late, args, ReleaseStage);
    StampLater(early, late, args, SettledStage);
    Ordered(early, args);
    Ordered(late, args);
  }

  /** The heart of the live ordering, on the log alone: `held` re-checks A after B settled. */
  lemma {:induction false} LiveOrderNests(entered: seq<Action>, settled: seq<Action>, held: seq<Action>, done: seq<Action>, a: Args, b: Args)
    requires entered <= settled && settled <= held && held <= done
    requires a in After(entered).barriers && After(entered).barriers[a].entered != 0
    requires b !in After(entered).barriers
    requires b in After(settled).barriers && After(settled).barriers[b].settled != 0
    requires a in After(held).barriers && After(held).barriers[a].release == 0
    requires a in After(done).barriers && After(done).barriers[a].release != 0
    ensures b in After(done).barriers && StampsNested(After(done).barriers[a], After(done).barriers[b])
    ensures Enclosed(done, a, b)
  {
    StampLater(entered, done, a, EnteredStage);
    StampLater(entered, settled, b, EnteredStage);
    StampLater(settled, held, b, SettledStage);
    StampLater(held, done, a, ReleaseStage);
    SettledIsFinal(settled, done, b, EnteredStage);
    SettledIsFinal(settled, done, b, SettledStage);
    Ordered(settled, b);
    NestedStampsEnclose(done, a, b);
  }

  ghost predicate EnteredBy(acts: seq<Action>, args: Args) {
    args in After(acts).barriers && After(acts).barriers[args].entered != 0
  }

  ghost predicate SettledBy(acts: seq<Action>, args: Args, observed: Barrier) {
    args in After(acts).barriers && After(acts).barriers[args] == observed && observed.settled != 0
  }

  /** Wait until A entered, then register the peer's call and run the peer scope to its captured settlement. */
  method RunPeer(fixture: Fixture, a: Args, b: Args, peerSession: string, ctx: Context,
                 before: seq<Action>, peer: seq<Action>)
    returns (ok: bool, inner: Barrier, ghost entered: seq<Action>)
    requires fixture.Valid()
    modifies fixture
    ensures fixture.Valid() && old(fixture.log) <= fixture.log
    ensures ok ==> entered <= fixture.log && EnteredBy(entered, a) && b !in After(entered).barriers
    ensures ok ==> inner.phase == Released && SettledBy(fixture.log, b, inner)
  {
    ok, inner, entered := false, NewBarrier(""), [];
    Interleave(fixture, before);
    if !(a !in fixture.barriers || ctx != Live || fixture.closed || fixture.barriers[a].enteredCloses > 0) {
      return;  // the wait outlives the script
    }
    var waited := fixture.WaitEntered(a, ctx);
    if !waited { return; }
    entered := fixture.log;
    Ordered(entered, a);
    var registered := fixture.Register(b, peerSession);
    if !registered { return; }
    Interleave(fixture, peer);
    var captured, observation := fixture.Snapshot(b);
    if !captured || observation.phase != Released { return; }
    inner := observation;
    Ordered(fixture.log, b);
    ok := true;
  }

  /** Re-check that A is still held, steer it, release it and capture its settlement. */
  method RecheckAndRelease(fixture: Fixture, a: Args, steering: seq<Action>, tail: seq<Action>)
    returns (ok: bool, outer: Barrier)
    requires fixture.Valid()
    modifies fixture
    ensures fixture.Valid() && old(fixture.log) <= fixture.log
    ensures ok ==> a in old(fixture.barriers) && old(fixture.barriers)[a].release == 0
    ensures ok ==> outer.phase == Released && outer.release != 0 && SettledBy(fixture.log, a, outer)
  {
    ok, outer := false, NewBarrier("");
    var found, held := fixture.Snapshot(a);
    if !found || held.phase != Active || held.release != 0 { return; }
    Interleave(fixture, steering);
    var released := fixture.Release(a);
    if !released { return; }
    Interleave(fixture, tail);
    var concluded, final := fixture.Snapshot(a);
    if !concluded || final.phase != Released { return; }
    outer := final;
    Ordered(fixture.log, a);
    ok := true;
  }

  /**
   * The driver of the outer scope: wait for A, run the peer scope, re-check A, then steer and release A
   * and capture it. The scripts are what everybody else does between its own steps.
   */
  method AfterSend(fixture: Fixture, a: Args, b: Args, peerSession: string, ctx: Context,
                   before: seq<Action>, peer: seq<Action>, closing: seq<Action>, steering: seq<Action>, tail: seq<Action>)
    returns (ok: bool, outer: Barrier, inner: Barrier)
    requires fixture.Valid()
    modifies fixture
    ensures fixture.Valid() && old(fixture.log) <= fixture.log
    ensures ok ==> outer.phase == inner.phase == Released && StampsNested(outer, inner)
    ensures ok ==> SettledBy(fixture.log, a, outer) && Enclosed(fixture.log, a, b)
  {
    ok, outer := false, NewBarrier("");
    var ran: bool;
    ghost var entered: seq<Action>;
    ran, inner, entered := RunPeer(fixture, a, b, peerSession, ctx, before, peer);
    if !ran { return; }
    ghost var settled := fixture.log;
    Interleave(fixture, closing);
    ghost var recheck := fixture.log;
    var concluded: bool;
    concluded, outer := RecheckAndRelease(fixture, a, steering, tail);
    if !concluded { return; }
    LiveOrderNests(entered, settled, recheck, fixture.log, a, b);
    SettledIsFinal(settled, fixture.log, b, EnteredStage);
    SettledIsFinal(settled, fixture.log, b, SettledStage);
    ok := true;
  }
}
