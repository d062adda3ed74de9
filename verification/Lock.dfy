/** The advisory file lock that keeps transactions on one service apart. */
module Lock {
  import opened Options

  /**
   * The lock file by name, the descriptors of the processes that opened it, and the exclusive locks: which process
   * holds the lock of which inode.
   */
  datatype State = State(entry: Option<nat>, next: nat, open: map<nat, nat>, holders: map<nat, nat>)

  /** System calls of transactions, named by process, and the removal of the lock file by someone else. */
  datatype Action = Open(p: nat) | TryLock(p: nat) | Close(p: nat) | Unlink

  function Initial(): State { State(None, 0, map[], map[]) }

  function Step(s: State, a: Action): State {
    match a
    case Open(p) =>
      if p in s.open then s
      else if s.entry.Some? then s.(open := s.open[p := s.entry.value])
      else s.(entry := Some(s.next), next := s.next + 1, open := s.open[p := s.next])
    case TryLock(p) =>
      if p in s.open && s.open[p] !in s.holders then s.(holders := s.holders[s.open[p] := p]) else s
    case Close(p) =>
      if p !in s.open then s
      else
        s.(open := s.open - {p},
           holders := if s.open[p] in s.holders && s.holders[s.open[p]] == p then s.holders - {s.open[p]} else s.holders)
    case Unlink => s.(entry := None)
  }

  function Run(acts: seq<Action>): State {
    if acts == [] then Initial() else Step(Run(acts[..|acts| - 1]), acts[|acts| - 1])
  }

  /** Process `p` holds the lock of the file it opened. */
  predicate Holds(s: State, p: nat) {
    p in s.open && s.open[p] in s.holders && s.holders[s.open[p]] == p
  }

  ghost predicate Inv(s: State) {
    && (s.entry.Some? ==> s.entry.value < s.next)
    && (forall p | p in s.open :: s.open[p] < s.next)
    && (forall i | i in s.holders :: s.holders[i] in s.open && s.open[s.holders[i]] == i)
  }

  lemma {:induction false} EveryRunKeepsInv(acts: seq<Action>)
    ensures Inv(Run(acts))
  {
    if acts != [] {
      EveryRunKeepsInv(acts[..|acts| - 1]);
    }
  }

  /** While the name keeps its file, every descriptor is of that one file. */
  lemma {:induction false} OneFile(acts: seq<Action>)
    requires Unlink !in acts
    ensures var s := Run(acts); s.entry.None? ==> s.open == map[]
    ensures var s := Run(acts); forall p | p in s.open :: s.entry == Some(s.open[p])
  {
    if acts != [] {
      var front := acts[..|acts| - 1];
      assert forall a | a in front :: a in acts;
      OneFile(front);
    }
  }

  /** As long as nobody removes the lock file, no two processes hold the lock at once. */
  lemma {:induction false} MutualExclusion(acts: seq<Action>, p: nat, q: nat)
    requires Unlink !in acts && Holds(Run(acts), p) && Holds(Run(acts), q)
    ensures p == q
  {
    OneFile(acts);
    var s := Run(acts);
    assert Some(s.open[p]) == s.entry == Some(s.open[q]);
  }

  /** Two holders are always of different files: the lock is exclusive per file, not per name. */
  lemma {:induction false} ExclusivePerFile(acts: seq<Action>, p: nat, q: nat)
    requires Holds(Run(acts), p) && Holds(Run(acts), q)
    ensures p == q <==> Run(acts).open[p] == Run(acts).open[q]
  {
  }

  /** Removing the lock file under a holder lets a second process in. */
  lemma {:induction false} UnlinkBreaksExclusion(p: nat, q: nat)
    requires p != q
    ensures var s := Run([Open(p), TryLock(p), Unlink, Open(q), TryLock(q)]); Holds(s, p) && Holds(s, q)
  {
    RunSnoc([], Open(p));
    RunSnoc([Open(p)], TryLock(p));
    RunSnoc([Open(p), TryLock(p)], Unlink);
    RunSnoc([Open(p), TryLock(p), Unlink], Open(q));
    RunSnoc([Open(p), TryLock(p), Unlink, Open(q)], TryLock(q));
    assert [] + [Open(p)] == [Open(p)] && [Open(p)] + [TryLock(p)] == [Open(p), TryLock(p)];
    assert [Open(p), TryLock(p)] + [Unlink] == [Open(p), TryLock(p), Unlink];
    assert [Open(p), TryLock(p), Unlink] + [Open(q)] == [Open(p), TryLock(p), Unlink, Open(q)];
    assert [Open(p), TryLock(p), Unlink, Open(q)] + [TryLock(q)] == [Open(p), TryLock(p), Unlink, Open(q), TryLock(q)];
  }

  lemma {:induction false} RunSnoc(acts: seq<Action>, a: Action)
    ensures Run(acts + [a]) == Step(Run(acts), a)
  {
    assert (acts + [a])[..|acts|] == acts;
  }

  // ------------------------------------------- when two can hold together

  /** The step that opened the descriptor process `p` has now. */
  function OpenedAt(acts: seq<Action>, p: nat): (k: nat)
    requires p in Run(acts).open
    ensures k < |acts| && p !in Run(acts[..k]).open && acts[k] == Open(p)
  {
    var front := acts[..|acts| - 1];
    if p in Run(front).open then
      var k := OpenedAt(front, p);
      assert acts[..k] == front[..k];
      k
    else |acts| - 1
  }

  ghost predicate UnlinkIn(acts: seq<Action>, from: nat, to: nat) {
    exists k | from <= k < to <= |acts| :: acts[k] == Unlink
  }

  /** The file was removed after one of the two opened it and before the other did. */
  ghost predicate UnlinkBetween(acts: seq<Action>, p: nat, q: nat)
    requires p in Run(acts).open && q in Run(acts).open
  {
    UnlinkIn(acts, OpenedAt(acts, p), OpenedAt(acts, q)) || UnlinkIn(acts, OpenedAt(acts, q), OpenedAt(acts, p))
  }

  /** The name still stands for the file of a descriptor exactly when it was not removed since. */
  lemma {:induction false} NameKeepsFile(acts: seq<Action>, p: nat)
    requires p in Run(acts).open
    ensures Run(acts).entry == Some(Run(acts).open[p]) <==> !UnlinkIn(acts, OpenedAt(acts, p), |acts|)
  {
    var front, a := acts[..|acts| - 1], acts[|acts| - 1];
    EveryRunKeepsInv(front);
    if p in Run(front).open {
      NameKeepsFile(front, p);
      var k := OpenedAt(front, p);
      assert UnlinkIn(acts, k, |acts|) <==> UnlinkIn(front, k, |front|) || a == Unlink by {
        assert forall j | k <= j < |front| :: acts[j] == front[j];
        if a == Unlink { assert acts[|acts| - 1] == Unlink; }
      }
    }
  }

  /** Two descriptors are of the same file exactly when it was not removed between their openings. */
  lemma {:induction false} SameFileExactly(acts: seq<Action>, p: nat, q: nat)
    requires p in Run(acts).open && q in Run(acts).open
    ensures Run(acts).open[p] == Run(acts).open[q] <==> !UnlinkBetween(acts, p, q)
  {
    var front := acts[..|acts| - 1];
    if p in Run(front).open && q in Run(front).open {
      SameFileExactly(front, p, q);
      SameWindow(acts, OpenedAt(front, p), OpenedAt(front, q));
      SameWindow(acts, OpenedAt(front, q), OpenedAt(front, p));
    } else if p in Run(front).open {
      JustOpened(acts, p, q);
    } else if q in Run(front).open {
      JustOpened(acts, q, p);
    }
  }

  /** The last step opened the second descriptor. */
  lemma {:induction false} JustOpened(acts: seq<Action>, p: nat, q: nat)
    requires p in Run(acts).open && q in Run(acts).open
    requires p in Run(acts[..|acts| - 1]).open && q !in Run(acts[..|acts| - 1]).open
    ensures Run(acts).open[p] == Run(acts).open[q] <==> !UnlinkIn(acts, OpenedAt(acts, p), OpenedAt(acts, q))
    ensures !UnlinkIn(acts, OpenedAt(acts, q), OpenedAt(acts, p))
  {
    var front := acts[..|acts| - 1];
    EveryRunKeepsInv(front);
    NameKeepsFile(front, p);
    SameWindow(acts, OpenedAt(front, p), |front|);
  }

  lemma {:induction false} SameWindow(acts: seq<Action>, from: nat, to: nat)
    requires acts != [] && to < |acts|
    ensures UnlinkIn(acts, from, to) <==> UnlinkIn(acts[..|acts| - 1], from, to)
  {
    var front := acts[..|acts| - 1];
    assert forall k | 0 <= k < |front| :: acts[k] == front[k];
  }

  /** Neither process closes its descriptor. */
  predicate BothStay(acts: seq<Action>, p: nat, q: nat) {
    Close(p) !in acts && Close(q) !in acts
  }

  lemma {:induction false} DescriptorsStay(acts: seq<Action>, more: seq<Action>, p: nat)
    requires p in Run(acts).open && Close(p) !in more
    ensures p in Run(acts + more).open && Run(acts + more).open[p] == Run(acts).open[p]
  {
    if more == [] {
      assert acts + more == acts;
    } else {
      var front := more[..|more| - 1];
      assert acts + more == (acts + front) + [more[|more| - 1]];
      DescriptorsStay(acts, front, p);
      RunSnoc(acts + front, more[|more| - 1]);
    }
  }

  /** If another process has the lock of this descriptor's file, it gives it up; then `p` takes it. */
  lemma {:induction false} TakesLock(acts: seq<Action>, p: nat, q: nat) returns (more: seq<Action>)
    requires p != q && p in Run(acts).open && q in Run(acts).open && Run(acts).open[p] != Run(acts).open[q]
    ensures BothStay(more, p, q) && Holds(Run(acts + more), p)
    ensures Holds(Run(acts), q) ==> Holds(Run(acts + more), q)
  {
    EveryRunKeepsInv(acts);
    var s := Run(acts);
    var file := s.open[p];
    if file in s.holders && s.holders[file] != p {
      var r := s.holders[file];
      more := [Close(r), TryLock(p)];
      assert acts + more == acts + [Close(r)] + [TryLock(p)];
      RunSnoc(acts, Close(r));
      RunSnoc(acts + [Close(r)], TryLock(p));
    } else {
      more := [TryLock(p)];
      RunSnoc(acts, TryLock(p));
    }
  }

  ghost predicate HoldTogether(acts: seq<Action>, more: seq<Action>, p: nat, q: nat) {
    BothStay(more, p, q) && Holds(Run(acts + more), p) && Holds(Run(acts + more), q)
  }

  /** Two processes that have the lock file open can come to hold it both exactly when it was removed between their openings. */
  lemma {:induction false} HoldTogetherExactly(acts: seq<Action>, p: nat, q: nat)
    requires p != q && p in Run(acts).open && q in Run(acts).open
    ensures UnlinkBetween(acts, p, q) <==> exists more :: HoldTogether(acts, more, p, q)
  {
    SameFileExactly(acts, p, q);
    if UnlinkBetween(acts, p, q) {
      var first := TakesLock(acts, p, q);
      DescriptorsStay(acts, first, p);
      DescriptorsStay(acts, first, q);
      var second := TakesLock(acts + first, q, p);
      assert acts + (first + second) == acts + first + second;
      assert HoldTogether(acts, first + second, p, q);
    } else {
      forall more | HoldTogether(acts, more, p, q) ensures false {
        DescriptorsStay(acts, more, p);
        DescriptorsStay(acts, more, q);
        assert false;
      }
    }
  }

  /** Whether the step is one of process `p`. */
  predicate By(a: Action, p: nat) {
    match a
    case Open(q) => q == p
    case TryLock(q) => q == p
    case Close(q) => q == p
    case Unlink => false
  }

  /** The lock file as shared state; between the steps of one process others take theirs. */
  class LockFile {
    var state: State
    ghost var log: seq<Action>

    ghost predicate Valid()
      reads this
    {
      state == Run(log)
    }

    constructor ()
      ensures Valid() && log == []
    {
      state, log := Initial(), [];
    }

    method Do(a: Action)
      requires Valid()
      modifies this
      ensures Valid() && log == old(log) + [a] && state == Step(old(state), a)
    {
      RunSnoc(log, a);
      state := Step(state, a);
      log := log + [a];
    }

    /** Any steps of other processes, and removals of the file. */
    method Others(p: nat)
      requires Valid()
      modifies this
      ensures Valid() && old(log) <= log
      ensures p in old(state).open ==> p in state.open && state.open[p] == old(state).open[p]
      ensures p !in old(state).open ==> p !in state.open
      ensures Holds(old(state), p) ==> Holds(state, p)
    {
      var some: int := *;
      for n := 0 to if some < 0 then 0 else some
        invariant Valid() && old(log) <= log
        invariant p in old(state).open ==> p in state.open && state.open[p] == old(state).open[p]
        invariant p !in old(state).open ==> p !in state.open
        invariant Holds(old(state), p) ==> Holds(state, p)
      {
        var a: Action := *;
        if !By(a, p) {
          EveryRunKeepsInv(log);
          Do(a);
        }
      }
    }

    /** Opens the file and retries until the lock is granted or the context ends; a failure leaves nothing open. */
    method Acquire(p: nat, patience: nat) returns (ok: bool)
      requires Valid() && p !in state.open
      modifies this
      ensures Valid() && old(log) <= log
      ensures ok ==> Holds(state, p)
      ensures !ok ==> p !in state.open
    {
      Others(p);
      Do(Open(p));
      var waits := 0;
      while true
        invariant Valid() && old(log) <= log && p in state.open && waits <= patience
        decreases patience - waits
      {
        Others(p);
        Do(TryLock(p));
        if state.open[p] in state.holders && state.holders[state.open[p]] == p { return true; }
        if waits == patience {
          Do(Close(p));
          return false;
        }
        waits := waits + 1;
      }
    }

    method Release(p: nat)
      requires Valid() && Holds(state, p)
      modifies this
      ensures Valid() && log == old(log) + [Close(p)]
      ensures p !in state.open && forall q | q != p && Holds(old(state), q) :: Holds(state, q)
    {
      EveryRunKeepsInv(log);
      Do(Close(p));
    }
  }
}
