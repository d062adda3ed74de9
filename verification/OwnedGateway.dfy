/** Succession of owned gateway processes: one exclusive marker per home and one-shot restarts, under all interleavings. */
module OwnedGateway {
  import opened Options

  const MAX_GENERATIONS := 4

  /**
   * A child process as its waiter sees it: running, reaped with or without an error, marker dealt with, and done.
   * `ok` says whether no error has been met so far.
   */
  datatype Phase = Running | Reaped(ok: bool) | Removed(ok: bool) | Done(ok: bool)

  datatype Child = Child(home: nat, parent: Option<nat>, generation: int, phase: Phase,
                         admitted: bool, forced: bool, restartUsed: bool)

  /**
   * A launch under way. A restart first wins the one-shot flag and re-examines its predecessor; then both kinds
   * create the marker, create the temporary directory, and start the process.
   */
  datatype Stage = Checking | Checked | Won | Identified | Holding | Ready | Started | Failed

  datatype Attempt = Attempt(previous: Option<nat>, home: nat, stage: Stage)

  /** Who created a marker file. No step reads this; it only tells markers apart in the invariant. */
  datatype Owner = ByAttempt(attempt: nat) | ByChild(child: nat) | Stray

  /** `used` are the homes that contain a temporary directory. */
  datatype State = State(children: seq<Child>, attempts: seq<Attempt>, markers: map<nat, Owner>, used: set<nat>)

  datatype Action =
    | BeginFirst(home: nat)
    | BeginRestart(child: nat)
    | Check(attempt: nat, allows: bool)
    | Swap(attempt: nat)
    | Identify(attempt: nat, allows: bool)
    | CreateMarker(attempt: nat, closes: bool)
    | MakeTemporary(attempt: nat, works: bool)
    | Start(attempt: nat, works: bool)
    | Admit(child: nat)
    | Force(child: nat)
    | Reap(child: nat, ok: bool)
    | RemoveMarker(child: nat, removes: bool, closes: bool)
    | CloseDone(child: nat)

  predicate CleanExit(c: Child) {
    c.admitted && !c.forced && c.phase == Done(true)
  }

  predicate At(s: State, i: nat, stage: Stage) {
    i < |s.attempts| && s.attempts[i].stage == stage
  }

  function Move(s: State, i: nat, stage: Stage): State
    requires i < |s.attempts|
  {
    s.(attempts := s.attempts[i := s.attempts[i].(stage := stage)])
  }

  function Unmark(s: State, home: nat): State {
    s.(markers := s.markers - {home})
  }

  function Update(s: State, c: nat, child: Child): State
    requires c < |s.children|
  {
    s.(children := s.children[c := child])
  }

  /** The child that a started attempt becomes. */
  function NewChild(s: State, i: nat): Child
    requires i < |s.attempts|
  {
    var a := s.attempts[i];
    Child(a.home, a.previous,
          if a.previous.Some? && a.previous.value < |s.children| then s.children[a.previous.value].generation + 1 else 1,
          Running, false, false, false)
  }

  function Step(s: State, a: Action): State {
    match a
    case BeginFirst(home) => s.(attempts := s.attempts + [Attempt(None, home, Identified)])
    case BeginRestart(c) =>
      if c < |s.children| then s.(attempts := s.attempts + [Attempt(Some(c), s.children[c].home, Checking)]) else s
    case Check(i, allows) =>
      if At(s, i, Checking) && s.attempts[i].previous.Some? && s.attempts[i].previous.value < |s.children| then
        var c := s.children[s.attempts[i].previous.value];
        Move(s, i, if allows && CleanExit(c) && c.generation < MAX_GENERATIONS && s.attempts[i].home !in s.markers
                   then Checked else Failed)
      else s
    case Swap(i) =>
      if At(s, i, Checked) && s.attempts[i].previous.Some? && s.attempts[i].previous.value < |s.children| then
        var p := s.attempts[i].previous.value;
        if s.children[p].restartUsed then Move(s, i, Failed)
        else Move(Update(s, p, s.children[p].(restartUsed := true)), i, Won)
      else s
    case Identify(i, allows) =>
      if At(s, i, Won) && s.attempts[i].previous.Some? && s.attempts[i].previous.value < |s.children| then
        var c := s.children[s.attempts[i].previous.value];
        Move(s, i, if allows && c.restartUsed && CleanExit(c) && 1 <= c.generation < MAX_GENERATIONS then Identified else Failed)
      else s
    case CreateMarker(i, closes) =>
      if !At(s, i, Identified) then s
      else if s.attempts[i].home in s.markers then Move(s, i, Failed)
      else if !closes then Move(s.(markers := s.markers[s.attempts[i].home := Stray]), i, Failed)
      else Move(s.(markers := s.markers[s.attempts[i].home := ByAttempt(i)]), i, Holding)
    case MakeTemporary(i, works) =>
      if !At(s, i, Holding) then s
      else if !works || (s.attempts[i].previous.None? && s.attempts[i].home in s.used)
      then Unmark(Move(s, i, Failed), s.attempts[i].home)
      else Move(s.(used := s.used + {s.attempts[i].home}), i, Ready)
    case Start(i, works) =>
      if !At(s, i, Ready) then s
      else if !works then Unmark(Move(s, i, Failed), s.attempts[i].home)
      else Move(s.(children := s.children + [NewChild(s, i)],
                   markers := s.markers[s.attempts[i].home := ByChild(|s.children|)]), i, Started)
    case Admit(c) =>
      if c < |s.children| then Update(s, c, s.children[c].(admitted := true)) else s
    case Force(c) => if c < |s.children| then Update(s, c, s.children[c].(forced := true)) else s
    case Reap(c, ok) =>
      if c < |s.children| && s.children[c].phase == Running then Update(s, c, s.children[c].(phase := Reaped(ok))) else s
    case RemoveMarker(c, removes, closes) =>
      if c < |s.children| && s.children[c].phase == Reaped(true) then
        var t := Update(s, c, s.children[c].(phase := Removed(removes && closes)));
        if removes then Unmark(t, s.children[c].home) else t
      else s
    case CloseDone(c) =>
      if c < |s.children| && (s.children[c].phase == Reaped(false) || s.children[c].phase.Removed?) then
        Update(s, c, s.children[c].(phase := Done(s.children[c].phase.ok)))
      else s
  }

  function Run(s: State, acts: seq<Action>): State {
    if acts == [] then s else Step(Run(s, acts[..|acts| - 1]), acts[|acts| - 1])
  }

  function Opened(): State { State([], [], map[], {}) }

  // -------------------------------------------------------------- invariant

  ghost predicate ParentOk(s: State, c: nat)
    requires c < |s.children|
  {
    var child := s.children[c];
    && 1 <= child.generation <= MAX_GENERATIONS && child.home in s.used
    && match child.parent
       case None => child.generation == 1
       case Some(p) =>
         && p < c && s.children[p].home == child.home && child.generation == s.children[p].generation + 1
         && s.children[p].restartUsed && s.children[p].phase == Done(true)
  }

  ghost predicate Families(s: State) {
    && (forall c | 0 <= c < |s.children| :: ParentOk(s, c))
    && (forall b, c | 0 <= b < |s.children| && 0 <= c < |s.children| && s.children[b].parent == s.children[c].parent ::
          if s.children[b].parent.Some? then b == c else s.children[b].home == s.children[c].home ==> b == c)
  }

  predicate Succeeding(stage: Stage) {
    stage == Won || stage == Identified || stage == Holding || stage == Ready
  }

  ghost predicate Childless(s: State, p: nat) {
    forall c | 0 <= c < |s.children| :: s.children[c].parent != Some(p)
  }

  /** A winner's predecessor is used up by it alone and has no successor yet. */
  ghost predicate WinnerOk(s: State, i: nat)
    requires i < |s.attempts|
  {
    var a := s.attempts[i];
    (a.previous.Some? && Succeeding(a.stage)) ==>
      var p := a.previous.value;
      && p < |s.children| && s.children[p].home == a.home && s.children[p].restartUsed && Childless(s, p)
      && (a.stage != Won ==> s.children[p].phase == Done(true) && s.children[p].generation < MAX_GENERATIONS)
  }

  ghost predicate Winners(s: State) {
    && (forall i | 0 <= i < |s.attempts| :: WinnerOk(s, i))
    && (forall i, j | 0 <= i < |s.attempts| && 0 <= j < |s.attempts| && s.attempts[i].previous.Some?
          && s.attempts[i].previous == s.attempts[j].previous
          && Succeeding(s.attempts[i].stage) && Succeeding(s.attempts[j].stage) :: i == j)
  }

  ghost predicate Barren(s: State, home: nat) {
    forall c | 0 <= c < |s.children| :: s.children[c].home != home
  }

  predicate Launching(a: Attempt) { a.stage == Holding || a.stage == Ready }

  predicate Occupying(c: Child) { c.phase == Running || c.phase.Reaped? }

  /** Every holder of a home's marker is the one that created it. */
  ghost predicate Holders(s: State) {
    && (forall i | 0 <= i < |s.attempts| && Launching(s.attempts[i]) :: s.attempts[i].home in s.markers && s.markers[s.attempts[i].home] == ByAttempt(i))
    && (forall c | 0 <= c < |s.children| && Occupying(s.children[c]) :: s.children[c].home in s.markers && s.markers[s.children[c].home] == ByChild(c))
    && (forall i | 0 <= i < |s.attempts| && s.attempts[i].stage == Ready ::
          s.attempts[i].home in s.used && (s.attempts[i].previous.None? ==> Barren(s, s.attempts[i].home)))
  }

  ghost predicate PreviousOk(s: State) {
    forall i | 0 <= i < |s.attempts| && s.attempts[i].previous.Some? ::
      s.attempts[i].previous.value < |s.children| && s.attempts[i].home == s.children[s.attempts[i].previous.value].home
  }

  ghost predicate Inv(s: State) {
    Families(s) && Winners(s) && Holders(s) && PreviousOk(s)
  }

  lemma {:induction false} UpdateKeeps(s: State, c: nat, child: Child)
    requires Inv(s) && c < |s.children|
    requires var was := s.children[c];
             && child.home == was.home && child.parent == was.parent && child.generation == was.generation
             && (was.restartUsed ==> child.restartUsed) && (was.phase.Done? ==> child.phase == was.phase)
             && (Occupying(child) ==> Occupying(was))
    ensures Inv(Update(s, c, child))
  {
    var t := Update(s, c, child);
    forall b | 0 <= b < |t.children| ensures ParentOk(t, b) {
      assert ParentOk(s, b);
    }
    forall i | 0 <= i < |t.attempts| ensures WinnerOk(t, i) {
      assert WinnerOk(s, i);
      if s.attempts[i].previous.Some? && Succeeding(s.attempts[i].stage) {
        assert Childless(s, s.attempts[i].previous.value);
      }
    }
    forall i | 0 <= i < |s.attempts| && s.attempts[i].stage == Ready && s.attempts[i].previous.None?
      ensures Barren(t, s.attempts[i].home)
    {
      assert Barren(s, s.attempts[i].home);
    }
  }

  /** An attempt may always give up or wait: only succeeding stages carry obligations. */
  lemma {:induction false} MoveKeeps(s: State, i: nat, stage: Stage)
    requires Inv(s) && i < |s.attempts| && !Succeeding(stage)
    ensures Inv(Move(s, i, stage))
  {
    var t := Move(s, i, stage);
    forall b | 0 <= b < |t.children| ensures ParentOk(t, b) {
      assert ParentOk(s, b);
    }
    forall j | 0 <= j < |t.attempts| ensures WinnerOk(t, j) {
      assert WinnerOk(s, j);
    }
    forall j | 0 <= j < |s.attempts| && s.attempts[j].stage == Ready && s.attempts[j].previous.None?
      ensures Barren(t, s.attempts[j].home)
    {
      assert Barren(s, s.attempts[j].home);
    }
  }

  /** No attempt is launching and no child occupies the home. */
  ghost predicate Vacant(s: State, home: nat) {
    && (forall i | 0 <= i < |s.attempts| && Launching(s.attempts[i]) :: s.attempts[i].home != home)
    && (forall c | 0 <= c < |s.children| && Occupying(s.children[c]) :: s.children[c].home != home)
  }

  lemma {:induction false} UnmarkKeeps(s: State, home: nat)
    requires Inv(s) && Vacant(s, home)
    ensures Inv(Unmark(s, home))
  {
    var t := Unmark(s, home);
    forall b | 0 <= b < |t.children| ensures ParentOk(t, b) {
      assert ParentOk(s, b);
    }
    forall j | 0 <= j < |t.attempts| ensures WinnerOk(t, j) {
      assert WinnerOk(s, j);
    }
    forall i | 0 <= i < |s.attempts| && s.attempts[i].stage == Ready && s.attempts[i].previous.None?
      ensures Barren(t, s.attempts[i].home)
    {
      assert Barren(s, s.attempts[i].home);
    }
  }

  lemma {:induction false} AbandonedIsVacant(s: State, i: nat)
    requires Inv(s) && i < |s.attempts| && Launching(s.attempts[i])
    ensures Vacant(Move(s, i, Failed), s.attempts[i].home)
  {
  }

  /** A new attempt that owes nothing to a predecessor yet. */
  lemma {:induction false} AttemptAdded(s: State, x: Attempt)
    requires Inv(s) && !Launching(x) && (x.previous.Some? ==> x.stage == Checking)
    requires x.previous.Some? ==> x.previous.value < |s.children| && x.home == s.children[x.previous.value].home
    ensures Inv(s.(attempts := s.attempts + [x]))
  {
    var t := s.(attempts := s.attempts + [x]);
    forall b | 0 <= b < |t.children| ensures ParentOk(t, b) {
      assert ParentOk(s, b);
    }
    forall j | 0 <= j < |t.attempts| ensures WinnerOk(t, j) {
      if j < |s.attempts| { assert WinnerOk(s, j); }
    }
    forall i | 0 <= i < |s.attempts| && s.attempts[i].stage == Ready && s.attempts[i].previous.None?
      ensures Barren(t, s.attempts[i].home)
    {
      assert Barren(s, s.attempts[i].home);
    }
  }

  lemma {:induction false} BeginKeeps(s: State, a: Action)
    requires Inv(s) && (a.BeginFirst? || a.BeginRestart?)
    ensures Inv(Step(s, a))
  {
    if a.BeginFirst? {
      AttemptAdded(s, Attempt(None, a.home, Identified));
    } else if a.child < |s.children| {
      AttemptAdded(s, Attempt(Some(a.child), s.children[a.child].home, Checking));
    }
  }

  lemma {:induction false} SwapKeeps(s: State, i: nat)
    requires Inv(s) && At(s, i, Checked) && s.attempts[i].previous.Some?
    requires !s.children[s.attempts[i].previous.value].restartUsed
    ensures Inv(Step(s, Swap(i)))
  {
    var p := s.attempts[i].previous.value;
    var u := Update(s, p, s.children[p].(restartUsed := true));
    var t := Move(u, i, Won);
    UpdateKeeps(s, p, s.children[p].(restartUsed := true));
    assert Childless(s, p) by {
      forall c | 0 <= c < |s.children| ensures s.children[c].parent != Some(p) { assert ParentOk(s, c); }
    }
    forall b | 0 <= b < |t.children| ensures ParentOk(t, b) {
      assert ParentOk(u, b);
    }
    forall j | 0 <= j < |t.attempts|
      ensures WinnerOk(t, j)
      ensures j != i && t.attempts[j].previous == Some(p) ==> !Succeeding(t.attempts[j].stage)
    {
      assert WinnerOk(u, j) && WinnerOk(s, j);
    }
    forall j | 0 <= j < |s.attempts| && s.attempts[j].stage == Ready && s.attempts[j].previous.None?
      ensures Barren(t, s.attempts[j].home)
    {
      assert Barren(u, s.attempts[j].home);
    }
  }

  /** Moving on within the succeeding stages, with the marker and directory facts the new stage calls for. */
  lemma {:induction false} AdvanceKeeps(s: State, i: nat, t: State)
    requires Inv(s) && i < |s.attempts| && Succeeding(s.attempts[i].stage) && |t.attempts| == |s.attempts|
    requires t == s.(attempts := s.attempts[i := s.attempts[i].(stage := t.attempts[i].stage)], markers := t.markers, used := t.used)
    requires Succeeding(t.attempts[i].stage) && s.used <= t.used
    requires t.attempts[i].stage == Won <==> s.attempts[i].stage == Won
    requires Holders(t)
    ensures Inv(t)
  {
    forall b | 0 <= b < |t.children| ensures ParentOk(t, b) {
      assert ParentOk(s, b);
    }
    forall j | 0 <= j < |t.attempts| ensures WinnerOk(t, j) {
      assert WinnerOk(s, j);
    }
  }

  lemma {:induction false} IdentifyKeeps(s: State, i: nat)
    requires Inv(s) && At(s, i, Won) && s.attempts[i].previous.Some?
    requires var p := s.children[s.attempts[i].previous.value]; p.phase == Done(true) && p.generation < MAX_GENERATIONS
    ensures Inv(Move(s, i, Identified))
  {
    var t := Move(s, i, Identified);
    forall b | 0 <= b < |t.children| ensures ParentOk(t, b) {
      assert ParentOk(s, b);
    }
    forall j | 0 <= j < |t.attempts| ensures WinnerOk(t, j) {
      assert WinnerOk(s, j);
    }
    forall j | 0 <= j < |s.attempts| && s.attempts[j].stage == Ready && s.attempts[j].previous.None?
      ensures Barren(t, s.attempts[j].home)
    {
      assert Barren(s, s.attempts[j].home);
    }
  }

  lemma {:induction false} CreateKeeps(s: State, i: nat)
    requires Inv(s) && At(s, i, Identified) && s.attempts[i].home !in s.markers
    ensures Inv(Step(s, CreateMarker(i, true)))
  {
    var t := Step(s, CreateMarker(i, true));
    forall j | 0 <= j < |t.attempts| && t.attempts[j].stage == Ready && t.attempts[j].previous.None?
      ensures Barren(t, t.attempts[j].home)
    {
      assert Barren(s, s.attempts[j].home);
    }
    AdvanceKeeps(s, i, t);
  }

  lemma {:induction false} StrayKeeps(s: State, home: nat)
    requires Inv(s) && home !in s.markers
    ensures Inv(s.(markers := s.markers[home := Stray]))
  {
    var t := s.(markers := s.markers[home := Stray]);
    forall b | 0 <= b < |t.children| ensures ParentOk(t, b) {
      assert ParentOk(s, b);
    }
    forall j | 0 <= j < |t.attempts| ensures WinnerOk(t, j) {
      assert WinnerOk(s, j);
    }
    forall j | 0 <= j < |t.attempts| && t.attempts[j].stage == Ready && t.attempts[j].previous.None?
      ensures Barren(t, t.attempts[j].home)
    {
      assert Barren(s, s.attempts[j].home);
    }
  }

  lemma {:induction false} TemporaryKeeps(s: State, i: nat)
    requires Inv(s) && At(s, i, Holding) && (s.attempts[i].previous.None? ==> s.attempts[i].home !in s.used)
    ensures Inv(Step(s, MakeTemporary(i, true)))
  {
    var t := Step(s, MakeTemporary(i, true));
    if s.attempts[i].previous.None? {
      forall c | 0 <= c < |s.children| ensures s.children[c].home != s.attempts[i].home { assert ParentOk(s, c); }
      assert Barren(t, s.attempts[i].home);
    }
    forall j | 0 <= j < |t.attempts| && t.attempts[j].stage == Ready && t.attempts[j].previous.None?
      ensures Barren(t, t.attempts[j].home)
    {
      assert j != i ==> Barren(s, s.attempts[j].home);
    }
    AdvanceKeeps(s, i, t);
  }

  lemma {:induction false} StartKeepsFamilies(s: State, i: nat)
    requires Inv(s) && At(s, i, Ready)
    ensures Families(Step(s, Start(i, true)))
  {
    var t := Step(s, Start(i, true));
    assert WinnerOk(s, i);
    if s.attempts[i].previous.Some? {
      assert Childless(s, s.attempts[i].previous.value);
      assert ParentOk(s, s.attempts[i].previous.value);
    } else {
      assert Barren(s, s.attempts[i].home);
    }
    forall c | 0 <= c < |t.children| ensures ParentOk(t, c) {
      if c < |s.children| {
        assert ParentOk(s, c);
      }
    }
  }

  lemma {:induction false} StartKeepsWinners(s: State, i: nat)
    requires Inv(s) && At(s, i, Ready)
    ensures Winners(Step(s, Start(i, true))) && PreviousOk(Step(s, Start(i, true)))
  {
    var t := Step(s, Start(i, true));
    forall j | 0 <= j < |t.attempts| ensures WinnerOk(t, j) {
      assert WinnerOk(s, j);
      if j != i && s.attempts[j].previous.Some? && Succeeding(s.attempts[j].stage) {
        assert Childless(s, s.attempts[j].previous.value);
        assert s.attempts[j].previous != s.attempts[i].previous;
        assert Childless(t, s.attempts[j].previous.value);
      }
    }
  }

  lemma {:induction false} StartKeepsHolders(s: State, i: nat)
    requires Inv(s) && At(s, i, Ready)
    ensures Holders(Step(s, Start(i, true)))
  {
    var t := Step(s, Start(i, true));
    AbandonedIsVacant(s, i);
    forall j | 0 <= j < |t.attempts| && t.attempts[j].stage == Ready && t.attempts[j].previous.None?
      ensures Barren(t, t.attempts[j].home)
    {
      assert Barren(s, s.attempts[j].home);
      assert Launching(s.attempts[j]) && Launching(s.attempts[i]);
    }
  }

  lemma {:induction false} LaunchStepKeepsInv(s: State, a: Action)
    requires Inv(s) && (a.CreateMarker? || a.MakeTemporary? || a.Start?)
    ensures Inv(Step(s, a))
  {
    var i := a.attempt;
    if a.CreateMarker? && At(s, i, Identified) {
      if s.attempts[i].home in s.markers {
        MoveKeeps(s, i, Failed);
      } else if a.closes {
        CreateKeeps(s, i);
      } else {
        StrayKeeps(s, s.attempts[i].home);
        MoveKeeps(s.(markers := s.markers[s.attempts[i].home := Stray]), i, Failed);
      }
    } else if a.MakeTemporary? && At(s, i, Holding) {
      if !a.works || (s.attempts[i].previous.None? && s.attempts[i].home in s.used) {
        MoveKeeps(s, i, Failed);
        AbandonedIsVacant(s, i);
        UnmarkKeeps(Move(s, i, Failed), s.attempts[i].home);
      } else {
        TemporaryKeeps(s, i);
      }
    } else if a.Start? && At(s, i, Ready) {
      if a.works {
        StartKeepsFamilies(s, i);
        StartKeepsWinners(s, i);
        StartKeepsHolders(s, i);
      } else {
        MoveKeeps(s, i, Failed);
        AbandonedIsVacant(s, i);
        UnmarkKeeps(Move(s, i, Failed), s.attempts[i].home);
      }
    }
  }

  lemma {:induction false} RestartStepKeepsInv(s: State, a: Action)
    requires Inv(s) && (a.Check? || a.Swap? || a.Identify?)
    ensures Inv(Step(s, a))
  {
    var i := a.attempt;
    if a.Check? && At(s, i, Checking) && s.attempts[i].previous.Some? {
      MoveKeeps(s, i, Checked);
      MoveKeeps(s, i, Failed);
    } else if a.Swap? && At(s, i, Checked) && s.attempts[i].previous.Some? {
      if s.children[s.attempts[i].previous.value].restartUsed {
        MoveKeeps(s, i, Failed);
      } else {
        SwapKeeps(s, i);
      }
    } else if a.Identify? && At(s, i, Won) && s.attempts[i].previous.Some? {
      MoveKeeps(s, i, Failed);
      var c := s.children[s.attempts[i].previous.value];
      if c.phase == Done(true) && c.generation < MAX_GENERATIONS {
        IdentifyKeeps(s, i);
      }
    }
  }

  lemma {:induction false} ReleasedIsVacant(s: State, c: nat, phase: Phase)
    requires Inv(s) && c < |s.children| && Occupying(s.children[c]) && phase.Removed?
    ensures Vacant(Update(s, c, s.children[c].(phase := phase)), s.children[c].home)
  {
  }

  lemma {:induction false} ChildStepKeepsInv(s: State, a: Action)
    requires Inv(s) && (a.Admit? || a.Force? || a.Reap? || a.RemoveMarker? || a.CloseDone?)
    ensures Inv(Step(s, a))
  {
    var c := a.child;
    if c < |s.children| {
      var child := s.children[c];
      if a.Admit? {
        UpdateKeeps(s, c, child.(admitted := true));
      } else if a.Force? {
        UpdateKeeps(s, c, child.(forced := true));
      } else if a.Reap? && child.phase == Running {
        UpdateKeeps(s, c, child.(phase := Reaped(a.ok)));
      } else if a.RemoveMarker? && child.phase == Reaped(true) {
        var phase := Removed(a.removes && a.closes);
        UpdateKeeps(s, c, child.(phase := phase));
        ReleasedIsVacant(s, c, phase);
        if a.removes { UnmarkKeeps(Update(s, c, child.(phase := phase)), child.home); }
      } else if a.CloseDone? && (child.phase == Reaped(false) || child.phase.Removed?) {
        UpdateKeeps(s, c, child.(phase := Done(child.phase.ok)));
      }
    }
  }

  lemma {:induction false} StepKeepsInv(s: State, a: Action)
    requires Inv(s)
    ensures Inv(Step(s, a))
  {
    if a.BeginFirst? || a.BeginRestart? {
      BeginKeeps(s, a);
    } else if a.Check? || a.Swap? || a.Identify? {
      RestartStepKeepsInv(s, a);
    } else if a.CreateMarker? || a.MakeTemporary? || a.Start? {
      LaunchStepKeepsInv(s, a);
    } else {
      ChildStepKeepsInv(s, a);
    }
  }

  lemma {:induction false} RunKeepsInv(s: State, acts: seq<Action>)
    requires Inv(s)
    ensures Inv(Run(s, acts))
  {
    if acts != [] {
      RunKeepsInv(s, acts[..|acts| - 1]);
      StepKeepsInv(Run(s, acts[..|acts| - 1]), acts[|acts| - 1]);
    }
  }

  // ---------------------------------------------------------------- theorems

  lemma {:induction false} EveryRunKeepsInv(acts: seq<Action>)
    ensures Inv(Run(Opened(), acts))
  {
    RunKeepsInv(Opened(), acts);
  }

  /** A home never has two children that are running or whose marker is still theirs. */
  lemma {:induction false} OneOccupantPerHome(acts: seq<Action>, b: nat, c: nat)
    requires var s := Run(Opened(), acts);
             b < |s.children| && c < |s.children| && s.children[b].home == s.children[c].home
             && Occupying(s.children[b]) && Occupying(s.children[c])
    ensures b == c
  {
    EveryRunKeepsInv(acts);
  }

  /** A marker is only ever taken away by the launch or the child that put it there. */
  lemma {:induction false} OnlyTheCreatorRemoves(acts: seq<Action>, a: Action, home: nat)
    requires var s := Run(Opened(), acts); home in s.markers && home !in Step(s, a).markers
    ensures var owner := Run(Opened(), acts).markers[home];
            || (a.RemoveMarker? && owner == ByChild(a.child))
            || ((a.MakeTemporary? || a.Start?) && owner == ByAttempt(a.attempt))
  {
    EveryRunKeepsInv(acts);
    var s := Run(Opened(), acts);
    if a.RemoveMarker? && a.child < |s.children| {
      assert Occupying(s.children[a.child]) ==> s.markers[s.children[a.child].home] == ByChild(a.child);
    }
    if (a.MakeTemporary? || a.Start?) && a.attempt < |s.attempts| {
      assert Launching(s.attempts[a.attempt]) ==> s.markers[s.attempts[a.attempt].home] == ByAttempt(a.attempt);
    }
  }

  /** Every child has at most one successor, which is one generation on, in the same home, and its ancestor exited cleanly. */
  lemma {:induction false} OneSuccessor(acts: seq<Action>, b: nat, c: nat)
    requires var s := Run(Opened(), acts);
             b < |s.children| && c < |s.children| && s.children[b].parent.Some? && s.children[b].parent == s.children[c].parent
    ensures var s := Run(Opened(), acts);
            && b == c && s.children[b].parent.value < b
            && var p := s.children[s.children[b].parent.value];
               p.restartUsed && p.phase == Done(true) && p.home == s.children[b].home && p.generation + 1 == s.children[b].generation
  {
    EveryRunKeepsInv(acts);
    assert ParentOk(Run(Opened(), acts), b);
  }

  /** In one home there is at most one child of each generation. */
  lemma {:induction false} OnePerGeneration(s: State, b: nat, c: nat)
    requires Inv(s) && b < |s.children| && c < |s.children|
    requires s.children[b].home == s.children[c].home && s.children[b].generation == s.children[c].generation
    ensures b == c
    decreases b
  {
    assert ParentOk(s, b) && ParentOk(s, c);
    assert s.children[b].parent.Some? ==> ParentOk(s, s.children[b].parent.value);
    assert s.children[c].parent.Some? ==> ParentOk(s, s.children[c].parent.value);
    if s.children[b].parent.Some? && s.children[c].parent.Some? {
      OnePerGeneration(s, s.children[b].parent.value, s.children[c].parent.value);
    }
  }

  /** A home hosts at most one child per generation, over four generations, in every run. */
  lemma {:induction false} ChainIsBounded(acts: seq<Action>)
    ensures var s := Run(Opened(), acts);
            && (forall c | 0 <= c < |s.children| :: 1 <= s.children[c].generation <= MAX_GENERATIONS)
            && forall b, c | 0 <= b < |s.children| && 0 <= c < |s.children| && s.children[b].home == s.children[c].home
                             && s.children[b].generation == s.children[c].generation :: b == c
  {
    var s := Run(Opened(), acts);
    EveryRunKeepsInv(acts);
    forall c | 0 <= c < |s.children| ensures 1 <= s.children[c].generation <= MAX_GENERATIONS {
      assert ParentOk(s, c);
    }
    forall b, c | 0 <= b < |s.children| && 0 <= c < |s.children| && s.children[b].home == s.children[c].home
                  && s.children[b].generation == s.children[c].generation
      ensures b == c
    {
      OnePerGeneration(s, b, c);
    }
  }

  /** A child whose exit was not clean, from the moment its waiter knows. */
  predicate Spoiled(c: Child) {
    c.phase == Reaped(false) || c.phase == Removed(false) || c.phase == Done(false)
  }

  /** Below any child stands one of each earlier generation, each of which has a successor. */
  lemma {:induction false} Ancestor(s: State, c: nat, generation: nat) returns (y: nat, heir: nat)
    requires Inv(s) && c < |s.children| && 1 <= generation < s.children[c].generation
    ensures y < |s.children| && s.children[y].home == s.children[c].home && s.children[y].generation == generation
    ensures heir < |s.children| && s.children[heir].parent == Some(y)
    decreases c
  {
    assert ParentOk(s, c);
    var p := s.children[c].parent.value;
    if generation == s.children[p].generation {
      y, heir := p, c;
    } else {
      y, heir := Ancestor(s, p, generation);
    }
  }

  /** No launch can still succeed in a home where some child's exit was not clean. */
  lemma {:induction false} SpoiledHomeHasNoHeir(s: State, c: nat, i: nat)
    requires Inv(s) && c < |s.children| && Spoiled(s.children[c]) && At(s, i, Ready)
    ensures s.attempts[i].home != s.children[c].home
  {
    assert WinnerOk(s, i) && ParentOk(s, c);
    assert s.attempts[i].previous.None? ==> Barren(s, s.attempts[i].home);
    if s.attempts[i].home == s.children[c].home && s.attempts[i].previous.Some? {
      var p := s.attempts[i].previous.value;
      assert ParentOk(s, p) && Childless(s, p);
      if s.children[c].generation == s.children[p].generation {
        OnePerGeneration(s, c, p);
      } else if s.children[c].generation < s.children[p].generation {
        var y, heir := Ancestor(s, p, s.children[c].generation);
        assert ParentOk(s, heir);
        OnePerGeneration(s, y, c);
      } else {
        var y, heir := Ancestor(s, c, s.children[p].generation);
        OnePerGeneration(s, y, p);
      }
    }
  }

  /** From `s` to `t` the child stays where and as it was, and its home gets no further child. */
  ghost predicate Closed(s: State, t: State, c: nat) {
    && c < |s.children| <= |t.children| && Spoiled(t.children[c]) && t.children[c].home == s.children[c].home
    && (forall d | 0 <= d < |s.children| :: t.children[d].home == s.children[d].home)
    && forall d | |s.children| <= d < |t.children| :: t.children[d].home != s.children[c].home
  }

  lemma {:induction false} SpoiledStep(s: State, a: Action, c: nat)
    requires Inv(s) && c < |s.children| && Spoiled(s.children[c])
    ensures Closed(s, Step(s, a), c)
  {
    if a.Start? && At(s, a.attempt, Ready) {
      SpoiledHomeHasNoHeir(s, c, a.attempt);
    }
  }

  lemma {:induction false} ClosedStays(s: State, t: State, u: State, c: nat)
    requires Closed(s, t, c) && Closed(t, u, c)
    ensures Closed(s, u, c)
  {
  }

  lemma {:induction false} SpoiledRun(s: State, acts: seq<Action>, c: nat)
    requires Inv(s) && c < |s.children| && Spoiled(s.children[c])
    ensures Closed(s, Run(s, acts), c)
    decreases |acts|
  {
    if acts != [] {
      var front := acts[..|acts| - 1];
      SpoiledRun(s, front, c);
      RunKeepsInv(s, front);
      SpoiledStep(Run(s, front), acts[|acts| - 1], c);
      ClosedStays(s, Run(s, front), Run(s, acts), c);
    }
  }

  /** After an abnormal exit no run ever launches another child in that home, by restart or afresh. */
  lemma {:induction false} AbnormalExitEndsTheHome(before: seq<Action>, after: seq<Action>, c: nat)
    requires c < |Run(Opened(), before).children| && Spoiled(Run(Opened(), before).children[c])
    ensures Closed(Run(Opened(), before), Run(Run(Opened(), before), after), c)
  {
    EveryRunKeepsInv(before);
    SpoiledRun(Run(Opened(), before), after, c);
  }

  // -------------------------------------------------------- clean succession

  /** At some moment of the run the child had exited cleanly and unforced, with its restart already claimed. */
  ghost predicate WasClean(acts: seq<Action>, p: nat) {
    exists k | 0 <= k <= |acts| :: CleanAt(acts, k, p)
  }

  ghost predicate CleanAt(acts: seq<Action>, k: nat, p: nat)
    requires k <= |acts|
  {
    var s := Run(Opened(), acts[..k]);
    p < |s.children| && CleanExit(s.children[p]) && s.children[p].restartUsed
  }

  lemma {:induction false} WasCleanLater(acts: seq<Action>, a: Action, p: nat)
    requires WasClean(acts, p)
    ensures WasClean(acts + [a], p)
  {
    var k :| 0 <= k <= |acts| && CleanAt(acts, k, p);
    assert (acts + [a])[..k] == acts[..k];
    assert CleanAt(acts + [a], k, p);
  }

  predicate Past(stage: Stage) {
    stage == Identified || stage == Holding || stage == Ready
  }

  ghost predicate Provenance(acts: seq<Action>) {
    var s := Run(Opened(), acts);
    && (forall c | 0 <= c < |s.children| && s.children[c].parent.Some? :: WasClean(acts, s.children[c].parent.value))
    && (forall i | 0 <= i < |s.attempts| && s.attempts[i].previous.Some? && Past(s.attempts[i].stage) ::
          WasClean(acts, s.attempts[i].previous.value))
  }

  /** A step that brings an attempt past identification passes through a clean predecessor. */
  lemma {:induction false} StepProvenance(s: State, a: Action)
    ensures var t := Step(s, a);
            && (forall c | 0 <= c < |t.children| && t.children[c].parent.Some? ::
                  (c < |s.children| && s.children[c].parent == t.children[c].parent)
                  || (exists i | 0 <= i < |s.attempts| :: Past(s.attempts[i].stage) && s.attempts[i].previous == t.children[c].parent))
            && (forall i | 0 <= i < |t.attempts| && t.attempts[i].previous.Some? && Past(t.attempts[i].stage) ::
                  && i < |s.attempts| && s.attempts[i].previous == t.attempts[i].previous
                  && (Past(s.attempts[i].stage)
                      || (t.attempts[i].previous.value < |s.children|
                          && CleanExit(s.children[t.attempts[i].previous.value]) && s.children[t.attempts[i].previous.value].restartUsed)))
  {
    if a.Start? && At(s, a.attempt, Ready) {
      assert Past(s.attempts[a.attempt].stage);
    }
  }

  lemma {:induction false} EveryRunHasProvenance(acts: seq<Action>)
    ensures Provenance(acts)
  {
    if acts != [] {
      var front, a := acts[..|acts| - 1], acts[|acts| - 1];
      EveryRunHasProvenance(front);
      var s, t := Run(Opened(), front), Run(Opened(), acts);
      assert acts == front + [a];
      StepProvenance(s, a);
      forall i | 0 <= i < |t.attempts| && t.attempts[i].previous.Some? && Past(t.attempts[i].stage)
        ensures WasClean(acts, t.attempts[i].previous.value)
      {
        if !Past(s.attempts[i].stage) {
          assert front[..|front|] == front;
          assert CleanAt(front, |front|, t.attempts[i].previous.value);
        }
        WasCleanLater(front, a, t.attempts[i].previous.value);
      }
      forall c | 0 <= c < |t.children| && t.children[c].parent.Some?
        ensures WasClean(acts, t.children[c].parent.value)
      {
        WasCleanLater(front, a, t.children[c].parent.value);
      }
    }
  }

  /** A successor exists only if its predecessor, at some earlier moment, had exited cleanly, unforced, its restart claimed. */
  lemma {:induction false} SuccessorFollowsCleanExit(acts: seq<Action>, c: nat)
    requires var s := Run(Opened(), acts); c < |s.children| && s.children[c].parent.Some?
    ensures WasClean(acts, Run(Opened(), acts).children[c].parent.value)
  {
    EveryRunHasProvenance(acts);
  }

  /**
   * "Unforced" is about that moment only: a stop whose time ran out still marks the exited child, also after
   * its successor was launched.
   */
  lemma {:induction false} ForcedAfterSuccession(acts: seq<Action>, c: nat)
    requires var s := Run(Opened(), acts); c < |s.children| && s.children[c].parent.Some?
    ensures var p := Run(Opened(), acts).children[c].parent.value;
            var t := Run(Opened(), acts + [Force(p)]);
            p < |t.children| && t.children[p].forced && c < |t.children| && t.children[c].parent == Some(p)
  {
    EveryRunKeepsInv(acts);
    var s := Run(Opened(), acts);
    assert ParentOk(s, c);
    assert (acts + [Force(s.children[c].parent.value)])[..|acts|] == acts;
  }

  /** A child is marked forced exactly by a stop whose time ran out on it, at whatever moment, and the mark stays. */
  lemma {:induction false} ForcedExactly(s: State, more: seq<Action>, p: nat)
    requires p < |s.children|
    ensures p < |Run(s, more).children|
    ensures Run(s, more).children[p].forced <==> s.children[p].forced || Force(p) in more
  {
    if more != [] {
      var front, a := more[..|more| - 1], more[|more| - 1];
      ForcedExactly(s, front, p);
      assert more == front + [a];
      ForcedStep(Run(s, front), a, p);
    }
  }

  lemma {:induction false} ForcedStep(s: State, a: Action, p: nat)
    requires p < |s.children|
    ensures p < |Step(s, a).children| && (Step(s, a).children[p].forced <==> s.children[p].forced || a == Force(p))
  {
  }

  // ------------------------------------------------------ what is reached

  lemma {:induction false} RunConcat(s: State, a: seq<Action>, b: seq<Action>)
    ensures Run(s, a + b) == Run(Run(s, a), b)
  {
    if b == [] {
      assert a + b == a;
    } else {
      RunConcat(s, a, b[..|b| - 1]);
      assert (a + b)[..|a + b| - 1] == a + b[..|b| - 1];
    }
  }

  lemma {:induction false} RunFour(s: State, a: Action, b: Action, c: Action, d: Action)
    ensures Run(s, [a, b, c]) == Step(Step(Step(s, a), b), c)
    ensures Run(s, [a, b, c, d]) == Step(Run(s, [a, b, c]), d)
  {
    assert [a, b, c, d][..3] == [a, b, c] && [a, b, c][..2] == [a, b] && [a, b][..1] == [a] && [a][..0] == [];
    assert Run(s, []) == s && Run(s, [a]) == Step(s, a);
  }

  /** The steps of attempt `i` from an identified launch on, with every system call working. */
  function LaunchScript(i: nat): seq<Action> {
    [CreateMarker(i, true), MakeTemporary(i, true), Start(i, true)]
  }

  function ClaimScript(i: nat, p: nat): seq<Action> {
    [BeginRestart(p), Check(i, true), Swap(i), Identify(i, true)]
  }

  function RestartScript(i: nat, p: nat): seq<Action> {
    ClaimScript(i, p) + LaunchScript(i)
  }

  predicate MaySucceed(s: State, p: nat) {
    && p < |s.children| && CleanExit(s.children[p]) && !s.children[p].restartUsed
    && s.children[p].generation < MAX_GENERATIONS && s.children[p].home !in s.markers
  }

  function Claimed(s: State, p: nat): State
    requires p < |s.children|
  {
    Update(s, p, s.children[p].(restartUsed := true)).(attempts := s.attempts + [Attempt(Some(p), s.children[p].home, Identified)])
  }

  function Launched(s: State, i: nat): State
    requires i < |s.attempts|
  {
    var a := s.attempts[i];
    State(s.children + [NewChild(s, i)], s.attempts[i := a.(stage := Started)],
          s.markers[a.home := ByChild(|s.children|)], s.used + {a.home})
  }

  lemma {:induction false} LaunchRuns(s: State, i: nat)
    requires At(s, i, Identified) && s.attempts[i].home !in s.markers
    requires s.attempts[i].previous.None? ==> s.attempts[i].home !in s.used
    ensures Run(s, LaunchScript(i)) == Launched(s, i)
  {
    RunFour(s, CreateMarker(i, true), MakeTemporary(i, true), Start(i, true), Swap(i));
    var t := Run(s, LaunchScript(i));
    assert t.attempts == Launched(s, i).attempts;
    assert t.markers == Launched(s, i).markers;
  }

  /** An attempt that is not past identification launches nothing. */
  lemma {:induction false} Stuck(s: State, i: nat)
    requires i < |s.attempts| ==> !Past(s.attempts[i].stage)
    ensures Run(s, LaunchScript(i)) == s
  {
    RunFour(s, CreateMarker(i, true), MakeTemporary(i, true), Start(i, true), Swap(i));
  }

  /** The checks of a restart find what they look for. */
  lemma {:induction false} ClaimPasses(s: State, i: nat, p: nat)
    requires MaySucceed(s, p) && 1 <= s.children[p].generation
    requires i < |s.attempts| && s.attempts[i] == Attempt(Some(p), s.children[p].home, Checking)
    ensures Step(Step(Step(s, Check(i, true)), Swap(i)), Identify(i, true))
            == Move(Update(s, p, s.children[p].(restartUsed := true)), i, Identified)
  {
    var checked := Move(s, i, Checked);
    assert Step(s, Check(i, true)) == checked;
    var won := Move(Update(s, p, s.children[p].(restartUsed := true)), i, Won);
    assert Step(checked, Swap(i)).attempts == won.attempts;
    assert Step(won, Identify(i, true)).attempts == Move(won, i, Identified).attempts;
  }

  lemma {:induction false} ClaimRuns(s: State, p: nat)
    requires MaySucceed(s, p) && 1 <= s.children[p].generation
    ensures Run(s, ClaimScript(|s.attempts|, p)) == Claimed(s, p)
  {
    var i := |s.attempts|;
    RunFour(s, BeginRestart(p), Check(i, true), Swap(i), Identify(i, true));
    ClaimPasses(Step(s, BeginRestart(p)), i, p);
    assert Run(s, ClaimScript(i, p)).attempts == Claimed(s, p).attempts;
  }

  lemma {:induction false} ClaimFails(s: State, p: nat)
    requires !MaySucceed(s, p)
    ensures var t := Run(s, ClaimScript(|s.attempts|, p));
            |t.children| == |s.children| && (|s.attempts| < |t.attempts| ==> t.attempts[|s.attempts|].stage == Failed)
  {
    var i := |s.attempts|;
    RunFour(s, BeginRestart(p), Check(i, true), Swap(i), Identify(i, true));
  }

  /** A restart that nothing disturbs launches a successor exactly when its predecessor may have one. */
  lemma {:induction false} UndisturbedRestart(s: State, p: nat)
    requires Inv(s)
    ensures var i, t := |s.attempts|, Run(s, RestartScript(|s.attempts|, p));
            && (MaySucceed(s, p) <==> |t.children| == |s.children| + 1)
            && (!MaySucceed(s, p) <==> |t.children| == |s.children|)
            && (MaySucceed(s, p) ==> t == Launched(Claimed(s, p), i))
  {
    var i := |s.attempts|;
    RunConcat(s, ClaimScript(i, p), LaunchScript(i));
    if MaySucceed(s, p) {
      assert ParentOk(s, p);
      ClaimRuns(s, p);
      LaunchRuns(Claimed(s, p), i);
    } else {
      ClaimFails(s, p);
      Stuck(Run(s, ClaimScript(i, p)), i);
    }
  }

  /** A child that is admitted, exits by itself without error, and gives its marker back. */
  function CleanLife(c: nat): seq<Action> {
    [Admit(c), Reap(c, true), RemoveMarker(c, true, true), CloseDone(c)]
  }

  lemma {:induction false} LifeRuns(s: State, c: nat)
    requires c < |s.children| && s.children[c].phase == Running
    ensures Run(s, CleanLife(c))
            == Unmark(Update(s, c, s.children[c].(admitted := true, phase := Done(true))), s.children[c].home)
  {
    RunFour(s, Admit(c), Reap(c, true), RemoveMarker(c, true, true), CloseDone(c));
    assert Run(s, CleanLife(c)).children == s.children[c := s.children[c].(admitted := true, phase := Done(true))];
  }

  /** `n` generations of one home, each living cleanly and then restarted. */
  function Chain(home: nat, n: nat): seq<Action>
    requires n >= 1
  {
    if n == 1 then [BeginFirst(home)] + LaunchScript(0)
    else Chain(home, n - 1) + CleanLife(n - 2) + RestartScript(n - 1, n - 2)
  }

  predicate Newest(s: State, home: nat, n: nat)
    requires n >= 1
  {
    && |s.children| == n && |s.attempts| == n && s.markers.Keys == {home}
    && s.children[n - 1] == Child(home, if n == 1 then None else Some(n - 2), n, Running, false, false, false)
  }

  lemma {:induction false} NextGeneration(s: State, home: nat, n: nat)
    requires Inv(s) && 1 <= n < MAX_GENERATIONS && Newest(s, home, n)
    ensures Newest(Run(Run(s, CleanLife(n - 1)), RestartScript(n, n - 1)), home, n + 1)
  {
    LifeRuns(s, n - 1);
    var t := Run(s, CleanLife(n - 1));
    RunKeepsInv(s, CleanLife(n - 1));
    UndisturbedRestart(t, n - 1);
    assert NewChild(Claimed(t, n - 1), n) == Child(home, Some(n - 1), n + 1, Running, false, false, false);
  }

  /** The bound of four generations is reached: for each of them there is a run whose last child is that one. */
  lemma {:induction false} EveryGenerationIsReached(home: nat, n: nat)
    requires 1 <= n <= MAX_GENERATIONS
    ensures Newest(Run(Opened(), Chain(home, n)), home, n)
  {
    if n == 1 {
      RunConcat(Opened(), [BeginFirst(home)], LaunchScript(0));
      RunSnoc([], BeginFirst(home));
      assert [] + [BeginFirst(home)] == [BeginFirst(home)];
      LaunchRuns(Step(Opened(), BeginFirst(home)), 0);
    } else {
      var chain := Chain(home, n - 1);
      EveryGenerationIsReached(home, n - 1);
      RunConcat(Opened(), chain, CleanLife(n - 2));
      RunConcat(Opened(), chain + CleanLife(n - 2), RestartScript(n - 1, n - 2));
      EveryRunKeepsInv(chain);
      NextGeneration(Run(Opened(), chain), home, n - 1);
    }
  }

  // ------------------------------------------------------------- the program

  predicate Concerns(a: Action, i: nat) {
    (a.Check? || a.Swap? || a.Identify? || a.CreateMarker? || a.MakeTemporary? || a.Start?) && a.attempt == i
  }

  lemma {:induction false} OthersLeaveAttempt(s: State, a: Action, i: nat)
    requires i < |s.attempts| && !Concerns(a, i)
    ensures |s.attempts| <= |Step(s, a).attempts| && Step(s, a).attempts[i] == s.attempts[i]
    ensures |s.children| <= |Step(s, a).children|
  {
  }

  lemma {:induction false} OwnStepMovesAttempt(s: State, a: Action, i: nat)
    requires i < |s.attempts| && Concerns(a, i)
    ensures |s.attempts| == |Step(s, a).attempts|
    ensures Step(s, a).attempts[i] == s.attempts[i].(stage := Step(s, a).attempts[i].stage)
    ensures |s.children| <= |Step(s, a).children|
  {
  }

  lemma {:induction false} RunSnoc(acts: seq<Action>, a: Action)
    ensures Run(Opened(), acts + [a]) == Step(Run(Opened(), acts), a)
  {
    assert (acts + [a])[..|acts|] == acts;
  }

  lemma {:induction false} SoleSuccessor(acts: seq<Action>, c: nat)
    requires var s := Run(Opened(), acts); c < |s.children| && s.children[c].parent.Some?
    ensures var s := Run(Opened(), acts);
            s.children[c].parent.value < |s.children|
            && forall d | 0 <= d < |s.children| && s.children[d].parent == s.children[c].parent :: d == c
  {
    EveryRunKeepsInv(acts);
    assert ParentOk(Run(Opened(), acts), c);
  }

  /** All gateways of one owner; between any two of its own steps anything else may happen. */
  class Gateways {
    var state: State
    ghost var log: seq<Action>

    ghost predicate Valid()
      reads this
    {
      state == Run(Opened(), log)
    }

    constructor ()
      ensures Valid() && log == []
    {
      state, log := Opened(), [];
    }

    method Do(a: Action)
      requires Valid()
      modifies this
      ensures Valid() && state == Step(old(state), a) && log == old(log) + [a]
    {
      state := Step(state, a);
      log := log + [a];
      RunSnoc(old(log), a);
    }

    /** Other launches, waiters and stops take any number of steps. */
    method Interfere(i: nat)
      requires Valid() && i < |state.attempts|
      modifies this
      ensures Valid() && old(log) <= log
      ensures i < |state.attempts| && state.attempts[i] == old(state.attempts[i]) && |old(state.children)| <= |state.children|
    {
      var some: int := *;
      for n := 0 to if some < 0 then 0 else some
        invariant Valid() && old(log) <= log
        invariant i < |state.attempts| && state.attempts[i] == old(state.attempts[i])
        invariant |old(state.children)| <= |state.children|
      {
        var a: Action := *;
        if !Concerns(a, i) {
          OthersLeaveAttempt(state, a, i);
          Do(a);
        }
      }
    }

    /** From an identified launch to a running child; a marker it made does not outlive a failure unless it could not be closed. */
    method LaunchOwnedGatewayGeneration(i: nat) returns (child: Option<nat>)
      requires Valid() && At(state, i, Identified)
      modifies this
      ensures Valid() && old(log) <= log
      ensures i < |state.attempts| && state.attempts[i] == old(state.attempts[i]).(stage := if child.Some? then Started else Failed)
      ensures child.Some? ==>
                && child.value < |state.children| && state.children[child.value].phase == Running
                && state.children[child.value].parent == state.attempts[i].previous
                && state.attempts[i].home in state.markers && state.markers[state.attempts[i].home] == ByChild(child.value)
    {
      Interfere(i);
      var closes: bool := *;
      Do(CreateMarker(i, closes));
      if state.attempts[i].stage != Holding { return None; }
      Interfere(i);
      var makes: bool := *;
      Do(MakeTemporary(i, makes));
      if state.attempts[i].stage != Ready { return None; }
      Interfere(i);
      var next := |state.children|;
      var works: bool := *;
      EveryRunKeepsInv(log);
      Do(Start(i, works));
      if !works { return None; }
      return Some(next);
    }

    /** One step of attempt `i`, after anything else that may come before it. */
    method Next(i: nat, a: Action) returns (stage: Stage)
      requires Valid() && i < |state.attempts| && Concerns(a, i)
      modifies this
      ensures Valid() && old(log) <= log && |old(state.children)| <= |state.children|
      ensures i < |state.attempts| && state.attempts[i] == old(state.attempts[i]).(stage := stage)
    {
      Interfere(i);
      OwnStepMovesAttempt(state, a, i);
      Do(a);
      stage := state.attempts[i].stage;
    }

    method Begin(previous: nat) returns (i: nat)
      requires Valid() && previous < |state.children|
      modifies this
      ensures Valid() && old(log) <= log && state.children == old(state.children)
      ensures i < |state.attempts| && state.attempts[i].previous == Some(previous)
    {
      i := |state.attempts|;
      Do(BeginRestart(previous));
    }

    /** Checks the predecessor, wins the one-shot flag and re-examines the predecessor. */
    method ClaimSuccession(previous: nat) returns (i: nat, ok: bool)
      requires Valid() && previous < |state.children|
      modifies this
      ensures Valid() && old(log) <= log && |old(state.children)| <= |state.children|
      ensures ok ==> At(state, i, Identified) && state.attempts[i].previous == Some(previous)
    {
      i := Begin(previous);
      var ready: bool, same: bool := *, *;
      var stage := Next(i, Check(i, ready));
      if stage != Checked { return i, false; }
      stage := Next(i, Swap(i));
      if stage != Won { return i, false; }
      stage := Next(i, Identify(i, same));
      return i, stage == Identified;
    }

    /** A successor is launched at most once, and only past a moment at which its predecessor had exited cleanly. */
    method RestartOwnedGateway(previous: nat) returns (next: Option<nat>)
      requires Valid() && previous < |state.children|
      modifies this
      ensures Valid() && old(log) <= log
      ensures next.Some? ==>
                && next.value < |state.children| && state.children[next.value].parent == Some(previous)
                && WasClean(log, previous)
                && forall c | 0 <= c < |state.children| && state.children[c].parent == Some(previous) :: c == next.value
    {
      var i, ok := ClaimSuccession(previous);
      if !ok { return None; }
      next := LaunchOwnedGatewayGeneration(i);
      if next.Some? {
        SuccessorFollowsCleanExit(log, next.value);
        SoleSuccessor(log, next.value);
      }
    }
  }

  // ------------------------------------------------------------- bounded log

  /** The child's log file: at most `limit` bytes ever reach it, and a cut is remembered. */
  class BoundedGatewayLog {
    var file: seq<bv8>
    var remaining: nat
    var truncated: bool
    ghost const limit: nat

    ghost predicate Valid()
      reads this
    {
      |file| + remaining == limit
    }

    constructor ()
      ensures Valid() && limit == 1048576 && file == [] && !truncated
    {
      file, remaining, truncated := [], 1048576, false;
      limit := 1048576;
    }

    /** The file system takes some prefix of what it is given, and may report an error besides. */
    method Append(data: seq<bv8>) returns (written: nat, failed: bool)
      modifies `file
      ensures written <= |data| && file == old(file) + data[..written]
    {
      var some: int := *;
      written := if 0 <= some <= |data| then some else |data|;
      failed := *;
      file := file + data[..written];
    }

    /**
     * Success means the log holds the data up to its limit; it is whole unless marked as cut,
     * and the caller is told the full length either way.
     */
    method Write(data: seq<bv8>) returns (count: nat, ok: bool)
      requires Valid()
      modifies this
      ensures Valid() && |file| <= limit && old(file) <= file && file[|old(file)|..] <= data
      ensures truncated <==> old(truncated) || |data| > old(remaining)
      ensures ok ==> count == |data| && file == old(file) + data[..|file| - |old(file)|]
      ensures ok ==> |file| - |old(file)| == if |data| <= old(remaining) then |data| else old(remaining)
      ensures !ok ==> count == |file| - |old(file)|
    {
      var kept := data;
      if |data| > remaining {
        truncated := true;
        kept := data[..remaining];
      }
      var written, failed := Append(kept);
      remaining := remaining - written;
      assert file[|old(file)|..] == data[..written];
      if failed || written != |kept| { return written, false; }
      return |data|, true;
    }
  }
}
