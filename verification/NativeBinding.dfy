/** Tying observed model turns to trials: recomputed bindings, their selection, and repeated traces. */
module NativeBinding {
  import opened NativeModels
  import opened NativeTrace
  import opened Options
  import opened Text

  // -------------------------------------------------- bindings of a trial

  datatype Event = Event(kind: string, turn: int, generation: int, request: string, agent: string,
                         sessionKey: string, scopes: seq<TraceScope>)
  datatype Trial = Trial(id: string, caseDigest: string, agent: string, sessionKey: string, events: seq<Event>)
  datatype Key = Key(generation: int, scope: TraceScope)

  predicate GenerationInRange(g: int) { 0 <= g <= MAX_GENERATIONS }

  predicate IsInput(e: Event) { e.kind == "input" }

  /** A response that names trace scopes. */
  predicate Answers(e: Event) {
    e.kind != "input" && e.kind != "stream" && e.scopes != []
  }

  predicate ValidInput(e: Event) {
    ValidId(e.request) && e.turn >= 1 && GenerationInRange(e.generation)
  }

  predicate ValidScope(scope: TraceScope, workspace: string) {
    CompleteScope(scope) && ValidId(scope.turn) && (workspace == "" || scope.workspace == workspace)
  }

  /** The first `n` inputs are valid and name distinct requests. */
  predicate InputsValid(es: seq<Event>, n: nat)
    requires n <= |es|
  {
    && (forall i | 0 <= i < n && IsInput(es[i]) :: ValidInput(es[i]))
    && (forall i, j | 0 <= i < j < n && IsInput(es[i]) && IsInput(es[j]) :: es[i].request != es[j].request)
  }

  /** The response answers an input of the same turn and generation, over the trial's own route. */
  predicate ValidAnswer(trial: Trial, e: Event, workspace: string) {
    && (exists i | 0 <= i < |trial.events| ::
          IsInput(trial.events[i]) && trial.events[i].request == e.request
          && trial.events[i].turn == e.turn && trial.events[i].generation == e.generation)
    && e.agent == trial.agent && e.sessionKey != "" && e.sessionKey == trial.sessionKey
    && (forall k | 0 <= k < |e.scopes| :: ValidScope(e.scopes[k], workspace))
  }

  predicate WellBound(trial: Trial, workspace: string) {
    && InputsValid(trial.events, |trial.events|)
    && forall i | 0 <= i < |trial.events| && Answers(trial.events[i]) :: ValidAnswer(trial, trial.events[i], workspace)
  }

  predicate Mentions(e: Event, key: Key) {
    Answers(e) && e.generation == key.generation && key.scope in e.scopes
  }

  /** The requests answered under one scope of one generation. */
  function RequestsOf(es: seq<Event>, n: nat, key: Key): set<string>
    requires n <= |es|
  {
    if n == 0 then {}
    else RequestsOf(es, n - 1, key) + if Mentions(es[n - 1], key) then {es[n - 1].request} else {}
  }

  function BindingFor(trial: Trial, key: Key): Binding {
    Binding(key.generation, trial.id, trial.caseDigest, trial.agent, trial.sessionKey, key.scope,
            RequestsOf(trial.events, |trial.events|, key))
  }

  lemma {:induction false} RequestsMentioned(es: seq<Event>, n: nat, key: Key)
    requires n <= |es|
    ensures RequestsOf(es, n, key) != {} <==> exists i | 0 <= i < n :: Mentions(es[i], key)
  {
    if n > 0 {
      RequestsMentioned(es, n - 1, key);
      if Mentions(es[n - 1], key) {
        assert es[n - 1].request in RequestsOf(es, n, key);
      }
    }
  }

  function Get(scopes: map<Key, set<string>>, key: Key): set<string> {
    if key in scopes then scopes[key] else {}
  }

  datatype Identity = Identity(turn: int, generation: int)

  ghost predicate InputsKnown(es: seq<Event>, n: nat, inputs: map<string, Identity>)
    requires n <= |es|
  {
    && (forall i | 0 <= i < n && IsInput(es[i]) ::
          es[i].request in inputs && inputs[es[i].request] == Identity(es[i].turn, es[i].generation))
    && (forall r | r in inputs :: exists i | 0 <= i < n ::
          IsInput(es[i]) && es[i].request == r && inputs[r] == Identity(es[i].turn, es[i].generation))
  }

  lemma {:induction false} InputsSnoc(es: seq<Event>, i: nat, inputs: map<string, Identity>)
    requires i < |es| && InputsValid(es, i) && InputsKnown(es, i, inputs)
    ensures !IsInput(es[i]) ==> InputsValid(es, i + 1) && InputsKnown(es, i + 1, inputs)
    ensures IsInput(es[i]) && (!ValidInput(es[i]) || es[i].request in inputs) ==> !InputsValid(es, |es|)
  {
    if IsInput(es[i]) && es[i].request in inputs {
      var j :| 0 <= j < i && IsInput(es[j]) && es[j].request == es[i].request;
    }
  }

  lemma {:induction false} NewInput(es: seq<Event>, i: nat, inputs: map<string, Identity>)
    requires i < |es| && InputsValid(es, i) && InputsKnown(es, i, inputs)
    requires IsInput(es[i]) && ValidInput(es[i]) && es[i].request !in inputs
    ensures InputsValid(es, i + 1) && InputsKnown(es, i + 1, inputs[es[i].request := Identity(es[i].turn, es[i].generation)])
  {
    var more := inputs[es[i].request := Identity(es[i].turn, es[i].generation)];
    forall r | r in more
      ensures exists k | 0 <= k < i + 1 :: IsInput(es[k]) && es[k].request == r && more[r] == Identity(es[k].turn, es[k].generation)
    {
      if r == es[i].request {
        assert IsInput(es[i]);
      }
    }
  }

  method CollectInputs(es: seq<Event>) returns (ok: bool, inputs: map<string, Identity>)
    ensures ok <==> InputsValid(es, |es|)
    ensures ok ==> InputsKnown(es, |es|, inputs)
  {
    inputs := map[];
    for i := 0 to |es|
      invariant InputsValid(es, i) && InputsKnown(es, i, inputs)
    {
      var e := es[i];
      InputsSnoc(es, i, inputs);
      if IsInput(e) {
        if !ValidInput(e) || e.request in inputs { return false, inputs; }
        NewInput(es, i, inputs);
        inputs := inputs[e.request := Identity(e.turn, e.generation)];
      }
    }
    ok := true;
  }

  method CheckScopes(e: Event, workspace: string) returns (ok: bool)
    ensures ok <==> forall k | 0 <= k < |e.scopes| :: ValidScope(e.scopes[k], workspace)
  {
    for k := 0 to |e.scopes|
      invariant forall j | 0 <= j < k :: ValidScope(e.scopes[j], workspace)
    {
      if !ValidScope(e.scopes[k], workspace) { return false; }
    }
    ok := true;
  }

  method AddScopes(e: Event, scopes: map<Key, set<string>>) returns (more: map<Key, set<string>>)
    requires Answers(e) && forall key | key in scopes :: scopes[key] != {}
    ensures forall key | key in more :: more[key] != {}
    ensures forall key :: Get(more, key) == Get(scopes, key) + if Mentions(e, key) then {e.request} else {}
  {
    more := scopes;
    for k := 0 to |e.scopes|
      invariant forall key | key in more :: more[key] != {}
      invariant forall key :: Get(more, key) ==
                  Get(scopes, key) + if key.generation == e.generation && key.scope in e.scopes[..k] then {e.request} else {}
    {
      var key := Key(e.generation, e.scopes[k]);
      more := more[key := Get(more, key) + {e.request}];
      assert e.scopes[..k + 1] == e.scopes[..k] + [e.scopes[k]];
    }
    assert e.scopes[..|e.scopes|] == e.scopes;
  }

  method CheckAnswer(trial: Trial, e: Event, workspace: string, inputs: map<string, Identity>) returns (ok: bool)
    requires InputsKnown(trial.events, |trial.events|, inputs) && InputsValid(trial.events, |trial.events|)
    ensures ok <==> ValidAnswer(trial, e, workspace)
  {
    if e.turn < 1 || e.request !in inputs || inputs[e.request] != Identity(e.turn, e.generation) ||
       e.agent != trial.agent || e.sessionKey == "" || e.sessionKey != trial.sessionKey {
      return false;
    }
    ok := CheckScopes(e, workspace);
  }

  method CollectScopes(trial: Trial, workspace: string, inputs: map<string, Identity>)
    returns (ok: bool, scopes: map<Key, set<string>>)
    requires InputsKnown(trial.events, |trial.events|, inputs) && InputsValid(trial.events, |trial.events|)
    ensures ok <==> WellBound(trial, workspace)
    ensures ok ==> forall key | key in scopes :: scopes[key] != {}
    ensures ok ==> forall key :: Get(scopes, key) == RequestsOf(trial.events, |trial.events|, key)
  {
    scopes := map[];
    var es := trial.events;
    for i := 0 to |es|
      invariant forall j | 0 <= j < i && Answers(es[j]) :: ValidAnswer(trial, es[j], workspace)
      invariant forall key | key in scopes :: scopes[key] != {}
      invariant forall key :: Get(scopes, key) == RequestsOf(es, i, key)
    {
      var e := es[i];
      if e.kind == "input" || e.kind == "stream" || e.scopes == [] { continue; }
      var valid := CheckAnswer(trial, e, workspace, inputs);
      if !valid { return false, scopes; }
      scopes := AddScopes(e, scopes);
    }
    ok := true;
  }

  /** Exactly one binding for every scope of every generation that some response names, whatever the map's order. */
  ghost predicate BindsExactly(trial: Trial, bindings: seq<Binding>) {
    && (forall k | 0 <= k < |bindings| ::
          var key := Key(bindings[k].generation, bindings[k].scope);
          bindings[k] == BindingFor(trial, key) && bindings[k].requests != {})
    && (forall key | RequestsOf(trial.events, |trial.events|, key) != {} :: BindingFor(trial, key) in bindings)
    && (forall j, k | 0 <= j < k < |bindings| ::
          bindings[j].scope != bindings[k].scope || bindings[j].generation != bindings[k].generation)
  }

  /** What the collected scopes hold. */
  ghost predicate Gathered(trial: Trial, scopes: map<Key, set<string>>) {
    && (forall key | key in scopes :: scopes[key] != {})
    && (forall key :: Get(scopes, key) == RequestsOf(trial.events, |trial.events|, key))
  }

  /** The bindings made so far: one for each key that is no longer to do. */
  ghost predicate Made(trial: Trial, scopes: map<Key, set<string>>, todo: set<Key>, bindings: seq<Binding>) {
    && (forall k | 0 <= k < |bindings| :: KeyOf(bindings[k]) in scopes && KeyOf(bindings[k]) !in todo)
    && (forall k | 0 <= k < |bindings| :: bindings[k] == BindingFor(trial, KeyOf(bindings[k])))
    && (forall key | key in scopes && key !in todo :: BindingFor(trial, key) in bindings)
    && (forall j, k | 0 <= j < k < |bindings| :: KeyOf(bindings[j]) != KeyOf(bindings[k]))
  }

  function KeyOf(b: Binding): Key { Key(b.generation, b.scope) }

  lemma {:induction false} AllMade(trial: Trial, scopes: map<Key, set<string>>, bindings: seq<Binding>)
    requires Gathered(trial, scopes) && Made(trial, scopes, {}, bindings)
    ensures BindsExactly(trial, bindings)
  {
    forall k | 0 <= k < |bindings| ensures bindings[k].requests != {} {
      var key := KeyOf(bindings[k]);
      assert Get(scopes, key) == scopes[key];
    }
    forall key | RequestsOf(trial.events, |trial.events|, key) != {} ensures BindingFor(trial, key) in bindings {
      assert Get(scopes, key) != {};
    }
    forall j, k | 0 <= j < k < |bindings| ensures bindings[j].scope != bindings[k].scope || bindings[j].generation != bindings[k].generation {
      assert KeyOf(bindings[j]) != KeyOf(bindings[k]);
    }
  }

  lemma {:induction false} OneMoreMade(trial: Trial, scopes: map<Key, set<string>>, todo: set<Key>, bindings: seq<Binding>, key: Key)
    requires Made(trial, scopes, todo, bindings) && key in todo && key in scopes
    ensures Made(trial, scopes, todo - {key}, bindings + [BindingFor(trial, key)])
  {
    assert KeyOf(BindingFor(trial, key)) == key;
  }

  method BindKeys(trial: Trial, scopes: map<Key, set<string>>) returns (bindings: seq<Binding>)
    requires Gathered(trial, scopes)
    ensures BindsExactly(trial, bindings)
  {
    bindings := [];
    var todo := scopes.Keys;
    while todo != {}
      invariant todo <= scopes.Keys && Made(trial, scopes, todo, bindings)
      decreases |todo|
    {
      var key :| key in todo;
      OneMoreMade(trial, scopes, todo, bindings, key);
      assert Get(scopes, key) == RequestsOf(trial.events, |trial.events|, key);
      bindings := bindings + [Binding(key.generation, trial.id, trial.caseDigest, trial.agent, trial.sessionKey, key.scope, scopes[key])];
      todo := todo - {key};
    }
    AllMade(trial, scopes, bindings);
  }

  method NativeModelBindings(trial: Trial, workspace: string) returns (bindings: seq<Binding>, ok: bool)
    ensures ok <==> WellBound(trial, workspace)
    ensures ok ==> BindsExactly(trial, bindings)
  {
    bindings := [];
    var inputs, scopes;
    ok, inputs := CollectInputs(trial.events);
    if !ok { return; }
    ok, scopes := CollectScopes(trial, workspace, inputs);
    if !ok { return; }
    bindings := BindKeys(trial, scopes);
  }

  // ----------------------------------------------- bindings of many trials

  predicate Differ(a: Binding, b: Binding) {
    a.trial != b.trial || a.generation != b.generation || a.scope != b.scope
  }

  predicate DistinctTrials(trials: seq<Trial>) {
    forall i, j | 0 <= i < j < |trials| :: trials[i].id != trials[j].id
  }

  ghost predicate Recomputed(trials: seq<Trial>, b: Binding) {
    b.requests != {} && exists t | t in trials :: b == BindingFor(t, Key(b.generation, b.scope))
  }

  /** Exactly one binding for every scope of every generation that some response of some trial names. */
  ghost predicate BindsAll(trials: seq<Trial>, bindings: seq<Binding>) {
    && (forall k | 0 <= k < |bindings| :: Recomputed(trials, bindings[k]))
    && (forall t, key | t in trials && RequestsOf(t.events, |t.events|, key) != {} :: BindingFor(t, key) in bindings)
    && (forall j, k | 0 <= j < k < |bindings| :: Differ(bindings[j], bindings[k]))
  }

  lemma {:induction false} BindsOneMore(trials: seq<Trial>, bindings: seq<Binding>, trial: Trial, more: seq<Binding>)
    requires BindsAll(trials, bindings) && BindsExactly(trial, more) && forall t | t in trials :: t.id != trial.id
    ensures BindsAll(trials + [trial], bindings + more)
  {
    var all := bindings + more;
    forall k | 0 <= k < |all| ensures Recomputed(trials + [trial], all[k]) {
      if k < |bindings| {
        assert Recomputed(trials, bindings[k]);
      } else {
        assert all[k] == more[k - |bindings|] && trial in trials + [trial];
      }
    }
    forall j, k | 0 <= j < k < |all| ensures Differ(all[j], all[k]) {
      if j < |bindings| <= k {
        assert Recomputed(trials, bindings[j]) && all[k] == more[k - |bindings|];
      } else if |bindings| <= j {
        assert all[j] == more[j - |bindings|] && all[k] == more[k - |bindings|];
      }
    }
  }

  // ------------------------------------------------------------- selection

  function Chosen(turns: seq<Turn>, selected: set<string>): seq<Turn> {
    if turns == [] then []
    else Chosen(turns[..|turns| - 1], selected) +
         if turns[|turns| - 1].trial in selected then [turns[|turns| - 1]] else []
  }

  predicate Matches(turn: Turn, binding: Binding, digest: string) {
    turn.generation == binding.generation && turn.trial == binding.trial && turn.scope == binding.scope && turn.binding == digest
  }

  ghost predicate Linked(turns: seq<Turn>, bindings: seq<Binding>, hash: Binding -> string, i: int, j: int) {
    0 <= i < |turns| && 0 <= j < |bindings| && Matches(turns[i], bindings[j], hash(bindings[j]))
  }

  ghost predicate BindingMet(turns: seq<Turn>, bindings: seq<Binding>, hash: Binding -> string, j: int) {
    exists i :: Linked(turns, bindings, hash, i, j)
  }

  ghost predicate TurnMet(turns: seq<Turn>, bindings: seq<Binding>, hash: Binding -> string, i: int) {
    exists j :: Linked(turns, bindings, hash, i, j)
  }

  /** Every binding is matched by some turn, and there are as many of one as of the other. */
  ghost predicate Accepts(turns: seq<Turn>, bindings: seq<Binding>, hash: Binding -> string) {
    && |turns| == |bindings|
    && forall j | 0 <= j < |bindings| :: BindingMet(turns, bindings, hash, j)
  }

  /** Matching is a one-to-one correspondence. */
  ghost predicate OneToOne(turns: seq<Turn>, bindings: seq<Binding>, hash: Binding -> string) {
    && (forall j | 0 <= j < |bindings| :: BindingMet(turns, bindings, hash, j))
    && (forall i | 0 <= i < |turns| :: TurnMet(turns, bindings, hash, i))
    && (forall i, j, k | Linked(turns, bindings, hash, i, j) && Linked(turns, bindings, hash, i, k) :: j == k)
    && (forall i, j, k | Linked(turns, bindings, hash, i, j) && Linked(turns, bindings, hash, k, j) :: i == k)
  }

  ghost predicate DistinctDigests(bindings: seq<Binding>, hash: Binding -> string) {
    forall j, k | 0 <= j < k < |bindings| :: hash(bindings[j]) != hash(bindings[k])
  }

  lemma {:induction false} DistinctCount(s: seq<string>) returns (elements: set<string>)
    requires forall j, k | 0 <= j < k < |s| :: s[j] != s[k]
    ensures |elements| == |s| && forall x :: x in elements <==> x in s
  {
    if s == [] {
      elements := {};
    } else {
      var front := s[..|s| - 1];
      var rest := DistinctCount(front);
      assert forall x :: x in s <==> x in front || x == s[|s| - 1];
      elements := rest + {s[|s| - 1]};
    }
  }

  lemma {:induction false} SameSize(a: set<string>, b: set<string>)
    requires a <= b && |a| == |b|
    ensures a == b
  {
    if x :| x in b && x !in a {
      assert a <= b - {x};
      SubsetSize(a, b - {x});
    }
  }

  lemma {:induction false} SubsetSize(a: set<string>, b: set<string>)
    requires a <= b
    ensures |a| <= |b|
    decreases |a|
  {
    if a != {} {
      var x :| x in a;
      SubsetSize(a - {x}, b - {x});
    }
  }

  /** An accepted selection is a one-to-one correspondence exactly when no binding digest repeats. */
  lemma {:induction false} OneToOneIffDistinct(turns: seq<Turn>, bindings: seq<Binding>, hash: Binding -> string)
    requires Accepts(turns, bindings, hash) && DistinctTurns(turns)
    ensures OneToOne(turns, bindings, hash) <==> DistinctDigests(bindings, hash)
  {
    if OneToOne(turns, bindings, hash) {
      forall j, k | 0 <= j < k < |bindings| ensures hash(bindings[j]) != hash(bindings[k]) {
        assert BindingMet(turns, bindings, hash, j) && BindingMet(turns, bindings, hash, k);
        var i :| Linked(turns, bindings, hash, i, j);
        var m :| Linked(turns, bindings, hash, m, k);
        assert i == m ==> !Linked(turns, bindings, hash, i, k);
        assert i < m || m < i || i == m;
      }
    }
    if DistinctDigests(bindings, hash) {
      EveryTurnMatched(turns, bindings, hash);
      LinksAreUnique(turns, bindings, hash);
    }
  }

  lemma {:induction false} LinksAreUnique(turns: seq<Turn>, bindings: seq<Binding>, hash: Binding -> string)
    requires DistinctTurns(turns) && DistinctDigests(bindings, hash)
    ensures forall i, j, k | Linked(turns, bindings, hash, i, j) && Linked(turns, bindings, hash, i, k) :: j == k
    ensures forall i, j, k | Linked(turns, bindings, hash, i, j) && Linked(turns, bindings, hash, k, j) :: i == k
  {
    forall i, j, k | Linked(turns, bindings, hash, i, j) && Linked(turns, bindings, hash, i, k) ensures j == k {
      assert !(j < k) && !(k < j);
    }
    forall i, j, k | Linked(turns, bindings, hash, i, j) && Linked(turns, bindings, hash, k, j) ensures i == k {
      assert !(i < k) && !(k < i);
    }
  }

  lemma {:induction false} EveryTurnMatched(turns: seq<Turn>, bindings: seq<Binding>, hash: Binding -> string)
    requires Accepts(turns, bindings, hash) && DistinctTurns(turns) && DistinctDigests(bindings, hash)
    ensures forall i | 0 <= i < |turns| :: TurnMet(turns, bindings, hash, i)
  {
    var digests := seq(|bindings|, k requires 0 <= k < |bindings| => hash(bindings[k]));
    var stated := seq(|turns|, k requires 0 <= k < |turns| => turns[k].binding);
    var a := DistinctCount(digests);
    var b := DistinctCount(stated);
    forall x | x in a ensures x in b {
      var j :| 0 <= j < |bindings| && digests[j] == x;
      assert BindingMet(turns, bindings, hash, j);
      var i :| Linked(turns, bindings, hash, i, j);
      assert stated[i] == x;
    }
    SameSize(a, b);
    forall i | 0 <= i < |turns| ensures TurnMet(turns, bindings, hash, i) {
      assert stated[i] in a;
      var j :| 0 <= j < |bindings| && digests[j] == turns[i].binding;
      assert BindingMet(turns, bindings, hash, j);
      var m :| Linked(turns, bindings, hash, m, j);
      assert !(m < i) && !(i < m);
    }
  }

  /** A repeated binding hides an unmatched turn: both counts are two, yet one turn answers to nothing. */
  lemma {:induction false} RepeatedBindingIsAccepted(b: Binding, mine: Turn, other: Turn, hash: Binding -> string)
    requires Matches(mine, b, hash(b)) && other.binding != mine.binding
    ensures Accepts([mine, other], [b, b], hash) && !OneToOne([mine, other], [b, b], hash)
  {
    var turns, bindings := [mine, other], [b, b];
    assert Linked(turns, bindings, hash, 0, 0) && Linked(turns, bindings, hash, 0, 1);
    assert BindingMet(turns, bindings, hash, 0) && BindingMet(turns, bindings, hash, 1);
  }

  /** A digest that tells these bindings apart. */
  ghost predicate Discerning(hash: Binding -> string, bindings: seq<Binding>) {
    forall j, k | 0 <= j < |bindings| && 0 <= k < |bindings| && hash(bindings[j]) == hash(bindings[k]) :: bindings[j] == bindings[k]
  }

  /** Bindings recomputed from trials with distinct identities never repeat, and so neither do their digests. */
  lemma {:induction false} RecomputedBindingsAreDistinct(trials: seq<Trial>, bindings: seq<Binding>, hash: Binding -> string)
    requires BindsAll(trials, bindings) && Discerning(hash, bindings)
    ensures DistinctDigests(bindings, hash)
  {
    forall j, k | 0 <= j < k < |bindings| ensures hash(bindings[j]) != hash(bindings[k]) {
      assert Differ(bindings[j], bindings[k]);
    }
  }

  /** A one-to-one correspondence leaves nothing over on either side. */
  lemma {:induction false} OneToOneCounts(turns: seq<Turn>, bindings: seq<Binding>, hash: Binding -> string)
    requires OneToOne(turns, bindings, hash) && DistinctTurns(turns) && DistinctDigests(bindings, hash)
    ensures Accepts(turns, bindings, hash)
  {
    var digests := seq(|bindings|, k requires 0 <= k < |bindings| => hash(bindings[k]));
    var stated := seq(|turns|, k requires 0 <= k < |turns| => turns[k].binding);
    var a := DistinctCount(digests);
    var b := DistinctCount(stated);
    forall x | x in a ensures x in b {
      var j :| 0 <= j < |bindings| && digests[j] == x;
      assert BindingMet(turns, bindings, hash, j);
      var i :| Linked(turns, bindings, hash, i, j);
      assert stated[i] == x;
    }
    forall x | x in b ensures x in a {
      var i :| 0 <= i < |turns| && stated[i] == x;
      assert TurnMet(turns, bindings, hash, i);
      var j :| Linked(turns, bindings, hash, i, j);
      assert digests[j] == x;
    }
    assert a == b;
  }

  lemma {:induction false} ChosenFrom(turns: seq<Turn>, selected: set<string>)
    ensures forall t | t in Chosen(turns, selected) :: t in turns && t.trial in selected
    ensures forall t | t in turns && t.trial in selected :: t in Chosen(turns, selected)
    ensures |Chosen(turns, selected)| <= |turns|
  {
    if turns != [] {
      ChosenFrom(turns[..|turns| - 1], selected);
      assert forall t :: t in turns <==> t in turns[..|turns| - 1] || t == turns[|turns| - 1];
    }
  }

  lemma {:induction false} DistinctFront(front: seq<Turn>, last: Turn)
    requires DistinctTurns(front + [last])
    ensures DistinctTurns(front)
    ensures forall t | t in front :: Apart(t, last)
  {
    var turns := front + [last];
    forall i, j | 0 <= i < j < |front| ensures Apart(front[i], front[j]) {
      AtApart(turns, i, j);
    }
    forall t | t in front ensures Apart(t, last) {
      var k :| 0 <= k < |front| && front[k] == t;
      AtApart(turns, k, |front|);
    }
  }

  lemma {:induction false} AtApart(turns: seq<Turn>, i: nat, j: nat)
    requires i < j < |turns| && DistinctTurns(turns)
    ensures Apart(turns[i], turns[j])
  {
  }

  predicate Apart(s: Turn, t: Turn) {
    && s.binding != t.binding
    && (s.code == Observed && t.code == Observed ==>
          s.traceID != t.traceID && s.traceDigest != t.traceDigest && s.traceID != t.traceDigest && s.traceDigest != t.traceID)
  }

  lemma {:induction false} DistinctSnoc(turns: seq<Turn>, last: Turn)
    requires DistinctTurns(turns) && forall t | t in turns :: Apart(t, last)
    ensures DistinctTurns(turns + [last])
  {
    assert forall i | 0 <= i < |turns| :: Apart(turns[i], last);
  }

  lemma {:induction false} ChosenDistinct(turns: seq<Turn>, selected: set<string>)
    requires DistinctTurns(turns)
    ensures DistinctTurns(Chosen(turns, selected))
  {
    if turns != [] {
      var front, last := turns[..|turns| - 1], turns[|turns| - 1];
      assert turns == front + [last];
      DistinctFront(front, last);
      ChosenDistinct(front, selected);
      ChosenFrom(front, selected);
      DistinctSnoc(Chosen(front, selected), last);
    }
  }

  lemma {:induction false} ChosenCallsFewer(turns: seq<Turn>, selected: set<string>)
    ensures |CallsOf(Chosen(turns, selected))| <= |CallsOf(turns)|
  {
    if turns != [] {
      var front, last := turns[..|turns| - 1], turns[|turns| - 1];
      ChosenCallsFewer(front, selected);
      CallsAppend(Chosen(front, selected), [last]);
      assert CallsOf([last]) == last.calls;
      assert Chosen(front, selected) + [] == Chosen(front, selected);
    }
  }

  lemma {:induction false} RequestsCounted(calls: seq<Call>)
    ensures Count(calls).requests == |calls|
  {
    if calls != [] {
      RequestsCounted(calls[..|calls| - 1]);
    }
  }

  function Selection(o: Observation, chosen: seq<Turn>): Observation {
    o.(turns := chosen, code := if Partial(chosen) then PartlyObserved else FullyObserved, totals := Summary(chosen))
  }

  /** What is chosen from a valid record is valid again, unless nothing is chosen. */
  lemma {:induction false} SelectionIsValid(o: Observation, runtime: Runtime, selected: set<string>)
    requires ValidObservation(o, runtime) && o.code != NotAvailable && o.code != LeakObserved
    ensures ValidObservation(Selection(o, Chosen(o.turns, selected)), runtime) <==> Chosen(o.turns, selected) != []
  {
    ChosenFrom(o.turns, selected);
    ChosenDistinct(o.turns, selected);
    ChosenValid(o.turns, selected);
    TotalsFewer(o.turns, selected);
    SelectionFields(o, Chosen(o.turns, selected), runtime);
  }

  lemma {:induction false} SelectionFields(o: Observation, chosen: seq<Turn>, runtime: Runtime)
    requires o.scope == "routed_native_model_records_v1" && o.allCalls == "unknown" && o.reason == ""
    requires KnownSource(runtime) && o.source == Source(runtime.version, runtime.commit)
    requires AllTurnsValid(chosen) && DistinctTurns(chosen) && |chosen| <= MAX_TRACES
    requires Summary(chosen).requests <= MAX_CALLS
    ensures ValidObservation(Selection(o, chosen), runtime) <==> chosen != []
  {
  }

  lemma {:induction false} TotalsFewer(turns: seq<Turn>, selected: set<string>)
    ensures Summary(Chosen(turns, selected)).requests <= Summary(turns).requests
  {
    ChosenCallsFewer(turns, selected);
    RequestsCounted(CallsOf(turns));
    RequestsCounted(CallsOf(Chosen(turns, selected)));
  }

  lemma {:induction false} ChosenValid(turns: seq<Turn>, selected: set<string>)
    requires AllTurnsValid(turns)
    ensures AllTurnsValid(Chosen(turns, selected))
  {
    if turns != [] {
      ChosenValid(turns[..|turns| - 1], selected);
      assert ValidTurn(turns[|turns| - 1]);
    }
  }

  method Filter(turns: seq<Turn>, selected: set<string>) returns (chosen: seq<Turn>)
    ensures chosen == Chosen(turns, selected)
  {
    chosen := [];
    for i := 0 to |turns|
      invariant chosen == Chosen(turns[..i], selected)
    {
      assert turns[..i + 1][..i] == turns[..i];
      if turns[i].trial in selected { chosen := chosen + [turns[i]]; }
    }
    assert turns[..|turns|] == turns;
  }

  method CheckBindings(turns: seq<Turn>, bindings: seq<Binding>, hash: Binding -> string) returns (ok: bool)
    ensures ok <==> forall j | 0 <= j < |bindings| :: BindingMet(turns, bindings, hash, j)
  {
    for j := 0 to |bindings|
      invariant forall k | 0 <= k < j :: BindingMet(turns, bindings, hash, k)
    {
      var i := 0;
      while i < |turns| && !Matches(turns[i], bindings[j], hash(bindings[j]))
        invariant 0 <= i <= |turns|
        invariant forall k | 0 <= k < i :: !Linked(turns, bindings, hash, k, j)
      {
        i := i + 1;
      }
      if i == |turns| {
        assert !BindingMet(turns, bindings, hash, j);
        return false;
      }
      assert Linked(turns, bindings, hash, i, j);
    }
    ok := true;
  }

  method AnyUnobserved(turns: seq<Turn>) returns (partial: bool)
    ensures partial == Partial(turns)
  {
    for i := 0 to |turns|
      invariant forall k | 0 <= k < i :: turns[k].code == Observed
    {
      if turns[i].code != Observed { return true; }
    }
    partial := false;
  }

  /**
   * Accepts a valid record exactly when the turns of the selected trials, of which there is at least one,
   * match the recomputed bindings in number and each binding is matched; what is returned is again valid.
   */
  method SelectNativeModels(original: Option<Observation>, runtime: Runtime, bindings: seq<Binding>,
                            selected: set<string>, hash: Binding -> string)
    returns (result: Option<Observation>, ok: bool)
    ensures original.None? ==> ok && result.None?
    ensures original.Some? && !ValidObservation(original.value, runtime) ==> !ok
    ensures original.Some? && ValidObservation(original.value, runtime) ==>
              if original.value.code == NotAvailable || original.value.code == LeakObserved then
                ok && result == original
              else
                && (ok <==> Chosen(original.value.turns, selected) != [] && Accepts(Chosen(original.value.turns, selected), bindings, hash))
                && (ok ==> result == Some(Selection(original.value, Chosen(original.value.turns, selected))))
    ensures ok && result.Some? ==> ValidObservation(result.value, runtime)
  {
    if original.None? { return None, true; }
    var valid := Valid(original, runtime);
    if !valid { return None, false; }
    if original.value.code == NotAvailable || original.value.code == LeakObserved { return original, true; }
    var chosen := Filter(original.value.turns, selected);
    if |chosen| != |bindings| { return None, false; }
    var met := CheckBindings(chosen, bindings, hash);
    if !met { return None, false; }
    result, ok := Revalidate(original.value, runtime, chosen, selected);
  }

  function Identities(trials: seq<Trial>): set<string> {
    set t | t in trials :: t.id
  }

  predicate AllWellBound(trials: seq<Trial>, workspace: string) {
    forall i | 0 <= i < |trials| :: WellBound(trials[i], workspace)
  }

  /**
   * What comparing and grading do with a report: bindings are recomputed from every trial and matched together. With
   * a digest that tells them apart, the record is accepted exactly when trials are distinct and well bound and the
   * chosen turns, of which there is at least one, are in one-to-one correspondence with the bindings.
   */
  method SelectForTrials(original: Option<Observation>, runtime: Runtime, trials: seq<Trial>, workspace: string, hash: Binding -> string)
    returns (result: Option<Observation>, bindings: seq<Binding>, ok: bool)
    ensures ok ==> DistinctTrials(trials)
    ensures ok && original.Some? ==> AllWellBound(trials, workspace) && BindsAll(trials, bindings) && ValidObservation(original.value, runtime)
    ensures DistinctTrials(trials) && original.Some? && AllWellBound(trials, workspace) ==> BindsAll(trials, bindings)
    ensures original.Some? && ValidObservation(original.value, runtime)
            && original.value.code != NotAvailable && original.value.code != LeakObserved ==>
              var chosen := Chosen(original.value.turns, Identities(trials));
              && (ok ==> Accepts(chosen, bindings, hash) && result == Some(Selection(original.value, chosen)))
              && (Discerning(hash, bindings) ==>
                    (ok <==> DistinctTrials(trials) && AllWellBound(trials, workspace) && chosen != [] && OneToOne(chosen, bindings, hash)))
  {
    var seen: set<string> := {};
    bindings, result := [], None;
    for n := 0 to |trials|
      invariant DistinctTrials(trials[..n]) && seen == Identities(trials[..n])
      invariant original.Some? ==> AllWellBound(trials[..n], workspace) && BindsAll(trials[..n], bindings)
    {
      var trial := trials[n];
      assert trials[..n + 1] == trials[..n] + [trial];
      if trial.id in seen {
        assert !DistinctTrials(trials);
        return None, bindings, false;
      }
      if original.Some? {
        var more, valid := NativeModelBindings(trial, workspace);
        if !valid { return None, bindings, false; }
        BindsOneMore(trials[..n], bindings, trial, more);
        bindings := bindings + more;
      }
      seen := seen + {trial.id};
    }
    assert trials[..|trials|] == trials;
    result, ok := SelectNativeModels(original, runtime, bindings, seen, hash);
    if original.Some? && ValidObservation(original.value, runtime) && Discerning(hash, bindings) {
      OneToOneExactly(original.value, trials, bindings, hash);
    }
  }

  /** For recomputed bindings, matching each and counting is the same as corresponding one to one. */
  lemma {:induction false} OneToOneExactly(o: Observation, trials: seq<Trial>, bindings: seq<Binding>, hash: Binding -> string)
    requires DistinctTurns(o.turns) && BindsAll(trials, bindings) && Discerning(hash, bindings)
    ensures var chosen := Chosen(o.turns, Identities(trials));
            Accepts(chosen, bindings, hash) <==> OneToOne(chosen, bindings, hash)
  {
    var chosen := Chosen(o.turns, Identities(trials));
    ChosenDistinct(o.turns, Identities(trials));
    RecomputedBindingsAreDistinct(trials, bindings, hash);
    if Accepts(chosen, bindings, hash) { OneToOneIffDistinct(chosen, bindings, hash); }
    if OneToOne(chosen, bindings, hash) { OneToOneCounts(chosen, bindings, hash); }
  }

  method Revalidate(o: Observation, runtime: Runtime, chosen: seq<Turn>, ghost selected: set<string>)
    returns (result: Option<Observation>, ok: bool)
    requires ValidObservation(o, runtime) && o.code != NotAvailable && o.code != LeakObserved
    requires chosen == Chosen(o.turns, selected)
    ensures result == Some(Selection(o, chosen))
    ensures ok <==> chosen != []
    ensures ok ==> ValidObservation(result.value, runtime)
  {
    var partial := AnyUnobserved(chosen);
    var totals := SummarizeNativeModels(chosen);
    ChosenNonNegative(o, runtime, selected);
    result := Some(o.(turns := chosen, code := if partial then PartlyObserved else FullyObserved, totals := totals));
    SelectionIsValid(o, runtime, selected);
    ok := Valid(result, runtime);
  }

  lemma {:induction false} ChosenNonNegative(o: Observation, runtime: Runtime, selected: set<string>)
    requires ValidObservation(o, runtime) && o.code != NotAvailable && o.code != LeakObserved
    ensures NonNegative(CallsOf(Chosen(o.turns, selected)))
  {
    ChosenValid(o.turns, selected);
    ValidTurnsReportNonNegative(Chosen(o.turns, selected));
  }

  // ----------------------------------------------- collecting the record

  /** One trace the store offers for one binding. */
  datatype Visit = Visit(index: nat, trace: Trace, sha: string)

  function VisitCount(visits: seq<Visit>, n: nat, k: nat): nat
    requires n <= |visits|
  {
    if n == 0 then 0 else VisitCount(visits, n - 1, k) + if visits[n - 1].index == k then 1 else 0
  }

  /** The turn of binding `k` after the first `n` visits: missing, the projection of its only trace, or ambiguous. */
  ghost predicate Collected(turn: Turn, binding: Binding, digest: string, session: string, visits: seq<Visit>, n: nat, k: nat)
    requires n <= |visits|
  {
    var count := VisitCount(visits, n, k);
    if count == 0 then turn == Unobserved(binding, digest, MissingTrace)
    else if count > 1 then turn == Unobserved(binding, digest, AmbiguousTrace)
    else exists v | 0 <= v < n :: visits[v].index == k && FromTrace(turn, visits[v], binding, digest, session)
  }

  ghost predicate FromTrace(turn: Turn, visit: Visit, binding: Binding, digest: string, session: string) {
    if Conforms(visit.trace, binding, session) then
      Projects(turn, visit.trace, binding, digest, visit.sha, session) && ValidCalls(turn.calls, turn.retryRecords)
    else turn == Unobserved(binding, digest, InvalidTrace)
  }

  ghost predicate CollectedAll(turns: seq<Turn>, bindings: seq<Binding>, hash: Binding -> string,
                               session: string -> string, visits: seq<Visit>, n: nat)
    requires n <= |visits|
  {
    |turns| == |bindings| && forall k | 0 <= k < |bindings| ::
      Collected(turns[k], bindings[k], hash(bindings[k]), session(bindings[k].sessionKey), visits, n, k)
  }

  lemma {:induction false} CollectedNext(turns: seq<Turn>, next: Turn, bindings: seq<Binding>, hash: Binding -> string,
                                         session: string -> string, visits: seq<Visit>, n: nat)
    requires n < |visits| && CollectedAll(turns, bindings, hash, session, visits, n) && visits[n].index < |bindings|
    requires var k := visits[n].index;
             Collected(next, bindings[k], hash(bindings[k]), session(bindings[k].sessionKey), visits, n + 1, k)
    ensures CollectedAll(turns[visits[n].index := next], bindings, hash, session, visits, n + 1)
  {
    forall k | 0 <= k < |bindings| && k != visits[n].index
      ensures Collected(turns[k], bindings[k], hash(bindings[k]), session(bindings[k].sessionKey), visits, n + 1, k)
    {
      Unvisited(turns[k], bindings[k], hash(bindings[k]), session(bindings[k].sessionKey), visits, n, k);
    }
  }

  method CollectTurns(bindings: seq<Binding>, hash: Binding -> string, session: string -> string, visits: seq<Visit>)
    returns (turns: seq<Turn>)
    requires forall v | 0 <= v < |visits| :: visits[v].index < |bindings|
    ensures CollectedAll(turns, bindings, hash, session, visits, |visits|)
  {
    turns := seq(|bindings|, k requires 0 <= k < |bindings| => Unobserved(bindings[k], hash(bindings[k]), MissingTrace));
    for n := 0 to |visits|
      invariant CollectedAll(turns, bindings, hash, session, visits, n)
    {
      var index, binding := visits[n].index, bindings[visits[n].index];
      var next := VisitOne(turns[index], binding, hash(binding), session(binding.sessionKey), visits, n);
      CollectedNext(turns, next, bindings, hash, session, visits, n);
      turns := turns[index := next];
    }
  }

  lemma {:induction false} Unvisited(turn: Turn, binding: Binding, digest: string, session: string, visits: seq<Visit>, n: nat, k: nat)
    requires n < |visits| && visits[n].index != k && Collected(turn, binding, digest, session, visits, n, k)
    ensures Collected(turn, binding, digest, session, visits, n + 1, k)
  {
  }

  method VisitOne(turn: Turn, binding: Binding, digest: string, session: string, visits: seq<Visit>, n: nat) returns (next: Turn)
    requires n < |visits| && Collected(turn, binding, digest, session, visits, n, visits[n].index)
    ensures Collected(next, binding, digest, session, visits, n + 1, visits[n].index)
  {
    if turn.code != MissingTrace {
      return Unobserved(binding, digest, AmbiguousTrace);
    }
    next := ProjectNativeModelTrace(visits[n].trace, binding, digest, visits[n].sha, session);
    assert FromTrace(next, visits[n], binding, digest, session);
  }

  function NothingToShow(reason: string): Observation {
    Observation("routed_native_model_records_v1", if reason == "raw_private_evidence" then LeakObserved else NotAvailable,
                reason, "unknown", Source("", ""), [], Totals(Unknown, 0, 0, 0, 0, 0))
  }

  /** Whatever the store offered, the record that leaves here is one the validator accepts. */
  method ObserveNativeModels(runtime: Runtime, bindings: seq<Binding>, hash: Binding -> string, session: string -> string,
                             visits: seq<Visit>, reason: string)
    returns (o: Observation)
    requires forall v | 0 <= v < |visits| :: visits[v].index < |bindings|
    requires reason == "" || reason in Reasons()
    ensures ValidObservation(o, runtime)
    ensures o.code == FullyObserved || o.code == PartlyObserved ==>
              reason == "" && CollectedAll(o.turns, bindings, hash, session, visits, |visits|)
  {
    NothingIsValid(runtime);
    if |bindings| > MAX_TRACES { return NothingToShow("scope_limit"); }
    var turns := CollectTurns(bindings, hash, session, visits);
    if reason != "" { return NothingToShow(reason); }
    var partial := AnyUnobserved(turns);
    var totals := SummarizeNativeModels(turns);
    o := Observation("routed_native_model_records_v1", if partial then PartlyObserved else FullyObserved, "", "unknown",
                     Source(runtime.version, runtime.commit), turns, totals);
    var valid := Valid(Some(o), runtime);
    if !valid { o := NothingToShow("native_evidence_unavailable"); }
  }

  lemma {:induction false} NothingIsValid(runtime: Runtime)
    ensures forall reason | reason in Reasons() :: ValidObservation(NothingToShow(reason), runtime)
  {
    assert CallsOf([]) == [];
  }
}