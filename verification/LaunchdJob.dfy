/** Reading one job listing: a line scanner that counts braces and takes the job's own path and state. */
module LaunchdJob {
  import opened Options
  import opened Text
  import opened UnitText

  datatype Job = Job(path: string, state: string)

  // ------------------------------------------------------------- one line

  predicate SeparatorAt(s: string, k: nat) {
    k + 3 <= |s| && s[k] == ' ' && s[k + 1] == '=' && s[k + 2] == ' '
  }

  /** The text before and after the first " = ", from position `k` on. */
  function Cut(s: string, k: nat): Option<(string, string)>
    decreases |s| - k
  {
    if |s| < k + 3 then None
    else if SeparatorAt(s, k) then Some((s[..k], s[k + 3..]))
    else Cut(s, k + 1)
  }

  lemma {:induction false} CutsAtFirst(s: string, k: nat)
    ensures Cut(s, k).Some? ==> exists i :: k <= i && SeparatorAt(s, i) && Cut(s, k).value == (s[..i], s[i + 3..])
                                            && forall j | k <= j < i :: !SeparatorAt(s, j)
    ensures Cut(s, k).None? ==> forall i | k <= i :: !SeparatorAt(s, i)
    decreases |s| - k
  {
    if |s| >= k + 3 && !SeparatorAt(s, k) {
      CutsAtFirst(s, k + 1);
    }
  }

  /** The keys that matter, and any other. */
  datatype Key = Path | State | OtherKey

  function KeyOf(text: string): Key {
    if text == "path" then Path else if text == "state" then State else OtherKey
  }

  /** What the scanner sees of a line: whether it closes a block or opens one, and the key and value it may give. */
  datatype Line = Line(closes: bool, opens: bool, field: Option<(Key, string)>)

  predicate OpensText(s: string) {
    |s| >= 4 && s[|s| - 4..] == " = {"
  }

  function Look(raw: string): Line {
    var trimmed := Trim(raw);
    if trimmed == "}" then Line(true, false, None)
    else
      var field := Cut(trimmed, 0);
      Line(false, OpensText(trimmed), if field.Some? then Some((KeyOf(field.value.0), Trim(field.value.1))) else None)
  }

  // ---------------------------------------------------------- all lines

  /** Brace depth before line `i`; the header before line 0 opens the first block. */
  function Depth(lines: seq<Line>, i: nat): int
    requires i <= |lines|
  {
    if i == 0 then 1
    else Depth(lines, i - 1) + if lines[i - 1].closes then -1 else if lines[i - 1].opens then 1 else 0
  }

  function ValueAt(lines: seq<Line>, i: nat, key: Key): seq<string>
    requires i < |lines|
  {
    var line := lines[i];
    if Depth(lines, i) == 1 && !line.closes && line.field.Some? && line.field.value.0 == key then [line.field.value.1] else []
  }

  /** The values given to `key` directly inside a first-level block, in order. */
  function Values(lines: seq<Line>, n: nat, key: Key): seq<string>
    requires n <= |lines|
  {
    if n == 0 then [] else Values(lines, n - 1, key) + ValueAt(lines, n - 1, key)
  }

  /** The braces match, never closing more than was opened. */
  predicate Balanced(lines: seq<Line>) {
    (forall i | 0 <= i <= |lines| :: Depth(lines, i) >= 0) && Depth(lines, |lines|) == 0
  }

  /** One path and one state of the job's own, neither empty. */
  predicate Describes(lines: seq<Line>, job: Job) {
    && Balanced(lines)
    && Values(lines, |lines|, Path) == [job.path] && job.path != ""
    && Values(lines, |lines|, State) == [job.state] && job.state != ""
  }

  predicate Header(line: string, target: string, service: string) {
    Trim(line) == service + " = {" || Trim(line) == target + " = {"
  }

  function Body(output: seq<string>): seq<Line>
    requires |output| >= 1
  {
    seq(|output| - 1, i requires 0 <= i < |output| - 1 => Look(output[i + 1]))
  }

  lemma {:induction false} ValuesGrow(lines: seq<Line>, i: nat, n: nat, key: Key)
    requires i <= n <= |lines|
    ensures |Values(lines, i, key)| <= |Values(lines, n, key)|
    decreases n - i
  {
    if i < n {
      ValuesGrow(lines, i, n - 1, key);
    }
  }

  /** Where a value stands, so far. */
  ghost predicate Holding(value: Option<string>, values: seq<string>) {
    if value.None? then values == [] else values == [value.value]
  }

  /** Takes the value of a key line at depth one; a second value for a key is refused. */
  method Take(lines: seq<Line>, i: nat, key: Key, depth: int, had: Option<string>) returns (ok: bool, has: Option<string>)
    requires i < |lines| && depth == Depth(lines, i) && Holding(had, Values(lines, i, key))
    ensures !ok ==> |Values(lines, |lines|, key)| > 1
    ensures ok ==> Holding(has, Values(lines, i + 1, key))
  {
    ok, has := true, had;
    var line := lines[i];
    if line.closes || depth != 1 || line.field.None? || line.field.value.0 != key { return; }
    if had.Some? {
      ValuesGrow(lines, i + 1, |lines|, key);
      return false, had;
    }
    has := Some(line.field.value.1);
  }

  method Scan(lines: seq<Line>) returns (ok: bool, path: Option<string>, state: Option<string>)
    ensures ok <==> Balanced(lines) && |Values(lines, |lines|, Path)| <= 1 && |Values(lines, |lines|, State)| <= 1
    ensures ok ==> Holding(path, Values(lines, |lines|, Path)) && Holding(state, Values(lines, |lines|, State))
  {
    path, state := None, None;
    var depth := 1;
    for i := 0 to |lines|
      invariant depth == Depth(lines, i) && forall j | 0 <= j <= i :: Depth(lines, j) >= 0
      invariant Holding(path, Values(lines, i, Path)) && Holding(state, Values(lines, i, State))
    {
      ok, path := Take(lines, i, Path, depth, path);
      if !ok { return; }
      ok, state := Take(lines, i, State, depth, state);
      if !ok { return; }
      if lines[i].closes {
        depth := depth - 1;
      } else if lines[i].opens {
        depth := depth + 1;
      }
      assert depth == Depth(lines, i + 1);
      if depth < 0 { return false, path, state; }
    }
    ok := depth == 0;
  }

  /** The listing has the right header and describes this job below it. */
  predicate Lists(text: string, target: string, service: string, job: Job) {
    var lines := SplitLines(text);
    lines != [] && Header(lines[0], target, service) && Describes(Body(lines), job)
  }

  lemma {:induction false} ListsOneJob(text: string, target: string, service: string, j: Job, k: Job)
    requires Lists(text, target, service, j) && Lists(text, target, service, k)
    ensures j == k
  {
    var lines := Body(SplitLines(text));
    assert [j.path] == Values(lines, |lines|, Path) == [k.path];
    assert [j.state] == Values(lines, |lines|, State) == [k.state];
  }

  method ParseLaunchdJob(text: string, target: string, service: string) returns (job: Option<Job>)
    ensures match job
            case Some(j) => Lists(text, target, service, j)
            case None => forall j :: !Lists(text, target, service, j)
  {
    var lines := SplitLines(text);
    if |lines| == 0 || !Header(lines[0], target, service) { return None; }
    var ok, path, state := Scan(Body(lines));
    if !ok || path.None? || path.value == "" || state.None? || state.value == "" { return None; }
    job := Some(Job(path.value, state.value));
  }

  // ------------------------------------------------- the job's own block

  /** Where the block that the header opens is closed: the first return to depth zero from line `i` on. */
  function OwnEnd(lines: seq<Line>, i: nat): (n: nat)
    requires i <= |lines|
    ensures i <= n <= |lines|
    ensures forall j | i <= j < n :: Depth(lines, j) != 0
    ensures n < |lines| ==> Depth(lines, n) == 0
    decreases |lines| - i
  {
    if i == |lines| || Depth(lines, i) == 0 then i else OwnEnd(lines, i + 1)
  }

  /** Line `i` gives the path or the state. */
  predicate Gives(lines: seq<Line>, i: nat)
    requires i < |lines|
  {
    ValueAt(lines, i, Path) != [] || ValueAt(lines, i, State) != []
  }

  /** A line opens another first-level block, and path or state stands somewhere after it. */
  ghost predicate Reopened(lines: seq<Line>) {
    exists i, k | 0 <= i < k < |lines| :: Depth(lines, i) == 0 && !lines[i].closes && lines[i].opens && Gives(lines, k)
  }

  lemma {:induction false} PrefixDepth(lines: seq<Line>, n: nat, i: nat)
    requires i <= n <= |lines|
    ensures Depth(lines[..n], i) == Depth(lines, i)
    ensures forall key :: Values(lines[..n], i, key) == Values(lines, i, key)
  {
    if i > 0 { PrefixDepth(lines, n, i - 1); }
  }

  /** Between depth zero and a line one deep, some line opens a block at depth zero. */
  lemma {:induction false} OpenedBefore(lines: seq<Line>, n: nat, k: nat) returns (i: nat)
    requires n <= k < |lines| && Depth(lines, n) == 0 && Depth(lines, k) >= 1
    ensures n <= i < k && Depth(lines, i) == 0 && !lines[i].closes && lines[i].opens
    decreases k
  {
    if Depth(lines, k - 1) >= 1 {
      i := OpenedBefore(lines, n, k - 1);
    } else {
      i := k - 1;
    }
  }

  lemma {:induction false} NothingGiven(lines: seq<Line>, n: nat, m: nat, key: Key)
    requires n <= m <= |lines|
    ensures Values(lines, n, key) == Values(lines, m, key) <==> forall k | n <= k < m :: ValueAt(lines, k, key) == []
    ensures |Values(lines, n, key)| <= |Values(lines, m, key)|
    decreases m - n
  {
    if n < m {
      NothingGiven(lines, n, m - 1, key);
      if Values(lines, n, key) == Values(lines, m, key) {
        assert |Values(lines, m, key)| == |Values(lines, m - 1, key)| + |ValueAt(lines, m - 1, key)|;
        assert |Values(lines, m - 1, key)| == |Values(lines, n, key)|;
        assert Values(lines, m, key)[..|Values(lines, m - 1, key)|] == Values(lines, m - 1, key);
      }
    }
  }

  lemma {:induction false} OwnBlockBalanced(lines: seq<Line>)
    requires Balanced(lines)
    ensures Balanced(lines[..OwnEnd(lines, 0)])
  {
    var n := OwnEnd(lines, 0);
    forall i | 0 <= i <= n ensures Depth(lines[..n], i) == Depth(lines, i) { PrefixDepth(lines, n, i); }
  }

  /** Nothing is given after the own block exactly when no block opened after it gives anything. */
  lemma {:induction false} ReopenedGives(lines: seq<Line>)
    requires Balanced(lines)
    ensures Reopened(lines) <==> exists k | OwnEnd(lines, 0) <= k < |lines| :: Gives(lines, k)
  {
    var n := OwnEnd(lines, 0);
    if k :| n <= k < |lines| && Gives(lines, k) {
      var i := OpenedBefore(lines, n, k);
      assert Reopened(lines);
    }
  }

  /**
   * An accepted listing says of the job what the job's own block says, exactly when no other first-level block opens
   * before path and state have both been given.
   */
  lemma {:induction false} OwnBlockDecides(lines: seq<Line>, job: Job)
    requires Describes(lines, job)
    ensures Describes(lines[..OwnEnd(lines, 0)], job) <==> !Reopened(lines)
  {
    var n := OwnEnd(lines, 0);
    OwnBlockBalanced(lines);
    ReopenedGives(lines);
    PrefixDepth(lines, n, n);
    NothingGiven(lines, n, |lines|, Path);
    NothingGiven(lines, n, |lines|, State);
    if !Reopened(lines) {
      forall k | n <= k < |lines| ensures ValueAt(lines, k, Path) == [] && ValueAt(lines, k, State) == [] {
        assert !Gives(lines, k);
      }
    }
  }

  // ------------------------------------------------------- a listing that does

  /** A line's text that trimming leaves alone and that opens no block. */
  predicate Plain(s: string) {
    s != "" && SingleLine(s) && !IsSpace(s[0]) && !IsSpace(s[|s| - 1]) && s[|s| - 1] != '{'
  }

  function Join(lines: seq<string>): string
    requires lines != []
  {
    if |lines| == 1 then lines[0] else lines[0] + "\n" + Join(lines[1..])
  }

  lemma {:induction false} SplitsJoined(lines: seq<string>)
    requires lines != [] && forall i | 0 <= i < |lines| :: SingleLine(lines[i])
    ensures SplitLines(Join(lines)) == lines
  {
    if |lines| == 1 {
      assert IndexOfNewline(lines[0]) == |lines[0]|;
    } else {
      SplitsJoined(lines[1..]);
      SplitStep(lines[0], Join(lines[1..]));
    }
  }

  function StrayLines(service: string, path: string, other: string, state: string): seq<string> {
    [service + " = {", "path" + " = " + path, "}", other + " = {", "state" + " = " + state, "}"]
  }

  lemma {:induction false} LookAtField(key: string, value: string)
    requires Plain(value) && (key == "path" || key == "state")
    ensures Look(key + " = " + value) == Line(false, false, Some((KeyOf(key), value)))
  {
    var s := key + " = " + value;
    TrimKeeps(s);
    TrimKeeps(value);
    assert |s| >= 4 && s[|s| - 1] == value[|value| - 1];
    assert SeparatorAt(s, |key|) && s[..|key|] == key && s[|key| + 3..] == value;
    CutAt(s, 0, |key|);
  }

  lemma {:induction false} CutAt(s: string, k: nat, i: nat)
    requires k <= i && SeparatorAt(s, i) && forall j | k <= j < i :: !SeparatorAt(s, j)
    ensures Cut(s, k) == Some((s[..i], s[i + 3..]))
    decreases i - k
  {
    if k < i { CutAt(s, k + 1, i); }
  }

  lemma {:induction false} LookAtOpening(name: string)
    requires Plain(name)
    ensures var line := Look(name + " = {"); !line.closes && line.opens
    ensures Trim(name + " = {") == name + " = {"
  {
    var s := name + " = {";
    TrimKeeps(s);
    assert s[|s| - 4..] == " = {";
  }

  /**
   * A listing in which the state stands in another block is accepted, although the job's own block alone does not
   * describe the job: a path there and a state elsewhere make one job.
   */
  lemma {:induction false} LaterBlockCounts(target: string, service: string, path: string, other: string, state: string)
    requires Plain(service) && Plain(path) && Plain(other) && Plain(state)
    ensures Lists(Join(StrayLines(service, path, other, state)), target, service, Job(path, state))
    ensures Reopened(Body(SplitLines(Join(StrayLines(service, path, other, state)))))
  {
    SplitsJoined(StrayLines(service, path, other, state));
    StrayBody(service, path, other, state);
  }

  lemma {:induction false} StrayBody(service: string, path: string, other: string, state: string)
    requires Plain(service) && Plain(path) && Plain(other) && Plain(state)
    ensures var texts := StrayLines(service, path, other, state);
            Describes(Body(texts), Job(path, state)) && Reopened(Body(texts)) && Trim(texts[0]) == service + " = {"
  {
    var texts := StrayLines(service, path, other, state);
    var lines := Body(texts);
    LookAtOpening(service);
    LookAtOpening(other);
    LookAtField("path", path);
    LookAtField("state", state);
    TrimKeeps("}");
    assert lines[0] == Look(texts[1]) && lines[1] == Look(texts[2]) && lines[2] == Look(texts[3]);
    assert lines[3] == Look(texts[4]) && lines[4] == Look(texts[5]);
    FiveLines(lines, path, state);
  }

  predicate StrayShape(lines: seq<Line>, path: string, state: string) {
    && |lines| == 5
    && lines[0] == Line(false, false, Some((Path, path))) && lines[1] == lines[4] == Line(true, false, None)
    && !lines[2].closes && lines[2].opens && lines[3] == Line(false, false, Some((State, state)))
  }

  lemma {:induction false} FiveDepths(lines: seq<Line>, path: string, state: string)
    requires StrayShape(lines, path, state)
    ensures Depth(lines, 0) == Depth(lines, 1) == Depth(lines, 3) == Depth(lines, 4) == 1
    ensures Depth(lines, 2) == Depth(lines, 5) == 0 && Balanced(lines)
  {
    assert Depth(lines, 1) == 1 && Depth(lines, 2) == 0 && Depth(lines, 3) == 1;
  }

  lemma {:induction false} FiveLines(lines: seq<Line>, path: string, state: string)
    requires StrayShape(lines, path, state) && path != "" && state != ""
    ensures Describes(lines, Job(path, state)) && Reopened(lines)
  {
    FiveDepths(lines, path, state);
    FiveValues(lines, Path);
    assert ValueAt(lines, 0, Path) == [path] && ValueAt(lines, 1, Path) == ValueAt(lines, 2, Path) == [];
    assert ValueAt(lines, 3, Path) == ValueAt(lines, 4, Path) == [];
    FiveValues(lines, State);
    assert ValueAt(lines, 0, State) == ValueAt(lines, 1, State) == ValueAt(lines, 2, State) == [];
    assert ValueAt(lines, 3, State) == [state] && ValueAt(lines, 4, State) == [];
    assert Gives(lines, 3);
  }

  lemma {:induction false} FiveValues(lines: seq<Line>, key: Key)
    requires |lines| == 5
    ensures Values(lines, 5, key) == ValueAt(lines, 0, key) + ValueAt(lines, 1, key) + ValueAt(lines, 2, key)
                                     + ValueAt(lines, 3, key) + ValueAt(lines, 4, key)
  {
    assert Values(lines, 1, key) == ValueAt(lines, 0, key);
    assert Values(lines, 2, key) == Values(lines, 1, key) + ValueAt(lines, 1, key);
    assert Values(lines, 3, key) == Values(lines, 2, key) + ValueAt(lines, 2, key);
    assert Values(lines, 4, key) == Values(lines, 3, key) + ValueAt(lines, 3, key);
  }

  /** The joined lines, up to the last. */
  lemma {:induction false} JoinMore(line: string, lines: seq<string>)
    requires lines != []
    ensures Join([line] + lines) == line + "\n" + Join(lines)
  {
    assert ([line] + lines)[1..] == lines;
  }

  function StrayTail(other: string, state: string): seq<string> {
    ["}", other + " = {", "state" + " = " + state, "}"]
  }

  lemma {:induction false} TailText(other: string, state: string)
    ensures Join(StrayTail(other, state)) == "}\n" + other + " = {\nstate = " + state + "\n}"
  {
    var given := ["state" + " = " + state, "}"];
    JoinMore("state" + " = " + state, ["}"]);
    JoinMore(other + " = {", given);
    JoinMore("}", [other + " = {"] + given);
    assert StrayTail(other, state) == ["}"] + ([other + " = {"] + given);
  }

  lemma {:induction false} HeadText(service: string, path: string, rest: string)
    ensures (service + " = {") + "\n" + (("path" + " = " + path) + "\n" + rest) == (service + " = {\npath = " + path + "\n") + rest
  {
  }

  /** The parser takes such a listing. */
  method TakesStrayState(target: string, service: string, path: string, other: string, state: string)
    returns (text: string, job: Option<Job>)
    requires Plain(service) && Plain(path) && Plain(other) && Plain(state)
    ensures text == (service + " = {\npath = " + path + "\n") + ("}\n" + other + " = {\nstate = " + state + "\n}")
    ensures job == Some(Job(path, state))
  {
    text := Join(StrayLines(service, path, other, state));
    job := ParseLaunchdJob(text, target, service);
    LaterBlockCounts(target, service, path, other, state);
    if job.Some? { ListsOneJob(text, target, service, job.value, Job(path, state)); }
    StrayText(service, path, other, state);
  }

  lemma {:induction false} StrayText(service: string, path: string, other: string, state: string)
    ensures Join(StrayLines(service, path, other, state))
            == (service + " = {\npath = " + path + "\n") + ("}\n" + other + " = {\nstate = " + state + "\n}")
  {
    var tail := StrayTail(other, state);
    JoinMore("path" + " = " + path, tail);
    JoinMore(service + " = {", ["path" + " = " + path] + tail);
    assert StrayLines(service, path, other, state) == [service + " = {"] + (["path" + " = " + path] + tail);
    TailText(other, state);
    HeadText(service, path, Join(tail));
  }

  /** For one, this text is accepted, although the service's own block gives no state. */
  method TakesThisListing(target: string) returns (text: string, job: Option<Job>)
    ensures text == "n = {\npath = /p\n" + "}\nx = {\nstate = up\n}"
    ensures job == Some(Job("/p", "up"))
  {
    text, job := TakesStrayState(target, "n", "/p", "x", "up");
    assert "n" + " = {\npath = " + "/p" + "\n" == "n = {\npath = /p\n";
    assert "}\n" + "x" + " = {\nstate = " + "up" + "\n}" == "}\nx = {\nstate = up\n}";
  }
}
