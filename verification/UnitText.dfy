/** The text of a systemd unit: argument quoting, rendering, and the check of its [Install] section. */
module UnitText {
  import opened Options
  import opened Text

  // -------------------------------------------------------------- quoting

  predicate IsControl(c: char) {
    c < ' ' || '\U{7F}' <= c <= '\U{9F}'
  }

  function ReplaceAll(s: string, c: char, with: string): string {
    if s == "" then "" else (if s[0] == c then with else [s[0]]) + ReplaceAll(s[1..], c, with)
  }

  /** The four replacements, one after the other. */
  function Sequentially(value: string): string {
    ReplaceAll(ReplaceAll(ReplaceAll(ReplaceAll(value, '%', "%%"), '$', "$$"), '\\', "\\\\"), '\"', "\\\"")
  }

  function QuoteSystemdArgument(value: string): Option<string> {
    if value == "" || exists i | 0 <= i < |value| :: IsControl(value[i]) then None
    else Some("\"" + Sequentially(value) + "\"")
  }

  /** What one character becomes. */
  function Escape(c: char): string {
    if c == '%' then "%%" else if c == '$' then "$$" else if c == '\\' then "\\\\" else if c == '\"' then "\\\"" else [c]
  }

  function EscapeAll(s: string): string {
    if s == "" then "" else Escape(s[0]) + EscapeAll(s[1..])
  }

  /** Reads escaped characters up to the closing quote; yields the plain text and what follows the quote. */
  function ReadQuoted(s: string): Option<(string, string)>
    decreases |s|
  {
    if s == "" then None
    else if s[0] == '\"' then Some(("", s[1..]))
    else if s[0] == '%' || s[0] == '$' then
      if |s| > 1 && s[1] == s[0] then Prepend(s[0], ReadQuoted(s[2..])) else None
    else if s[0] == '\\' then
      if |s| > 1 && (s[1] == '\\' || s[1] == '\"') then Prepend(s[1], ReadQuoted(s[2..])) else None
    else Prepend(s[0], ReadQuoted(s[1..]))
  }

  function Prepend(c: char, r: Option<(string, string)>): Option<(string, string)> {
    match r
    case None => None
    case Some((text, rest)) => Some(([c] + text, rest))
  }

  lemma {:induction false} ReplaceConcat(s: string, t: string, c: char, with: string)
    ensures ReplaceAll(s + t, c, with) == ReplaceAll(s, c, with) + ReplaceAll(t, c, with)
    decreases |s|
  {
    if s == "" {
      assert s + t == t;
    } else {
      ReplaceConcat(s[1..], t, c, with);
      assert (s + t)[1..] == s[1..] + t;
    }
  }

  lemma {:induction false} ReplaceShort(c: char, with: string)
    ensures forall d :: ReplaceAll([d], c, with) == if d == c then with else [d]
    ensures forall d, e :: ReplaceAll([d, e], c, with) == (if d == c then with else [d]) + (if e == c then with else [e])
  {
    forall d ensures ReplaceAll([d], c, with) == if d == c then with else [d] {
      assert [d][1..] == "";
    }
    forall d, e ensures ReplaceAll([d, e], c, with) == (if d == c then with else [d]) + (if e == c then with else [e]) {
      assert [d, e][1..] == [e];
    }
  }

  lemma {:induction false} OneCharacter(c: char)
    ensures Sequentially([c]) == Escape(c)
  {
    ReplaceShort('%', "%%");
    ReplaceShort('$', "$$");
    ReplaceShort('\\', "\\\\");
    ReplaceShort('\"', "\\\"");
    assert "%%" == ['%', '%'] && "$$" == ['$', '$'] && "\\\\" == ['\\', '\\'];
  }

  lemma {:induction false} SequentialConcat(s: string, t: string)
    ensures Sequentially(s + t) == Sequentially(s) + Sequentially(t)
  {
    var s1, t1 := ReplaceAll(s, '%', "%%"), ReplaceAll(t, '%', "%%");
    ReplaceConcat(s, t, '%', "%%");
    var s2, t2 := ReplaceAll(s1, '$', "$$"), ReplaceAll(t1, '$', "$$");
    ReplaceConcat(s1, t1, '$', "$$");
    ReplaceConcat(s2, t2, '\\', "\\\\");
    ReplaceConcat(ReplaceAll(s2, '\\', "\\\\"), ReplaceAll(t2, '\\', "\\\\"), '\"', "\\\"");
  }

  /** The four passes together are one pass over the original characters. */
  lemma {:induction false} SequentialIsOnePass(s: string)
    ensures Sequentially(s) == EscapeAll(s)
    decreases |s|
  {
    if s != "" {
      assert s == [s[0]] + s[1..];
      SequentialConcat([s[0]], s[1..]);
      OneCharacter(s[0]);
      SequentialIsOnePass(s[1..]);
    }
  }

  /** Reading back an escaped text up to its closing quote gives the text and the exact rest. */
  lemma {:induction false} ReadsEscaped(s: string, rest: string)
    ensures ReadQuoted(EscapeAll(s) + ("\"" + rest)) == Some((s, rest))
    decreases |s|
  {
    if s == "" {
      assert EscapeAll(s) + ("\"" + rest) == "\"" + rest;
      assert ("\"" + rest)[1..] == rest;
    } else {
      var more := EscapeAll(s[1..]) + ("\"" + rest);
      var whole := EscapeAll(s) + ("\"" + rest);
      assert whole == Escape(s[0]) + more;
      assert whole[|Escape(s[0])|..] == more;
      ReadsEscaped(s[1..], rest);
      assert s == [s[0]] + s[1..];
    }
  }

  function Quoted(s: string): string {
    "\"" + EscapeAll(s) + "\""
  }

  lemma {:induction false} QuoteForm(value: string)
    requires QuoteSystemdArgument(value).Some?
    ensures QuoteSystemdArgument(value).value == Quoted(value)
    ensures forall i | 0 <= i < |value| :: !IsControl(value[i])
  {
    SequentialIsOnePass(value);
  }

  lemma {:induction false} ReadsQuoted(s: string, rest: string)
    ensures (Quoted(s) + rest) != "" && ReadQuoted((Quoted(s) + rest)[1..]) == Some((s, rest))
  {
    assert (Quoted(s) + rest)[1..] == EscapeAll(s) + ("\"" + rest);
    ReadsEscaped(s, rest);
  }

  /** A quoted argument followed by anything determines the argument. */
  lemma {:induction false} QuotedIsPrefixFree(a: string, b: string, x: string, y: string)
    requires Quoted(a) + x == Quoted(b) + y
    ensures a == b && x == y
  {
    ReadsQuoted(a, x);
    ReadsQuoted(b, y);
  }

  /** Distinct arguments never render alike. */
  lemma {:induction false} QuotingIsInjective(a: string, b: string)
    requires QuoteSystemdArgument(a).Some? && QuoteSystemdArgument(a) == QuoteSystemdArgument(b)
    ensures a == b
  {
    QuoteForm(a);
    QuoteForm(b);
    QuotedIsPrefixFree(a, b, "", "");
  }

  // ------------------------------------------------------------ rendering

  datatype Request = Request(
    instance: string, executable: string, config: string, managed: bool,
    coordinator: string, stateDirectory: string, store: string, user: string)

  predicate IsAbs(path: string) {
    path != "" && path[0] == '/'
  }

  predicate Alphanumeric(c: char) {
    'A' <= c <= 'Z' || 'a' <= c <= 'z' || '0' <= c <= '9'
  }

  predicate ValidInstance(s: string) {
    && 1 <= |s| <= 64 && Alphanumeric(s[0])
    && forall i | 1 <= i < |s| :: Alphanumeric(s[i]) || s[i] == '_' || s[i] == '-'
  }

  predicate ValidAccount(s: string) {
    && 1 <= |s| <= 64 && (Alphanumeric(s[0]) || s[0] == '_')
    && forall i | 1 <= i < |s| :: Alphanumeric(s[i]) || s[i] == '_' || s[i] == '.' || s[i] == '-'
  }

  predicate ValidTransaction(s: string) {
    |s| == 32 && forall i | 0 <= i < |s| :: HexDigit(s[i]) || 'A' <= s[i] <= 'F'
  }

  function Marker(): string { "# Managed by MintClaw " + "mintclaw-node lifecycle v1" }
  function TransactionMarker(): string { "# MintClaw install transaction: " }
  function Target(system: bool): string { if system then "multi-user.target" else "default.target" }
  function WantedBy(system: bool): string { "WantedBy=" + Target(system) }

  /** The command line: the quoted program, its fixed arguments, and the quoted path. */
  function ExecLine(program: string, managed: bool, path: string): string {
    "ExecStart=" + program + (if managed then " run --state-dir " else " run --config ") + path
  }

  function Program(r: Request): string { if r.managed then r.coordinator else r.executable }
  /** The argument: the configuration, or the store joined below the state directory. */
  function Argument(r: Request): string { if r.managed then r.store else r.config }

  predicate Renderable(r: Request, system: bool, transaction: string) {
    && ValidInstance(r.instance)
    && IsAbs(r.executable) && IsAbs(r.config)
    && (r.managed ==> IsAbs(r.coordinator) && IsAbs(r.stateDirectory))
    && ValidTransaction(transaction)
    && QuoteSystemdArgument(Program(r)).Some? && QuoteSystemdArgument(Argument(r)).Some?
    && (system ==> ValidAccount(r.user))
  }

  /** The lines before the [Install] section. */
  function HeadLines(r: Request, system: bool, transaction: string): seq<string>
    requires Renderable(r, system, transaction)
  {
    [Marker(), TransactionMarker() + transaction, "[Unit]",
     "Description=MintClaw node companion (" + r.instance + ")",
     "Wants=network-online.target", "After=network-online.target", "", "[Service]", "Type=simple"]
    + (if system then ["User=" + r.user] else [])
    + [ExecLine(QuoteSystemdArgument(Program(r)).value, r.managed, QuoteSystemdArgument(Argument(r)).value),
       "Restart=on-failure", "RestartSec=5s", "NoNewPrivileges=true", ""]
  }

  function UnitLines(r: Request, system: bool, transaction: string): seq<string>
    requires Renderable(r, system, transaction)
  {
    HeadLines(r, system, transaction) + ["[Install]", WantedBy(system)]
  }

  function Unlines(lines: seq<string>): string {
    if lines == [] then "" else lines[0] + "\n" + Unlines(lines[1..])
  }

  function RenderSystemdUnit(r: Request, system: bool, transaction: string): Option<string> {
    if Renderable(r, system, transaction) then Some(Unlines(UnitLines(r, system, transaction))) else None
  }

  // ------------------------------------------------------ reading it back

  predicate SingleLine(s: string) {
    '\n' !in s
  }

  function IndexOfNewline(s: string): (i: nat)
    ensures i <= |s| && SingleLine(s[..i]) && (i < |s| ==> s[i] == '\n')
  {
    if s == "" || s[0] == '\n' then 0 else
      var i := 1 + IndexOfNewline(s[1..]);
      assert s[..i] == [s[0]] + s[1..][..i - 1];
      i
  }

  function SplitLines(s: string): seq<string>
    decreases |s|
  {
    var i := IndexOfNewline(s);
    if i == |s| then [s] else [s[..i]] + SplitLines(s[i + 1..])
  }

  lemma {:induction false} NewlineAfter(line: string, rest: string)
    requires SingleLine(line)
    ensures IndexOfNewline(line + "\n" + rest) == |line|
  {
    var s := line + "\n" + rest;
    var i := IndexOfNewline(s);
    assert s[|line|] == '\n' && forall k | 0 <= k < |line| :: s[k] == line[k];
    assert forall k | 0 <= k < i :: s[..i][k] == s[k];
  }

  lemma {:induction false} SplitStep(line: string, rest: string)
    requires SingleLine(line)
    ensures SplitLines(line + "\n" + rest) == [line] + SplitLines(rest)
  {
    var s := line + "\n" + rest;
    NewlineAfter(line, rest);
    assert s[..|line|] == line && s[|line| + 1..] == rest;
  }

  lemma {:induction false} SplitUnlines(lines: seq<string>)
    requires forall i | 0 <= i < |lines| :: SingleLine(lines[i])
    ensures SplitLines(Unlines(lines)) == lines + [""]
    decreases |lines|
  {
    if lines != [] {
      SplitStep(lines[0], Unlines(lines[1..]));
      SplitUnlines(lines[1..]);
      assert lines + [""] == [lines[0]] + (lines[1..] + [""]);
    } else {
      assert [] + [""] == [""];
    }
  }

  predicate HasSystemdUnitMarker(data: string) {
    Marker() in SplitLines(data)
  }

  function TrimLeft(s: string): string {
    if s != "" && IsSpace(s[0]) then TrimLeft(s[1..]) else s
  }

  function TrimRight(s: string): string {
    if s != "" && IsSpace(s[|s| - 1]) then TrimRight(s[..|s| - 1]) else s
  }

  function Trim(s: string): string {
    TrimRight(TrimLeft(s))
  }

  predicate IsHeader(line: string) {
    |line| > 0 && line[0] == '[' && line[|line| - 1] == ']'
  }

  predicate IsInstallHeader(line: string) {
    IsHeader(line) && line == "[Install]"
  }

  /** Whether the (trimmed) line at `i` lies under an [Install] header. */
  predicate InInstall(lines: seq<string>, i: nat)
    requires i <= |lines|
  {
    i > 0 && if IsHeader(lines[i - 1]) then IsInstallHeader(lines[i - 1]) else InInstall(lines, i - 1)
  }

  predicate Comment(line: string) {
    line == "" || line[0] == '#' || line[0] == ';'
  }

  /** A line of an [Install] section that says something. */
  predicate IsDirective(lines: seq<string>, i: nat)
    requires i < |lines|
  {
    !IsHeader(lines[i]) && InInstall(lines, i) && !Comment(lines[i])
  }

  /** How many of the first `i` lines open an [Install] section. */
  function InstallHeaders(lines: seq<string>, i: nat): nat
    requires i <= |lines|
  {
    if i == 0 then 0 else InstallHeaders(lines, i - 1) + (if IsInstallHeader(lines[i - 1]) then 1 else 0)
  }

  /** How many of the first `i` lines are directives of an [Install] section. */
  function Directives(lines: seq<string>, i: nat): nat
    requires i <= |lines|
  {
    if i == 0 then 0 else Directives(lines, i - 1) + (if IsDirective(lines, i - 1) then 1 else 0)
  }

  function Trimmed(lines: seq<string>): (r: seq<string>)
    ensures |r| == |lines|
  {
    seq(|lines|, i requires 0 <= i < |lines| => Trim(lines[i]))
  }

  /** Exactly one [Install] section, holding exactly one directive, the wanted one. */
  ghost predicate InstallsOnly(lines: seq<string>, wantedBy: string) {
    && InstallHeaders(lines, |lines|) == 1
    && Directives(lines, |lines|) == 1
    && forall d: nat | d < |lines| && IsDirective(lines, d) :: lines[d] == wantedBy
  }

  ghost predicate InstallsOnlyInto(lines: seq<string>, system: bool) {
    InstallsOnly(Trimmed(lines), WantedBy(system))
  }

  lemma {:induction false} CountsGrow(lines: seq<string>, i: nat, j: nat)
    requires i <= j <= |lines|
    ensures InstallHeaders(lines, i) <= InstallHeaders(lines, j)
    ensures Directives(lines, i) <= Directives(lines, j)
    decreases j
  {
    if i < j {
      CountsGrow(lines, i, j - 1);
    }
  }

  datatype InstallError = DuplicateInstall | UnsafeDirective(line: string) | MustInstallOnly

  method CheckInstallSection(lines: seq<string>, wantedBy: string) returns (error: Option<InstallError>)
    ensures error.None? <==> InstallsOnly(lines, wantedBy)
  {
    var inInstall, seenInstall, seenWantedBy := false, false, false;
    for i := 0 to |lines|
      invariant inInstall == InInstall(lines, i)
      invariant InstallHeaders(lines, i) == (if seenInstall then 1 else 0)
      invariant Directives(lines, i) == (if seenWantedBy then 1 else 0)
      invariant forall d: nat | d < i && IsDirective(lines, d) :: lines[d] == wantedBy
    {
      var line := lines[i];
      CountsGrow(lines, i + 1, |lines|);
      if IsHeader(line) {
        inInstall := IsInstallHeader(line);
        if inInstall {
          if seenInstall { return Some(DuplicateInstall); }
          seenInstall := true;
        }
        continue;
      }
      if !inInstall || Comment(line) { continue; }
      if line != wantedBy || seenWantedBy { return Some(UnsafeDirective(line)); }
      seenWantedBy := true;
    }
    if !seenInstall || !seenWantedBy { return Some(MustInstallOnly); }
    error := None;
  }

  method ValidateManagedSystemdInstallSection(data: string, system: bool) returns (error: Option<InstallError>)
    ensures error.None? <==> InstallsOnlyInto(SplitLines(data), system)
  {
    error := CheckInstallSection(Trimmed(SplitLines(data)), WantedBy(system));
  }

  // -------------------------------------------- rendered units are managed

  lemma {:induction false} TrimKeeps(s: string)
    requires s != "" && !IsSpace(s[0])
    ensures Trim(s) != "" && Trim(s)[0] == s[0]
    ensures !IsSpace(s[|s| - 1]) ==> Trim(s) == s
    decreases |s|
  {
    if IsSpace(s[|s| - 1]) {
      TrimKeeps(s[..|s| - 1]);
    }
  }

  lemma {:induction false} QuotedSingleLine(value: string)
    requires QuoteSystemdArgument(value).Some?
    ensures SingleLine(QuoteSystemdArgument(value).value)
  {
    QuoteForm(value);
    EscapedSingleLine(value);
  }

  lemma {:induction false} EscapedSingleLine(s: string)
    requires forall i | 0 <= i < |s| :: !IsControl(s[i])
    ensures SingleLine(EscapeAll(s))
    decreases |s|
  {
    if s != "" {
      EscapedSingleLine(s[1..]);
      assert !IsControl(s[0]);
    }
  }

  /** A line whose first character is neither a blank nor an opening bracket is no header. */
  predicate Plain(line: string) {
    line == "" || (!IsSpace(line[0]) && line[0] != '[')
  }

  lemma {:induction false} PlainIsNoHeader(line: string)
    requires Plain(line)
    ensures !IsHeader(Trim(line))
  {
    if line != "" {
      TrimKeeps(line);
    }
  }

  /** A single line that opens no [Install] section. */
  predicate Quiet(line: string) {
    SingleLine(line) && (Plain(line) || line == "[Unit]" || line == "[Service]")
  }

  lemma {:induction false} HeadingLinesQuiet()
    ensures Quiet(Marker()) && Quiet("[Unit]") && Quiet("[Service]") && Quiet("")
  {
    assert SingleLine("# Managed by MintClaw ") && SingleLine("mintclaw-node lifecycle v1");
    assert Marker()[0] == '#';
  }

  lemma {:induction false} UnitLinesQuiet()
    ensures Quiet("Wants=network-online.target") && Quiet("After=network-online.target")
  {
  }

  lemma {:induction false} ServiceLinesQuiet()
    ensures Quiet("Type=simple") && Quiet("Restart=on-failure") && Quiet("RestartSec=5s") && Quiet("NoNewPrivileges=true")
  {
  }

  lemma {:induction false} PrefixedQuiet(prefix: string, rest: string)
    requires Quiet(prefix) && Plain(prefix) && prefix != "" && SingleLine(rest)
    ensures Quiet(prefix + rest) && Plain(prefix + rest)
  {
  }

  lemma {:induction false} NamesSingleLine(r: Request, system: bool, transaction: string)
    requires Renderable(r, system, transaction)
    ensures SingleLine(transaction) && SingleLine(r.instance) && (system ==> SingleLine(r.user))
  {
  }

  lemma {:induction false} TransactionQuiet(transaction: string)
    requires SingleLine(transaction)
    ensures Quiet(TransactionMarker() + transaction)
  {
    PrefixedQuiet(TransactionMarker(), transaction);
  }

  lemma {:induction false} DescriptionQuiet(instance: string)
    requires SingleLine(instance)
    ensures Quiet("Description=MintClaw node companion (" + instance + ")")
  {
    PrefixedQuiet("Description=MintClaw node companion (", instance);
    PrefixedQuiet("Description=MintClaw node companion (" + instance, ")");
  }

  lemma {:induction false} UserQuiet(user: string)
    ensures SingleLine(user) ==> Quiet("User=" + user)
  {
    if SingleLine(user) {
      PrefixedQuiet("User=", user);
    }
  }

  lemma {:induction false} ExecQuiet(p: string, managed: bool, q: string)
    requires SingleLine(p) && SingleLine(q)
    ensures Quiet(ExecLine(p, managed, q))
  {
    var mode := if managed then " run --state-dir " else " run --config ";
    assert SingleLine(mode);
    assert SingleLine("ExecStart=") && "ExecStart="[0] == 'E';
    assert SingleLine("ExecStart=" + p) && SingleLine("ExecStart=" + p + mode);
    assert ExecLine(p, managed, q)[0] == 'E';
  }

  lemma {:induction false} VariableLinesQuiet(r: Request, system: bool, transaction: string)
    requires Renderable(r, system, transaction)
    ensures Quiet(TransactionMarker() + transaction)
    ensures Quiet("Description=MintClaw node companion (" + r.instance + ")")
    ensures system ==> Quiet("User=" + r.user)
    ensures Quiet(ExecLine(QuoteSystemdArgument(Program(r)).value, r.managed, QuoteSystemdArgument(Argument(r)).value))
  {
    NamesSingleLine(r, system, transaction);
    QuotedSingleLine(Program(r));
    QuotedSingleLine(Argument(r));
    ExecQuiet(QuoteSystemdArgument(Program(r)).value, r.managed, QuoteSystemdArgument(Argument(r)).value);
    TransactionQuiet(transaction);
    DescriptionQuiet(r.instance);
    UserQuiet(r.user);
  }

  lemma {:induction false} HeadIsQuiet(r: Request, system: bool, transaction: string)
    requires Renderable(r, system, transaction)
    ensures forall line | line in HeadLines(r, system, transaction) :: Quiet(line)
  {
    HeadingLinesQuiet();
    UnitLinesQuiet();
    ServiceLinesQuiet();
    VariableLinesQuiet(r, system, transaction);
  }

  lemma {:induction false} NothingInstalled(lines: seq<string>, i: nat)
    requires i <= |lines| && forall j | 0 <= j < i :: !IsInstallHeader(lines[j])
    ensures !InInstall(lines, i) && InstallHeaders(lines, i) == 0 && Directives(lines, i) == 0
    ensures forall d: nat | d < i :: !IsDirective(lines, d)
    decreases i
  {
    if i > 0 {
      NothingInstalled(lines, i - 1);
    }
  }

  lemma {:induction false} HeadHasNoInstall(line: string)
    requires Plain(line) || line == "[Unit]" || line == "[Service]"
    ensures !IsInstallHeader(Trim(line))
  {
    if Plain(line) {
      PlainIsNoHeader(line);
    } else {
      TrimKeeps(line);
      assert |"[Unit]"| == 6 && |"[Service]"| == 9 && |"[Install]"| == 9;
      assert "[Service]"[1] == 'S' && "[Install]"[1] == 'I';
    }
  }

  /** Trimmed lines whose only header is the [Install] before the last two install only into what the next one says. */
  lemma {:induction false} TailInstalls(lines: seq<string>, wantedBy: string)
    requires |lines| >= 3 && lines[|lines| - 3] == "[Install]" && lines[|lines| - 2] == wantedBy && lines[|lines| - 1] == ""
    requires forall i | 0 <= i < |lines| - 3 :: !IsInstallHeader(lines[i])
    requires !IsHeader(wantedBy) && !Comment(wantedBy)
    ensures InstallHeaders(lines, |lines|) == 1 && Directives(lines, |lines|) == 1
    ensures forall d: nat | d < |lines| :: IsDirective(lines, d) <==> d == |lines| - 2
  {
    var n := |lines| - 3;
    NothingInstalled(lines, n);
    assert InInstall(lines, n + 1) && IsDirective(lines, n + 1) && !IsDirective(lines, n) && !IsDirective(lines, n + 2);
    assert InstallHeaders(lines, n + 1) == 1 && InstallHeaders(lines, n + 2) == 1;
    assert Directives(lines, n + 1) == 0 && Directives(lines, n + 2) == 1;
  }

  lemma {:induction false} WantedByText(system: bool)
    ensures Trim(WantedBy(system)) == WantedBy(system) && !IsHeader(WantedBy(system)) && !Comment(WantedBy(system))
    ensures WantedBy(system) != WantedBy(!system)
    ensures Trim("[Install]") == "[Install]" && Trim("") == ""
  {
    assert WantedBy(system)[0] == 'W';
    TrimKeeps("[Install]");
    TrimKeeps(WantedBy(system));
    assert WantedBy(true)[9] == 'm' && WantedBy(false)[9] == 'd';
  }

  /** A head without [Install] followed by the rendered section installs only into that section's target. */
  lemma {:induction false} SectionInstalls(head: seq<string>, system: bool)
    requires forall i | 0 <= i < |head| :: !IsInstallHeader(Trim(head[i]))
    ensures InstallsOnlyInto(head + ["[Install]", WantedBy(system)] + [""], system)
    ensures !InstallsOnlyInto(head + ["[Install]", WantedBy(system)] + [""], !system)
  {
    var lines := head + ["[Install]", WantedBy(system)] + [""];
    var ts := Trimmed(lines);
    WantedByText(system);
    assert forall i | 0 <= i < |head| :: ts[i] == Trim(head[i]);
    TailInstalls(ts, WantedBy(system));
    assert IsDirective(ts, |ts| - 2) && ts[|ts| - 2] != WantedBy(!system);
  }

  /** Every rendered unit is marked as owned, accepted for its own scope and refused for the other. */
  lemma {:induction false} RenderedUnitIsManaged(r: Request, system: bool, transaction: string)
    requires RenderSystemdUnit(r, system, transaction).Some?
    ensures HasSystemdUnitMarker(RenderSystemdUnit(r, system, transaction).value)
    ensures InstallsOnlyInto(SplitLines(RenderSystemdUnit(r, system, transaction).value), system)
    ensures !InstallsOnlyInto(SplitLines(RenderSystemdUnit(r, system, transaction).value), !system)
  {
    var head := HeadLines(r, system, transaction);
    var lines := UnitLines(r, system, transaction);
    RenderedLines(r, system, transaction);
    HeadIsQuiet(r, system, transaction);
    forall i | 0 <= i < |head| ensures !IsInstallHeader(Trim(head[i])) {
      assert Quiet(head[i]);
      HeadHasNoInstall(head[i]);
    }
    SectionInstalls(head, system);
    assert (lines + [""])[0] == Marker();
  }

  lemma {:induction false} RenderedLines(r: Request, system: bool, transaction: string)
    requires RenderSystemdUnit(r, system, transaction).Some?
    ensures SplitLines(RenderSystemdUnit(r, system, transaction).value) == UnitLines(r, system, transaction) + [""]
  {
    HeadIsQuiet(r, system, transaction);
    var head := HeadLines(r, system, transaction);
    var lines := UnitLines(r, system, transaction);
    assert SingleLine("[Install]") && SingleLine(WantedBy(system));
    forall i | 0 <= i < |lines| ensures SingleLine(lines[i]) {
      assert i < |head| ==> lines[i] == head[i] && Quiet(head[i]);
    }
    SplitUnlines(lines);
  }

  /** Two requests rendered alike in one scope and mode run the same program on the same argument. */
  lemma {:induction false} RenderingIsInjective(a: Request, b: Request, system: bool, x: string, y: string)
    requires a.managed == b.managed
    requires RenderSystemdUnit(a, system, x).Some? && RenderSystemdUnit(a, system, x) == RenderSystemdUnit(b, system, y)
    ensures Program(a) == Program(b) && Argument(a) == Argument(b)
    ensures a.instance == b.instance && x == y && (system ==> a.user == b.user)
  {
    RenderedLines(a, system, x);
    RenderedLines(b, system, y);
    var left, right := UnitLines(a, system, x), UnitLines(b, system, y);
    assert left == (left + [""])[..|left|] && right == (right + [""])[..|right|];
    VariableLines(a, system, x);
    VariableLines(b, system, y);
    ExecInjective(a, b);
    NamesInjective(a, b, x, y);
    if system {
      SuffixEqual("User=", a.user, b.user, "User=" + a.user);
    }
  }

  lemma {:induction false} NamesInjective(a: Request, b: Request, x: string, y: string)
    requires TransactionMarker() + x == TransactionMarker() + y
    requires "Description=MintClaw node companion (" + a.instance + ")" == "Description=MintClaw node companion (" + b.instance + ")"
    ensures x == y && a.instance == b.instance
  {
    var prefix := "Description=MintClaw node companion (";
    SuffixEqual(TransactionMarker(), x, y, TransactionMarker() + x);
    assert |prefix + a.instance| == |prefix + b.instance|;
    assert prefix + a.instance == (prefix + a.instance + ")")[..|prefix + a.instance|];
    assert prefix + b.instance == (prefix + b.instance + ")")[..|prefix + a.instance|];
    SuffixEqual(prefix, a.instance, b.instance, prefix + a.instance);
  }

  /** Where the request shows in the rendered lines. */
  lemma {:induction false} VariableLines(r: Request, system: bool, transaction: string)
    requires Renderable(r, system, transaction)
    ensures var lines := UnitLines(r, system, transaction);
            && |lines| == (if system then 17 else 16)
            && lines[1] == TransactionMarker() + transaction
            && lines[3] == "Description=MintClaw node companion (" + r.instance + ")"
            && (system ==> lines[9] == "User=" + r.user)
            && lines[if system then 10 else 9] ==
               ExecLine(QuoteSystemdArgument(Program(r)).value, r.managed, QuoteSystemdArgument(Argument(r)).value)
  {
  }

  lemma {:induction false} SuffixEqual(prefix: string, s: string, t: string, whole: string)
    requires whole == prefix + s && whole == prefix + t
    ensures s == t
  {
    assert s == whole[|prefix|..] == t;
  }

  lemma {:induction false} ExecInjective(a: Request, b: Request)
    requires a.managed == b.managed
    requires QuoteSystemdArgument(Program(a)).Some? && QuoteSystemdArgument(Argument(a)).Some?
    requires QuoteSystemdArgument(Program(b)).Some? && QuoteSystemdArgument(Argument(b)).Some?
    requires ExecLine(QuoteSystemdArgument(Program(a)).value, a.managed, QuoteSystemdArgument(Argument(a)).value)
             == ExecLine(QuoteSystemdArgument(Program(b)).value, b.managed, QuoteSystemdArgument(Argument(b)).value)
    ensures Program(a) == Program(b) && Argument(a) == Argument(b)
  {
    QuoteForm(Program(a));
    QuoteForm(Program(b));
    QuoteForm(Argument(a));
    QuoteForm(Argument(b));
    ExecParts(Program(a), Argument(a), Program(b), Argument(b), if a.managed then " run --state-dir " else " run --config ");
  }

  lemma {:induction false} Reassociate(a: string, b: string, c: string, d: string)
    ensures a + b + c + d == a + (b + (c + d))
  {
  }

  lemma {:induction false} ExecParts(p: string, q: string, p': string, q': string, mode: string)
    requires "ExecStart=" + Quoted(p) + mode + Quoted(q) == "ExecStart=" + Quoted(p') + mode + Quoted(q')
    ensures p == p' && q == q'
  {
    Reassociate("ExecStart=", Quoted(p), mode, Quoted(q));
    Reassociate("ExecStart=", Quoted(p'), mode, Quoted(q'));
    SuffixEqual("ExecStart=", Quoted(p) + (mode + Quoted(q)), Quoted(p') + (mode + Quoted(q')),
                "ExecStart=" + Quoted(p) + mode + Quoted(q));
    QuotedIsPrefixFree(p, p', mode + Quoted(q), mode + Quoted(q'));
    SuffixEqual(mode, Quoted(q), Quoted(q'), mode + Quoted(q));
    QuotedIsPrefixFree(q, q', "", "");
  }
}
