/** Final delivery: the recogniser of the two-turn revision stream and the wire record it is checked against. */
module Delivery {
  import opened Text

  datatype Kind = Input | Stream | Final | Auxiliary | Other
  datatype Wire = NoWire | Create | Update | OtherWire
  datatype Scope = Scope(workspace: string, turnId: string)

  datatype Event = Event(
    id: string, turn: int, kind: Kind, wire: Wire, request: string, message: string, content: string,
    agent: string, sessionKey: string, scopes: seq<Scope>)

  /** What the case and the trial fix: the two inputs, the streaming rule, and the route. */
  datatype Setup = Setup(first: string, second: string, streaming: bool, agent: string, sessionKey: string, workspace: string)

  datatype Code =
    | Accepted
    | InputOrder | InputMismatch | RevisionScope | MissingCreate | RevisionIdentity
    | UnexpectedStream | StreamUnavailable | TerminalMissing
    | WireUnavailable | WireLimit | WireBinding | WireScope | WireProjection

  predicate Complete(s: Scope) {
    NotBlank(s.workspace) && NotBlank(s.turnId)
  }

  // -------------------------------------------------- the declared grammar

  /** Identities of the preceding turn; empty before the first one. */
  datatype Prior = Prior(request: string, message: string, trace: string)

  const Nobody := Prior("", "", "")

  predicate InputOk(e: Event, setup: Setup, phase: int, prior: Prior) {
    && e.kind == Input
    && e.content == (if phase == 0 then setup.first else setup.second)
    && ValidId(e.request) && e.request != prior.request
    && e.turn == phase + 1 && e.wire == NoWire
  }

  predicate RevisionScoped(e: Event, setup: Setup, phase: int, request: string, prior: Prior) {
    && e.turn == phase + 1 && e.request == request
    && (e.kind == Stream || e.kind == Final)
    && e.agent == setup.agent && e.sessionKey == setup.sessionKey && ValidId(e.message)
    && |e.scopes| == 1 && Complete(e.scopes[0])
    && e.scopes[0].workspace == setup.workspace && e.scopes[0].turnId != prior.trace
  }

  /** The start of a turn: its input, one create with fresh identity, updates of the same message and trace. */
  predicate OpenTurn(es: seq<Event>, setup: Setup, phase: int, prior: Prior) {
    && es != [] && InputOk(es[0], setup, phase, prior)
    && (forall j | 1 <= j < |es| :: RevisionScoped(es[j], setup, phase, es[0].request, prior))
    && (|es| > 1 ==> es[1].wire == Create && es[1].message != prior.message)
    && (forall j | 2 <= j < |es| ::
          es[j].wire == Update && es[j].message == es[1].message && es[j].scopes[0].turnId == es[1].scopes[0].turnId)
    && (forall j | 1 <= j < |es| - 1 :: es[j].kind == Stream)
    && (forall j | 1 <= j < |es| && es[j].kind == Stream :: setup.streaming)
    && (Ended(es) && phase == 0 && setup.streaming ==> |es| > 2)
  }

  predicate Ended(es: seq<Event>) {
    |es| > 1 && es[|es| - 1].kind == Final
  }

  function PriorOf(turn: seq<Event>): Prior
    requires |turn| > 1 && |turn[1].scopes| > 0
  {
    Prior(turn[0].request, turn[1].message, turn[1].scopes[0].turnId)
  }

  predicate WholeTurn(es: seq<Event>, setup: Setup, phase: int, prior: Prior) {
    OpenTurn(es, setup, phase, prior) && Ended(es)
  }

  /** Two whole turns, cut at `k`, the second with fresh request, message and trace. */
  predicate TwoTurns(es: seq<Event>, k: nat, setup: Setup) {
    && k <= |es|
    && WholeTurn(es[..k], setup, 0, Nobody)
    && WholeTurn(es[k..], setup, 1, PriorOf(es[..k]))
  }

  // ------------------------------------------------------- the recogniser

  datatype Scan = Scan(
    phase: int, revisions: nat, streams: nat, request: string, message: string, trace: string,
    prior: Prior, finals: seq<Event>)

  datatype Progress = Going(scan: Scan) | Rejected(code: Code)

  const Start := Scan(-1, 0, 0, "", "", "", Nobody, [])

  function Feed(a: Scan, e: Event, setup: Setup): Progress {
    if e.kind == Input then
      if (a.phase >= 0 && |a.finals| != a.phase + 1) || a.phase >= 1 then Rejected(InputOrder)
      else
        var phase := a.phase + 1;
        if e.content != (if phase <= 0 then setup.first else setup.second) || !ValidId(e.request)
           || e.request == a.prior.request || e.turn != phase + 1 || e.wire != NoWire then Rejected(InputMismatch)
        else Going(a.(phase := phase, revisions := 0, streams := 0, request := e.request, message := "", trace := "",
                      prior := a.prior.(request := e.request)))
    else if a.phase < 0 || |a.finals| > a.phase
            || !RevisionScoped(e, setup, a.phase, a.request, a.prior) then Rejected(RevisionScope)
    else if a.revisions == 0 && (e.wire != Create || e.message == a.prior.message) then Rejected(MissingCreate)
    else if a.revisions != 0 && (e.wire != Update || e.message != a.message || e.scopes[0].turnId != a.trace) then
      Rejected(RevisionIdentity)
    else
      var b := a.(revisions := a.revisions + 1,
                  message := if a.revisions == 0 then e.message else a.message,
                  trace := if a.revisions == 0 then e.scopes[0].turnId else a.trace);
      if e.kind == Stream then
        if !setup.streaming then Rejected(UnexpectedStream) else Going(b.(streams := b.streams + 1))
      else if b.phase == 0 && setup.streaming && b.streams == 0 then Rejected(StreamUnavailable)
      else Going(b.(finals := b.finals + [e], prior := b.prior.(message := b.message, trace := e.scopes[0].turnId)))
  }

  function Run(es: seq<Event>, setup: Setup): Progress {
    if es == [] then Going(Start)
    else
      match Run(es[..|es| - 1], setup)
      case Rejected(code) => Rejected(code)
      case Going(a) => Feed(a, es[|es| - 1], setup)
  }

  /** The scan registers summarise the turn being read, started at `start`. */
  ghost predicate Summary(a: Scan, turn: seq<Event>, prior: Prior, done: seq<Event>)
    requires forall j | 1 <= j < |turn| :: |turn[j].scopes| > 0
  {
    && turn != []
    && a.revisions == |turn| - 1
    && a.streams == (if Ended(turn) then |turn| - 2 else |turn| - 1)
    && a.request == turn[0].request
    && (|turn| > 1 ==> a.message == turn[1].message && a.trace == turn[1].scopes[0].turnId)
    && a.prior == (if Ended(turn) then PriorOf(turn) else prior.(request := turn[0].request))
    && a.finals == (if Ended(turn) then done + [turn[|turn| - 1]] else done)
  }

  /** `es` is a prefix of two turns whose current one starts at `start`, and `a` summarises it. */
  ghost predicate Tracks(a: Scan, es: seq<Event>, start: nat, setup: Setup) {
    && start <= |es|
    && if a.phase == -1 then es == [] && start == 0 && a == Start
       else if a.phase == 0 then start == 0 && OpenTurn(es, setup, 0, Nobody) && Summary(a, es, Nobody, [])
       else
         && a.phase == 1
         && WholeTurn(es[..start], setup, 0, Nobody)
         && OpenTurn(es[start..], setup, 1, PriorOf(es[..start]))
         && Summary(a, es[start..], PriorOf(es[..start]), [es[start - 1]])
  }

  lemma {:induction false} OpenTurnExtends(turn: seq<Event>, e: Event, setup: Setup, phase: int, prior: Prior)
    requires OpenTurn(turn, setup, phase, prior)
    ensures OpenTurn(turn + [e], setup, phase, prior) <==>
            && !Ended(turn) && RevisionScoped(e, setup, phase, turn[0].request, prior)
            && (|turn| == 1 ==> e.wire == Create && e.message != prior.message)
            && (|turn| > 1 ==> e.wire == Update && e.message == turn[1].message
                               && e.scopes[0].turnId == turn[1].scopes[0].turnId)
            && (e.kind == Stream ==> setup.streaming)
            && (e.kind == Final && phase == 0 && setup.streaming ==> |turn| > 1)
  {
    var longer := turn + [e];
    assert longer[|turn|] == e;
    assert forall j | 0 <= j < |turn| :: longer[j] == turn[j];
    assert OpenTurn(longer, setup, phase, prior) ==> RevisionScoped(longer[|turn|], setup, phase, longer[0].request, prior);
    if |turn| > 1 {
      assert OpenTurn(longer, setup, phase, prior) ==> longer[|turn| - 1].kind == Stream;
    }
  }

  lemma {:induction false} OpenTurnPrefix(turn: seq<Event>, e: Event, setup: Setup, phase: int, prior: Prior)
    requires turn != [] && OpenTurn(turn + [e], setup, phase, prior)
    ensures OpenTurn(turn, setup, phase, prior)
  {
    var longer := turn + [e];
    assert forall j | 0 <= j < |turn| :: longer[j] == turn[j];
    if |turn| > 1 {
      assert longer[|turn| - 1].kind == Stream;
    }
  }

  /** Feeding a revision to a turn in progress: taken exactly when it extends the open turn. */
  lemma {:induction false} FeedRevision(a: Scan, turn: seq<Event>, e: Event, setup: Setup, prior: Prior, done: seq<Event>)
    requires 0 <= a.phase <= 1 && |done| == a.phase && e.kind != Input
    requires OpenTurn(turn, setup, a.phase, prior) && Summary(a, turn, prior, done)
    ensures Feed(a, e, setup).Going? <==> OpenTurn(turn + [e], setup, a.phase, prior)
    ensures Feed(a, e, setup).Going? ==> Feed(a, e, setup).scan.phase == a.phase
    ensures Feed(a, e, setup).Going? ==> Summary(Feed(a, e, setup).scan, turn + [e], prior, done)
  {
    OpenTurnExtends(turn, e, setup, a.phase, prior);
    assert (turn + [e])[|turn|] == e;
  }

  lemma {:induction false} InputAlone(e: Event, setup: Setup, phase: int, prior: Prior)
    ensures OpenTurn([e], setup, phase, prior) <==> InputOk(e, setup, phase, prior)
  {
  }

  /** Feeding an input after a finished first turn, or as the very first event. */
  lemma {:induction false} FeedInput(a: Scan, e: Event, setup: Setup, prior: Prior)
    requires e.kind == Input && -1 <= a.phase <= 0 && |a.finals| == a.phase + 1 && a.prior == prior
    ensures Feed(a, e, setup).Going? <==> OpenTurn([e], setup, a.phase + 1, prior)
    ensures Feed(a, e, setup).Going? ==> Feed(a, e, setup).scan.phase == a.phase + 1
    ensures Feed(a, e, setup).Going? ==> Summary(Feed(a, e, setup).scan, [e], prior, a.finals)
  {
    InputAlone(e, setup, a.phase + 1, prior);
  }

  /** One turn in progress, or a whole one followed by another in progress. */
  ghost predicate Shape(es: seq<Event>, phase: int, start: nat, setup: Setup) {
    && start <= |es|
    && if phase == 0 then start == 0 && OpenTurn(es, setup, 0, Nobody)
       else phase == 1 && WholeTurn(es[..start], setup, 0, Nobody) && OpenTurn(es[start..], setup, 1, PriorOf(es[..start]))
  }

  lemma {:induction false} TracksFirstInput(e: Event, setup: Setup)
    ensures Feed(Start, e, setup).Going? <==> e.kind == Input && Shape([e], 0, 0, setup)
    ensures Feed(Start, e, setup).Going? ==> Tracks(Feed(Start, e, setup).scan, [e], 0, setup)
  {
    InputAlone(e, setup, 0, Nobody);
    if e.kind == Input {
      FeedInput(Start, e, setup, Nobody);
    }
  }

  lemma {:induction false} TracksSecondInput(a: Scan, es: seq<Event>, setup: Setup)
    requires es != [] && a.phase == 0 && Tracks(a, es[..|es| - 1], 0, setup) && es[|es| - 1].kind == Input
    ensures var fed := Feed(a, es[|es| - 1], setup);
            && (fed.Going? <==> Shape(es, 1, |es| - 1, setup))
            && (fed.Going? ==> Tracks(fed.scan, es, |es| - 1, setup))
  {
    var front, e := es[..|es| - 1], es[|es| - 1];
    assert es[|front|..] == [e];
    if Ended(front) {
      FeedInput(a, e, setup, PriorOf(front));
    }
  }

  lemma {:induction false} TracksFirstRevision(a: Scan, es: seq<Event>, setup: Setup)
    requires es != [] && a.phase == 0 && Tracks(a, es[..|es| - 1], 0, setup) && es[|es| - 1].kind != Input
    ensures var fed := Feed(a, es[|es| - 1], setup);
            && (fed.Going? <==> Shape(es, 0, 0, setup))
            && (fed.Going? ==> fed.scan.phase == 0 && Tracks(fed.scan, es, 0, setup))
  {
    assert es == es[..|es| - 1] + [es[|es| - 1]];
    FeedRevision(a, es[..|es| - 1], es[|es| - 1], setup, Nobody, []);
  }

  /** The second turn in progress after a whole first one. */
  lemma {:induction false} Parts(a: Scan, es: seq<Event>, start: nat, done: seq<Event>, turn: seq<Event>, setup: Setup)
    requires start <= |es| && done == es[..start] && turn == es[start..]
    ensures Shape(es, 1, start, setup) <==> WholeTurn(done, setup, 0, Nobody) && OpenTurn(turn, setup, 1, PriorOf(done))
    ensures a.phase == 1 && Shape(es, 1, start, setup) ==>
              (Tracks(a, es, start, setup) <==> Summary(a, turn, PriorOf(done), [done[|done| - 1]]))
  {
  }

  lemma {:induction false} SplitAt(es: seq<Event>, start: nat)
    requires start < |es|
    ensures var front := es[..|es| - 1]; es[..start] == front[..start] && es[start..] == front[start..] + [es[|es| - 1]]
  {
  }

  lemma {:induction false} TracksLaterRevision(a: Scan, es: seq<Event>, start: nat, setup: Setup)
    requires es != [] && a.phase == 1 && Tracks(a, es[..|es| - 1], start, setup) && es[|es| - 1].kind != Input
    ensures var fed := Feed(a, es[|es| - 1], setup);
            && (fed.Going? <==> Shape(es, 1, start, setup))
            && (fed.Going? ==> fed.scan.phase == 1 && Tracks(fed.scan, es, start, setup))
  {
    var front, e := es[..|es| - 1], es[|es| - 1];
    var done, turn := es[..start], front[start..];
    SplitAt(es, start);
    TracksShape(a, front, start, setup);
    Parts(a, front, start, done, turn, setup);
    FeedRevision(a, turn, e, setup, PriorOf(done), [done[|done| - 1]]);
    var fed := Feed(a, e, setup);
    Parts(if fed.Going? then fed.scan else a, es, start, done, turn + [e], setup);
  }

  lemma {:induction false} TracksRevision(a: Scan, es: seq<Event>, start: nat, setup: Setup)
    requires es != [] && 0 <= a.phase && Tracks(a, es[..|es| - 1], start, setup) && es[|es| - 1].kind != Input
    ensures var fed := Feed(a, es[|es| - 1], setup);
            && (fed.Going? <==> Shape(es, a.phase, start, setup))
            && (fed.Going? ==> fed.scan.phase == a.phase && Tracks(fed.scan, es, start, setup))
  {
    if a.phase == 0 {
      TracksFirstRevision(a, es, setup);
    } else {
      TracksLaterRevision(a, es, start, setup);
    }
  }

  lemma {:induction false} TracksShape(a: Scan, es: seq<Event>, start: nat, setup: Setup)
    requires Tracks(a, es, start, setup)
    ensures a.phase >= 0 ==> Shape(es, a.phase, start, setup)
    ensures -1 <= a.phase <= 1
  {
  }

  /** Whatever the recogniser has not rejected is a prefix of two turns. */
  lemma {:induction false} GoingTracks(es: seq<Event>, setup: Setup) returns (start: nat)
    requires Run(es, setup).Going?
    ensures Tracks(Run(es, setup).scan, es, start, setup)
    decreases |es|
  {
    start := 0;
    if es != [] {
      var front, e := es[..|es| - 1], es[|es| - 1];
      assert es == front + [e];
      start := GoingTracks(front, setup);
      var a := Run(front, setup).scan;
      TracksShape(a, front, start, setup);
      if a.phase == -1 {
        TracksFirstInput(e, setup);
        assert es == [e];
      } else if e.kind != Input {
        TracksRevision(a, es, start, setup);
      } else {
        TracksSecondInput(a, es, setup);
        start := |front|;
      }
    }
  }

  lemma {:induction false} SplitLast(es: seq<Event>, start: nat)
    requires start < |es|
    ensures var front, e := es[..|es| - 1], es[|es| - 1];
            && es[start..][|es| - start - 1] == e
            && (start == |es| - 1 ==> es[start..] == [e] && es[..start] == front)
            && (start < |es| - 1 ==> es[start..] == front[start..] + [e] && es[..start] == front[..start])
  {
  }

  lemma {:induction false} ShapeLast(es: seq<Event>, phase: int, start: nat, setup: Setup)
    requires es != [] && Shape(es, phase, start, setup)
    ensures start < |es|
    ensures var e := es[|es| - 1];
            if start == |es| - 1 then
              e.kind == Input && (if phase == 0 then es == [e] else |es| > 1 && Shape(es[..|es| - 1], 0, 0, setup))
            else e.kind != Input && Shape(es[..|es| - 1], phase, start, setup)
  {
    var front, e := es[..|es| - 1], es[|es| - 1];
    var prior := if phase == 0 then Nobody else PriorOf(es[..start]);
    var turn := es[start..];
    assert phase == 0 ==> turn == es;
    SplitLast(es, start);
    if start < |es| - 1 {
      assert phase == 0 ==> front[start..] == front;
      OpenTurnPrefix(front[start..], e, setup, phase, prior);
      assert RevisionScoped(turn[|turn| - 1], setup, phase, turn[0].request, prior);
    }
  }

  lemma {:induction false} RunSnoc(front: seq<Event>, e: Event, setup: Setup)
    requires Run(front, setup).Going?
    ensures Run(front + [e], setup) == Feed(Run(front, setup).scan, e, setup)
  {
    assert (front + [e])[..|front|] == front;
  }

  /** The scan of `es` is under way in this turn and its registers summarise it. */
  ghost predicate Goes(es: seq<Event>, phase: int, start: nat, setup: Setup) {
    Run(es, setup).Going? && Run(es, setup).scan.phase == phase && Tracks(Run(es, setup).scan, es, start, setup)
  }

  lemma {:induction false} GoesFirst(es: seq<Event>, setup: Setup)
    requires |es| == 1 && es[0].kind == Input && Shape(es, 0, 0, setup)
    ensures Goes(es, 0, 0, setup)
  {
    RunSnoc([], es[0], setup);
    assert [] + [es[0]] == [es[0]] == es;
    TracksFirstInput(es[0], setup);
  }

  lemma {:induction false} GoesSecond(es: seq<Event>, setup: Setup)
    requires es != [] && es[|es| - 1].kind == Input && Shape(es, 1, |es| - 1, setup) && Goes(es[..|es| - 1], 0, 0, setup)
    ensures Goes(es, 1, |es| - 1, setup)
  {
    RunLast(es, setup);
    TracksSecondInput(Run(es[..|es| - 1], setup).scan, es, setup);
  }

  lemma {:induction false} GoesRevision(es: seq<Event>, phase: int, start: nat, setup: Setup)
    requires es != [] && es[|es| - 1].kind != Input && 0 <= phase
    requires Shape(es, phase, start, setup) && Goes(es[..|es| - 1], phase, start, setup)
    ensures Goes(es, phase, start, setup)
  {
    RunLast(es, setup);
    TracksRevision(Run(es[..|es| - 1], setup).scan, es, start, setup);
  }

  lemma {:induction false} RunLast(es: seq<Event>, setup: Setup)
    requires es != [] && Run(es[..|es| - 1], setup).Going?
    ensures Run(es, setup) == Feed(Run(es[..|es| - 1], setup).scan, es[|es| - 1], setup)
  {
  }

  /** The recogniser rejects no prefix of two turns. */
  lemma {:induction false} ShapeGoes(es: seq<Event>, phase: int, start: nat, setup: Setup)
    requires es != [] && Shape(es, phase, start, setup)
    ensures Goes(es, phase, start, setup)
    decreases |es|
  {
    ShapeLast(es, phase, start, setup);
    var front := es[..|es| - 1];
    if start < |front| {
      ShapeGoes(front, phase, start, setup);
      GoesRevision(es, phase, start, setup);
    } else if phase == 0 {
      GoesFirst(es, setup);
    } else {
      ShapeGoes(front, 0, 0, setup);
      GoesSecond(es, setup);
    }
  }

  function Verdict(es: seq<Event>, setup: Setup): Code {
    match Run(es, setup)
    case Rejected(code) => code
    case Going(a) => if |a.finals| == 2 then Accepted else TerminalMissing
  }

  lemma {:induction false} AcceptedIsTwoTurns(es: seq<Event>, setup: Setup)
    requires Verdict(es, setup) == Accepted
    ensures exists k :: TwoTurns(es, k, setup)
  {
    NeverAcceptsInRun(es, setup);
    var start := GoingTracks(es, setup);
    assert TwoTurns(es, start, setup);
  }

  /** The recogniser accepts an event list exactly when it is two whole turns, and then names their finals. */
  lemma {:induction false} AcceptsExactlyTwoTurns(es: seq<Event>, setup: Setup)
    ensures Verdict(es, setup) == Accepted <==> exists k :: TwoTurns(es, k, setup)
    ensures forall k | TwoTurns(es, k, setup) ::
              Run(es, setup).Going? && Run(es, setup).scan.finals == [es[k - 1], es[|es| - 1]]
  {
    if Verdict(es, setup) == Accepted {
      AcceptedIsTwoTurns(es, setup);
    }
    forall k | TwoTurns(es, k, setup)
      ensures Run(es, setup).Going? && Run(es, setup).scan.finals == [es[k - 1], es[|es| - 1]]
    {
      TwoTurnsGo(es, k, setup);
    }
  }

  lemma {:induction false} TwoTurnsGo(es: seq<Event>, k: nat, setup: Setup)
    requires TwoTurns(es, k, setup)
    ensures Run(es, setup).Going? && Run(es, setup).scan.finals == [es[k - 1], es[|es| - 1]]
  {
    ShapeGoes(es, 1, k, setup);
  }

  lemma {:induction false} NeverAcceptsInRun(es: seq<Event>, setup: Setup)
    ensures Run(es, setup) != Rejected(Accepted)
    decreases |es|
  {
    if es != [] {
      NeverAcceptsInRun(es[..|es| - 1], setup);
    }
  }

  /** An input opens the next turn, if the one before it has ended. */
  method TakeInput(a: Scan, event: Event, setup: Setup) returns (progress: Progress)
    requires event.kind == Input
    ensures progress == Feed(a, event, setup)
  {
    if (a.phase >= 0 && |a.finals| != a.phase + 1) || a.phase >= 1 { return Rejected(InputOrder); }
    var phase := a.phase + 1;
    var content := if phase <= 0 then setup.first else setup.second;
    if event.content != content || !ValidId(event.request) || event.request == a.prior.request ||
       event.turn != phase + 1 || event.wire != NoWire { return Rejected(InputMismatch); }
    progress := Going(a.(phase := phase, revisions := 0, streams := 0, request := event.request, message := "", trace := "",
                         prior := a.prior.(request := event.request)));
  }

  /** A revision belongs to the open turn: created once, updated under one identity, ended by one final. */
  method TakeRevision(a: Scan, event: Event, setup: Setup) returns (progress: Progress)
    requires event.kind != Input
    ensures progress == Feed(a, event, setup)
  {
    if a.phase < 0 || |a.finals| > a.phase || !RevisionScoped(event, setup, a.phase, a.request, a.prior) {
      return Rejected(RevisionScope);
    }
    var next := a;
    if a.revisions == 0 {
      if event.wire != Create || event.message == a.prior.message { return Rejected(MissingCreate); }
      next := next.(message := event.message, trace := event.scopes[0].turnId);
    } else if event.wire != Update || event.message != a.message || event.scopes[0].turnId != a.trace {
      return Rejected(RevisionIdentity);
    }
    next := next.(revisions := a.revisions + 1);
    if event.kind == Stream {
      if !setup.streaming { return Rejected(UnexpectedStream); }
      return Going(next.(streams := next.streams + 1));
    }
    if next.phase == 0 && setup.streaming && next.streams == 0 { return Rejected(StreamUnavailable); }
    progress := Going(next.(finals := next.finals + [event],
                            prior := next.prior.(message := next.message, trace := event.scopes[0].turnId)));
  }

  method FinalDeliveryRevisions(events: seq<Event>, setup: Setup) returns (finals: seq<Event>, code: Code)
    ensures code == Verdict(events, setup)
    ensures code == Accepted ==> Run(events, setup).Going? && finals == Run(events, setup).scan.finals
    ensures code != Accepted ==> finals == []
  {
    var scan := Start;
    NeverAcceptsInRun(events, setup);
    for i := 0 to |events|
      invariant Run(events[..i], setup) == Going(scan)
    {
      RunOneMore(events, i, setup);
      var progress;
      if events[i].kind == Input {
        progress := TakeInput(scan, events[i], setup);
      } else {
        progress := TakeRevision(scan, events[i], setup);
      }
      Prefixes(events, i + 1, setup);
      if progress.Rejected? { return [], progress.code; }
      scan := progress.scan;
    }
    assert events[..|events|] == events;
    if |scan.finals| != 2 { return [], TerminalMissing; }
    return scan.finals, Accepted;
  }

  lemma {:induction false} RunOneMore(es: seq<Event>, i: nat, setup: Setup)
    requires i < |es| && Run(es[..i], setup).Going?
    ensures Run(es[..i + 1], setup) == Feed(Run(es[..i], setup).scan, es[i], setup)
  {
    assert es[..i + 1][..i] == es[..i];
  }

  /** A rejected prefix decides the whole list. */
  lemma {:induction false} Prefixes(es: seq<Event>, i: nat, setup: Setup)
    requires i <= |es|
    ensures Run(es[..i], setup).Rejected? ==> Run(es, setup) == Run(es[..i], setup)
    decreases |es|
  {
    if i == |es| {
      assert es[..i] == es;
    } else {
      Prefixes(es[..|es| - 1], i, setup);
      assert es[..|es| - 1][..i] == es[..i];
    }
  }
}
