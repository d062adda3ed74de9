/** The bounded turn engine: what it keeps whatever the transport, the domain and the user model do. */
module Conversation {
  import opened NativeModels
  import opened Options
  import opened Verdicts

  const MAX_EVENTS := 256
  const MAX_FRAMES := 256
  const MAX_BYTES := 2097152
  const MAX_GUIDANCE := 2

  datatype Limits = Limits(maxUserTurns: nat, maxDriverCalls: nat)

  /** Kinds of events: an input that was sent, a partial answer, side chatter, or one of the terminal answers. */
  datatype Kind = Input | Stream | Auxiliary | Final | Question | Approval | Canceled | Stopped

  datatype Event = Event(id: nat, turn: int, kind: Kind, request: string, agent: string, sessionKey: string,
                         scopes: seq<TraceScope>, content: string)

  /** A received frame; `response` is the event it decodes to, if it is a well-formed response. */
  datatype Message = Message(session: string, isError: bool, isResponse: bool, request: string, size: nat,
                             encodes: bool, exposes: bool, response: Option<Event>)

  datatype ActionKind = Say | Finish | Clarify | Cancel | Stop | AllowOnce | Protected | OtherAction

  datatype Check = Fine | Exposed | Broken

  /** What a call to the user model yields. */
  datatype Decision = Decision(called: bool, received: bool, exposes: bool, action: ActionKind)

  /** Which optional observations the domain offers, and whether the case admits a native stop. */
  datatype Domain = Domain(inFlight: bool, observesCancel: bool, observesStop: bool, nativeStop: bool)

  // ------------------------------------------------------------- invariants

  predicate Terminal(kind: Kind) { kind != Input && kind != Stream }

  function Answers(es: seq<Event>): nat {
    if es == [] then 0 else Answers(es[..|es| - 1]) + if Terminal(es[|es| - 1].kind) then 1 else 0
  }

  predicate Numbered(es: seq<Event>) {
    |es| <= MAX_EVENTS && forall i | 0 <= i < |es| :: es[i].id == i + 1
  }

  /** Some input of turn `turn` at or after position `from` carries this request. */
  predicate Asked(es: seq<Event>, from: nat, turn: int, request: string) {
    exists j | from <= j < |es| :: es[j].kind == Input && es[j].turn == turn && es[j].request == request
  }

  predicate AskedBefore(es: seq<Event>, i: int, turn: int, request: string) {
    exists j | 0 <= j < i && j < |es| :: es[j].kind == Input && es[j].turn == turn && es[j].request == request
  }

  predicate Answered(es: seq<Event>, turn: int) {
    exists k | 0 <= k < |es| :: Terminal(es[k].kind) && es[k].turn == turn
  }

  /** Every answer answers an input of its own turn that stands before it. */
  predicate Correlated(es: seq<Event>) {
    forall i | 0 <= i < |es| && es[i].kind != Input :: AskedBefore(es, i, es[i].turn, es[i].request)
  }

  lemma {:induction false} AskedLater(es: seq<Event>, e: Event, from: nat, turn: int, request: string)
    requires Asked(es, from, turn, request)
    ensures Asked(es + [e], from, turn, request)
  {
    var j :| from <= j < |es| && es[j].kind == Input && es[j].turn == turn && es[j].request == request;
    assert (es + [e])[j] == es[j];
  }

  lemma {:induction false} CorrelatedSnoc(es: seq<Event>, e: Event)
    requires Correlated(es) && (e.kind != Input ==> Asked(es, 0, e.turn, e.request))
    ensures Correlated(es + [e])
  {
    var more := es + [e];
    forall i | 0 <= i < |more| && more[i].kind != Input ensures AskedBefore(more, i, more[i].turn, more[i].request) {
      if i < |es| {
        assert AskedBefore(es, i, es[i].turn, es[i].request);
        var j :| 0 <= j < i && es[j].kind == Input && es[j].turn == es[i].turn && es[j].request == es[i].request;
        assert more[j] == es[j];
      } else {
        AskedLater(es, e, 0, e.turn, e.request);
        var j :| 0 <= j < |es| && es[j].kind == Input && es[j].turn == e.turn && es[j].request == e.request;
        assert more[j] == es[j];
      }
    }
  }

  lemma {:induction false} AnswersSnoc(es: seq<Event>, e: Event)
    ensures Answers(es + [e]) == Answers(es) + if Terminal(e.kind) then 1 else 0
  {
    assert (es + [e])[..|es|] == es;
  }

  class Flow {
    const agent: string
    const workspace: string
    const session: string
    const limits: Limits
    const domain: Domain
    /** The transport takes every input and answers at once with a final over the trial's route, and nothing else objects. */
    const helpful: bool
    var events: seq<Event>
    var sessionKey: string
    var driverCalls: nat
    var frames: nat
    var bytes: nat
    var inputs: nat
    var last: Event
    var attempts: nat
    ghost var newest: nat

    ghost predicate Valid()
      reads this
    {
      && Numbered(events) && Correlated(events)
      && inputs <= attempts <= limits.maxUserTurns && driverCalls <= limits.maxDriverCalls
      && frames <= MAX_FRAMES + 1 && bytes <= MAX_BYTES + newest
    }

    constructor (agent: string, workspace: string, session: string, limits: Limits, domain: Domain, helpful: bool)
      ensures Valid() && events == [] && sessionKey == "" && attempts == inputs == 0 && driverCalls == 0
      ensures frames == bytes == 0
      ensures this.limits == limits && this.agent == agent && this.workspace == workspace && this.session == session
      ensures this.domain == domain && this.helpful == helpful
    {
      this.agent, this.workspace, this.session, this.limits := agent, workspace, session, limits;
      this.domain, this.helpful := domain, helpful;
      events, sessionKey, driverCalls, frames, bytes, inputs := [], "", 0, 0, 0, 0;
      last := Event(0, 0, Input, "", "", "", [], "");
      attempts, newest := 0, 0;
    }

    /** The engine may go on: no frame or byte limit was passed, and every send so far succeeded. */
    ghost predicate Going()
      reads this
    {
      Valid() && frames <= MAX_FRAMES && bytes <= MAX_BYTES && attempts == inputs
    }

    /** Names that are not empty. */
    predicate Named() {
      agent != "" && session != "" && CompleteScope(TraceScope(workspace, "turn"))
    }

    /** Where a helpful transport brings `n` more turns to a pass: names that are not empty, and room for their traffic. */
    ghost predicate Roomy(n: nat)
      reads this
    {
      && helpful && !domain.inFlight && Named()
      && inputs + n <= limits.maxUserTurns && |events| + 2 * n <= MAX_EVENTS
      && frames + n <= MAX_FRAMES && bytes + n <= MAX_BYTES
    }

    /** Appends with the next number, unless the transcript is full. */
    method Append(event: Event) returns (ok: bool)
      requires Numbered(events) && Correlated(events)
      requires event.kind != Input ==> Asked(events, 0, event.turn, event.request)
      modifies this`events
      ensures Numbered(events) && Correlated(events)
      ensures ok <==> |old(events)| < MAX_EVENTS
      ensures events == if ok then old(events) + [event.(id := |old(events)| + 1)] else old(events)
      ensures Answers(events) == Answers(old(events)) + if ok && Terminal(event.kind) then 1 else 0
    {
      if |events| >= MAX_EVENTS { return false; }
      var numbered := event.(id := |events| + 1);
      CorrelatedSnoc(events, numbered);
      AnswersSnoc(events, numbered);
      events := events + [numbered];
      ok := true;
    }

    method Send() returns (ok: bool)
      requires attempts < limits.maxUserTurns
      modifies this`attempts
      ensures attempts == old(attempts) + 1 && (helpful ==> ok)
    {
      attempts := attempts + 1;
      ok := *;
      ok := ok || helpful;
    }

    /** Another input while the turn runs; `refused` is sticky and every path that sends counts. */
    method Guide(text: string, number: int, additional: nat, refused: Check, request: string)
      returns (used: nat, refusal: Check, sent: bool)
      requires Going() || refused != Fine
      requires Valid() && additional <= MAX_GUIDANCE
      modifies this
      ensures Valid() && (refusal == Fine ==> Going())
      ensures frames == old(frames) && bytes == old(bytes) && newest == old(newest)
      ensures sessionKey == old(sessionKey) && driverCalls == old(driverCalls) && last == old(last)
      ensures refused != Fine ==> refusal == refused && !sent && attempts == old(attempts)
      ensures additional <= used <= additional + 1 && used <= MAX_GUIDANCE && inputs - old(inputs) == used - additional
      ensures Answers(events) == Answers(old(events))
      ensures events == if sent then old(events) + [Event(|old(events)| + 1, number, Input, request, "", "", [], text)] else old(events)
    {
      used, refusal, sent := additional, refused, false;
      if refused != Fine { return; }
      var bounded: bool, exposes: bool := *, *;
      if additional >= MAX_GUIDANCE || inputs >= limits.maxUserTurns || |events| >= MAX_EVENTS || !bounded {
        refusal := Broken;
        return;
      }
      if exposes {
        refusal := Exposed;
        return;
      }
      used := used + 1;
      inputs := inputs + 1;
      var ok := Send();
      if !ok {
        refusal := Broken;
        return;
      }
      sent := Append(Event(0, number, Input, request, "", "", [], text));
    }

    /** The stop command was sent under this request, at or after position `from`. */
    ghost predicate StopSent(from: nat, request: string)
      reads this`events
    {
      exists i | from <= i < |events| :: events[i].kind == Input && events[i].request == request && events[i].content == "/stop"
    }

    /** The domain sends what it likes, any number of times; a request it names as the stop must have been sent. */
    method InFlight(number: int, terminal: string) returns (verdict: Verdict, awaited: string, stop: bool)
      requires Going() && Asked(events, 0, number, terminal)
      modifies this
      ensures Valid() && (verdict == Pass ==> Going())
      ensures old(events) <= events && Answers(events) == Answers(old(events)) && inputs <= old(inputs) + MAX_GUIDANCE
      ensures old(inputs) <= inputs
      ensures sessionKey == old(sessionKey) && driverCalls == old(driverCalls)
      ensures forall i | |old(events)| <= i < |events| :: events[i].turn == number
      ensures verdict == Pass ==> awaited == terminal || Asked(events, |old(events)|, number, awaited)
      ensures stop ==> domain.observesStop && domain.nativeStop && number == 1 && StopSent(|old(events)|, awaited)
    {
      verdict, awaited, stop := Pass, terminal, false;
      var additional, refusal: Check := 0, Fine;
      var before := |events|;
      var times: int := *;
      for n := 0 to if times < 0 then 0 else times
        invariant Valid() && (refusal == Fine ==> Going()) && additional <= MAX_GUIDANCE
        invariant old(events) <= events && Answers(events) == Answers(old(events)) && inputs == old(inputs) + additional
        invariant sessionKey == old(sessionKey) && driverCalls == old(driverCalls)
        invariant forall i | |old(events)| <= i < |events| :: events[i].turn == number && events[i].kind == Input
      {
        var text: string, request: string := *, *;
        var sent;
        additional, refusal, sent := Guide(text, number, additional, refusal, request);
      }
      var fails: bool := *;
      if refusal == Exposed { return Fail, awaited, false; }
      if refusal != Fine || fails { return Inconclusive, awaited, false; }
      if domain.observesStop && number == 1 {
        if !domain.nativeStop { return Inconclusive, awaited, false; }
        var named: string := *;
        for i := before to |events|
          invariant stop ==> Asked(events, |old(events)|, number, awaited) && StopSent(|old(events)|, awaited)
          invariant !stop ==> awaited == terminal
        {
          if events[i].request == named && events[i].content == "/stop" {
            awaited, stop := named, true;
          }
        }
        if !stop { return Inconclusive, awaited, false; }
      }
    }

    /** Decoding yields a partial answer, side chatter or one of three answers. */
    static predicate Decodes(kind: Kind) {
      kind == Stream || kind == Auxiliary || kind == Final || kind == Question || kind == Approval
    }

    /** What a helpful transport sends for the awaited request. */
    function Reply(awaited: string): Message
      reads this`sessionKey
    {
      var key := if sessionKey == "" then "key" else sessionKey;
      Message(session, false, true, awaited, 1, true, false,
              Some(Event(0, 0, Final, awaited, agent, key, [TraceScope(workspace, "turn")], "")))
    }

    lemma {:induction false} ReplyIsWelcome(awaited: string, number: int)
      requires helpful && Named()
      ensures var e := Reply(awaited).response.value.(turn := number, request := awaited);
              Welcome(e) && !OffRoute(e, sessionKey)
    {
    }

    method Receive(awaited: string) returns (message: Option<Message>)
      ensures message.Some? && message.value.response.Some? ==> Decodes(message.value.response.value.kind)
      ensures helpful ==> message == Some(Reply(awaited))
    {
      if helpful { return Some(Reply(awaited)); }
      message := *;
      if message.Some? && message.value.response.Some? && !Decodes(message.value.response.value.kind) {
        message := Some(message.value.(response := None));
      }
    }

    method Observe() returns (check: Check)
      ensures helpful ==> check == Fine
    {
      check := *;
      if helpful { check := Fine; }
    }

    predicate ScopesOk(e: Event) {
      forall k | 0 <= k < |e.scopes| :: CompleteScope(e.scopes[k]) && e.scopes[k].workspace == workspace
    }

    /** The transcript ends in the terminal answer to an input sent at or after position `from`, over the trial's route. */
    ghost predicate Concluded(from: nat, number: int)
      reads this
    {
      && events != [] && last == events[|events| - 1] && last.turn == number
      && Terminal(last.kind) && last.kind != Auxiliary
      && Asked(events, from, number, last.request)
      && last.agent == agent && last.sessionKey != "" && last.sessionKey == sessionKey && ScopesOk(last)
      && (last.scopes == [] ==> last.kind == Canceled || last.kind == Stopped)
    }

    /** What any part of a turn leaves intact. */
    twostate predicate Keeps(number: int)
      reads this
    {
      && old(events) <= events && (forall i | |old(events)| <= i < |events| :: events[i].turn == number)
      && (old(sessionKey) != "" ==> sessionKey == old(sessionKey))
      && driverCalls == old(driverCalls)
    }

    /** What the observers make of an answer: its final kind, or the reason the turn cannot pass. */
    method Classify(event: Event, action: ActionKind, stop: bool) returns (skip: bool, verdict: Verdict, kind: Kind)
      requires Decodes(event.kind) && event.kind != Auxiliary
      ensures skip ==> stop && event.kind == Stream
      ensures !skip ==> kind != Input && kind != Auxiliary
      ensures !skip && verdict == Pass ==>
                && (kind == event.kind || (event.kind == Final && (kind == Canceled || kind == Stopped)))
                && (kind == Canceled ==> action == Cancel && domain.observesCancel)
                && (kind == Stopped <==> stop)
      ensures helpful && !stop ==> !skip && verdict == Pass
    {
      skip, verdict, kind := false, Pass, event.kind;
      if action == Cancel && kind == Final && domain.observesCancel {
        var check := Observe();
        if check == Exposed { return false, Fail, kind; }
        if check == Broken { return false, Inconclusive, kind; }
        kind := Canceled;
      }
      if stop {
        if kind == Stream { return true, Pass, kind; }
        if kind != Final || event.agent != agent || event.sessionKey == "" || event.scopes != [] {
          return false, Inconclusive, kind;
        }
        var check := Observe();
        if check == Exposed { return false, Fail, kind; }
        if check == Broken { return false, Inconclusive, kind; }
        kind := Stopped;
      }
    }

    /** Whether a frame is the awaited response; anything else is ignored or ends the turn. */
    method Screen(message: Message, awaited: string) returns (event: Option<Event>, done: bool, verdict: Verdict)
      requires message.response.Some? ==> Decodes(message.response.value.kind)
      ensures event.Some? ==> !done && message.request == awaited && event == message.response
      ensures done ==> verdict != Pass
      ensures message == Reply(awaited) && session != "" ==> event == message.response
    {
      event, done, verdict := None, false, Inconclusive;
      if message.exposes { return None, true, Fail; }
      if message.session != "" && message.session != session { return; }
      if message.isError && (message.request == "" || message.request == awaited) { return None, true, Inconclusive; }
      if message.session == "" { return; }
      if message.request != awaited || !message.isResponse { return; }
      if message.response.None? { return None, true, Inconclusive; }
      event := message.response;
    }

    /** Another agent, or another session than the trial's. */
    predicate OffRoute(event: Event, key: string) {
      (event.agent != "" && event.agent != agent) || (key != "" && event.sessionKey != "" && event.sessionKey != key)
    }

    /** The transcript with one more event, if there is room. */
    function Retained(es: seq<Event>, event: Event): seq<Event> {
      if |es| < MAX_EVENTS then es + [event.(id := |es| + 1)] else es
    }

    /** A final that names agent, session and scopes, when nothing objects. */
    ghost predicate Welcome(event: Event) {
      helpful && event.kind == Final && event.agent == agent != "" && event.sessionKey != "" && event.scopes != [] && ScopesOk(event)
    }

    method Consider(event: Event, action: ActionKind, number: int, stop: bool, ghost from: nat)
      returns (done: bool, verdict: Verdict)
      requires Going() && Decodes(event.kind) && event.turn == number && Asked(events, from, number, event.request)
      modifies this`events, this`sessionKey, this`last
      ensures Valid() && Keeps(number)
      ensures Answers(events) <= Answers(old(events)) + 1
      ensures Asked(events, from, number, event.request)
      ensures !done ==> Answers(events) == Answers(old(events))
      ensures done && verdict == Pass ==> Concluded(from, number) && Answers(events) == Answers(old(events)) + 1
      ensures !ScopesOk(event) || (event.kind != Auxiliary && OffRoute(event, old(sessionKey))) ==>
                done && verdict == Fail && events == Retained(old(events), event)
      ensures ScopesOk(event) && event.kind == Auxiliary ==> !done && events == old(events)
      ensures Welcome(event) && !stop && |old(events)| < MAX_EVENTS && !OffRoute(event, old(sessionKey)) ==>
                done && verdict == Pass && |events| == |old(events)| + 1
    {
      done, verdict := true, Inconclusive;
      if !ScopesOk(event) {
        Refuse(event, number, from);
        return true, Fail;
      }
      if event.kind == Auxiliary { return false, Pass; }
      if OffRoute(event, sessionKey) {
        Refuse(event, number, from);
        return true, Fail;
      }
      done, verdict := Resolve(event, action, number, stop, from);
    }

    /** A response over the right route: what the observers make of it decides. */
    method Resolve(event: Event, action: ActionKind, number: int, stop: bool, ghost from: nat)
      returns (done: bool, verdict: Verdict)
      requires Going() && Decodes(event.kind) && event.kind != Auxiliary && event.turn == number
      requires Asked(events, from, number, event.request) && ScopesOk(event) && !OffRoute(event, sessionKey)
      modifies this`events, this`sessionKey, this`last
      ensures Valid() && Keeps(number)
      ensures Answers(events) <= Answers(old(events)) + 1
      ensures Asked(events, from, number, event.request)
      ensures !done ==> Answers(events) == Answers(old(events))
      ensures done && verdict == Pass ==> Concluded(from, number) && Answers(events) == Answers(old(events)) + 1
      ensures Welcome(event) && !stop && |old(events)| < MAX_EVENTS ==> done && verdict == Pass && |events| == |old(events)| + 1
    {
      var skip, outcome, kind := Classify(event, action, stop);
      if skip { return false, Pass; }
      if outcome != Pass {
        Refuse(event.(kind := kind), number, from);
        return true, outcome;
      }
      done, verdict := Accept(event.(kind := kind), number, from);
    }

    lemma {:induction false} KeepAsked(e: Event, from: nat, number: int)
      requires Asked(events, from, number, e.request)
      ensures Asked(events + [e.(id := |events| + 1)], from, number, e.request)
    {
      AskedLater(events, e.(id := |events| + 1), from, number, e.request);
    }

    /** Appends an answer; what was asked stays asked. */
    method Note(event: Event, number: int, ghost from: nat) returns (ok: bool)
      requires Going() && event.kind != Input && event.turn == number && Asked(events, from, number, event.request)
      modifies this`events
      ensures Going() && Keeps(number) && Asked(events, from, number, event.request)
      ensures ok <==> |old(events)| < MAX_EVENTS
      ensures events == Retained(old(events), event)
      ensures Answers(events) == Answers(old(events)) + if ok && Terminal(event.kind) then 1 else 0
    {
      KeepAsked(event, from, number);
      assert Asked(events, 0, event.turn, event.request);
      ok := Append(event);
    }

    /** Keeps the event a failed turn ends with, if there is room. */
    method Refuse(event: Event, number: int, ghost from: nat)
      requires Going() && event.kind != Input && event.turn == number && Asked(events, from, number, event.request)
      modifies this`events
      ensures Going() && Keeps(number) && Asked(events, from, number, event.request)
      ensures Answers(events) <= Answers(old(events)) + 1 && events == Retained(old(events), event)
    {
      var ok := Note(event, number, from);
    }

    /** An answer with everything a turn needs to pass, when nothing objects. */
    ghost predicate Closing(event: Event) {
      helpful && event.kind != Stream && event.agent == agent != "" && event.sessionKey != "" && event.scopes != []
    }

    method Accept(event: Event, number: int, ghost from: nat) returns (done: bool, verdict: Verdict)
      requires Going() && event.kind != Input && event.kind != Auxiliary && event.turn == number
      requires Asked(events, from, number, event.request) && ScopesOk(event)
      requires !OffRoute(event, sessionKey)
      modifies this`events, this`sessionKey, this`last
      ensures Valid() && Keeps(number)
      ensures Answers(events) <= Answers(old(events)) + 1
      ensures Asked(events, from, number, event.request)
      ensures !done ==> Answers(events) == Answers(old(events))
      ensures done && verdict == Pass ==> Concluded(from, number) && Answers(events) == Answers(old(events)) + 1
      ensures Closing(event) && |old(events)| < MAX_EVENTS ==> done && verdict == Pass && |events| == |old(events)| + 1
    {
      var ok := Note(event, number, from);
      if !ok { return true, Inconclusive; }
      if event.kind == Stream { return false, Pass; }
      verdict := Conclude(event, number, from);
      done := true;
    }

    /** Takes the answer just appended as the turn's last word, if the domain's evidence agrees. */
    method Conclude(event: Event, number: int, ghost from: nat) returns (verdict: Verdict)
      requires Going() && events != [] && events[|events| - 1] == event.(id := |events|)
      requires event.kind != Input && event.kind != Auxiliary && event.kind != Stream && event.turn == number
      requires Asked(events, from, number, event.request) && ScopesOk(event)
      requires !OffRoute(event, sessionKey)
      modifies this`sessionKey, this`last
      ensures Valid() && (old(sessionKey) != "" ==> sessionKey == old(sessionKey))
      ensures verdict == Pass ==> Concluded(from, number)
      ensures Closing(event) ==> verdict == Pass
    {
      if event.agent == "" || event.sessionKey == "" ||
         (event.scopes == [] && event.kind != Canceled && event.kind != Stopped) {
        return Inconclusive;
      }
      sessionKey := event.sessionKey;
      last := events[|events| - 1];
      var check := Observe();
      if check == Exposed { return Fail; }
      if check == Broken { return Inconclusive; }
      return Pass;
    }

    /** Sends the turn's own input and lets the domain add to it. */
    method Open(number: int) returns (verdict: Verdict, awaited: string, stop: bool)
      requires Going()
      modifies this
      ensures Valid() && Keeps(number) && Answers(events) == Answers(old(events))
      ensures old(inputs) <= inputs && (Answers(events) != Answers(old(events)) || verdict == Pass ==> old(inputs) < inputs)
      ensures verdict == Pass ==> Going() && Asked(events, |old(events)|, number, awaited)
      ensures old(Roomy(1)) ==>
                && verdict == Pass && !stop && |events| == |old(events)| + 1 && inputs == old(inputs) + 1
                && frames == old(frames) && bytes == old(bytes)
    {
      verdict, awaited, stop := Inconclusive, "", false;
      if inputs >= limits.maxUserTurns { return; }
      var refused: Check, exposes: bool, request: string, text: string := *, *, *, *;
      if helpful { refused, exposes := Fine, false; }
      if refused == Exposed || (refused == Fine && exposes) { return Fail, awaited, false; }
      if refused == Broken { return; }
      var ok := Submit(number, request, text);
      if !ok { return; }
      awaited, verdict := request, Pass;
      if domain.inFlight {
        verdict, awaited, stop := InFlight(number, request);
      }
    }

    /** Sends an input and, once it is sent, counts and records it. */
    method Submit(number: int, request: string, text: string) returns (ok: bool)
      requires Going() && inputs < limits.maxUserTurns
      modifies this`events, this`inputs, this`attempts
      ensures Valid() && old(events) <= events && Answers(events) == Answers(old(events)) && inputs >= old(inputs)
      ensures forall i | |old(events)| <= i < |events| :: events[i].turn == number
      ensures ok ==> Going() && inputs == old(inputs) + 1 && Asked(events, |old(events)|, number, request)
      ensures helpful && |old(events)| < MAX_EVENTS ==> ok && |events| == |old(events)| + 1
    {
      ok := Send();
      if !ok { return; }
      inputs := inputs + 1;
      ok := Append(Event(0, number, Input, request, "", "", [], text));
      if ok {
        ghost var from := |old(events)|;
        assert events[from].kind == Input && events[from].turn == number && events[from].request == request;
      }
    }

    /** What `n` turns with a helpful transport take up. */
    twostate predicate Used(n: nat)
      reads this
    {
      && inputs == old(inputs) + n && |events| == |old(events)| + 2 * n
      && frames == old(frames) + n && bytes == old(bytes) + n
    }

    /**
     * One turn. It passes only with a terminal answer to an input of its own, and it ends whatever arrives:
     * every frame counts against the limit, and a frame past a limit ends it.
     */
    method Turn(action: ActionKind, number: int) returns (verdict: Verdict)
      requires Going()
      modifies this
      ensures Valid() && Keeps(number)
      ensures verdict == Pass ==> Going() && Concluded(|old(events)|, number) && inputs > old(inputs)
      ensures Answers(events) - Answers(old(events)) <= (if inputs > old(inputs) then 1 else 0)
      ensures verdict == Pass ==> Answers(events) == Answers(old(events)) + 1
      ensures inputs >= old(inputs)
      ensures old(Roomy(1)) ==> verdict == Pass && Used(1)
    {
      ghost var from := |old(events)|;
      var awaited, stop;
      verdict, awaited, stop := Open(number);
      if verdict != Pass { return; }
      while true
        invariant Going() && Keeps(number) && Asked(events, from, number, awaited)
        invariant Answers(events) == Answers(old(events)) && inputs > old(inputs)
        invariant old(Roomy(1)) ==>
                    && !stop && |events| == |old(events)| + 1 && inputs == old(inputs) + 1
                    && frames == old(frames) && bytes == old(bytes)
        decreases MAX_FRAMES - frames
      {
        var done;
        done, verdict := Exchange(action, number, awaited, stop, from);
        if done { return; }
      }
    }

    /** Receives one frame and deals with it. */
    method Exchange(action: ActionKind, number: int, awaited: string, stop: bool, ghost from: nat)
      returns (done: bool, verdict: Verdict)
      requires Going() && Asked(events, from, number, awaited)
      modifies this
      ensures Valid() && Keeps(number) && Asked(events, from, number, awaited)
      ensures inputs == old(inputs)
      ensures Answers(events) <= Answers(old(events)) + 1
      ensures !done ==> Going() && frames == old(frames) + 1 && Answers(events) == Answers(old(events))
      ensures done && verdict == Pass ==> Going() && Concluded(from, number) && Answers(events) == Answers(old(events)) + 1
      ensures helpful && Named() && !stop && |old(events)| < MAX_EVENTS && old(frames) < MAX_FRAMES && old(bytes) < MAX_BYTES ==>
                && done && verdict == Pass && |events| == |old(events)| + 1
                && frames == old(frames) + 1 && bytes == old(bytes) + 1
    {
      var message := Receive(awaited);
      if message.None? { return true, Inconclusive; }
      frames := frames + 1;
      bytes := bytes + message.value.size;
      newest := message.value.size;
      if !message.value.encodes || frames > MAX_FRAMES || bytes > MAX_BYTES { return true, Inconclusive; }
      done, verdict := Deal(message.value, action, number, awaited, stop, from);
    }

    /** Screens a metered frame and considers it if it is the awaited response. */
    method Deal(message: Message, action: ActionKind, number: int, awaited: string, stop: bool, ghost from: nat)
      returns (done: bool, verdict: Verdict)
      requires Going() && Asked(events, from, number, awaited)
      requires message.response.Some? ==> Decodes(message.response.value.kind)
      modifies this`events, this`sessionKey, this`last
      ensures Valid() && Keeps(number) && Asked(events, from, number, awaited)
      ensures Answers(events) <= Answers(old(events)) + 1
      ensures !done ==> Answers(events) == Answers(old(events))
      ensures done && verdict == Pass ==> Concluded(from, number) && Answers(events) == Answers(old(events)) + 1
      ensures helpful && Named() && !stop && |old(events)| < MAX_EVENTS && message == old(Reply(awaited)) ==>
                done && verdict == Pass && |events| == |old(events)| + 1
    {
      if helpful && Named() && message == Reply(awaited) { ReplyIsWelcome(awaited, number); }
      var event;
      event, done, verdict := Screen(message, awaited);
      if done || event.None? { return; }
      done, verdict := Consider(event.value.(turn := number, request := message.request), action, number, stop, from);
    }

    method Decide() returns (decision: Decision)
      ensures helpful ==> decision == Decision(true, true, false, Finish)
    {
      decision := *;
      if helpful { decision := Decision(true, true, false, Finish); }
    }

    /** The user model's turns: every pass is a finished or a canceled interaction, and calls stay within their limit. */
    method AdaptiveFollowups() returns (verdict: Verdict)
      requires Going() && OneRoute(events, sessionKey) && Answers(events) <= inputs
      requires events != [] && last == events[|events| - 1]
      modifies this
      ensures Valid() && Answers(events) <= inputs
      ensures verdict == Pass ==> OneRoute(events, sessionKey) && Completed()
      ensures verdict == Pass ==> last.kind == Final || last.kind == Canceled
    {
      var number := 1;
      while number < limits.maxUserTurns
        invariant Going() && OneRoute(events, sessionKey) && Answers(events) <= inputs
        invariant events != [] && last == events[|events| - 1]
      {
        number := number + 1;
        if driverCalls >= limits.maxDriverCalls { return Inconclusive; }
        var decision := Decide();
        if decision.called { driverCalls := driverCalls + 1; }
        if !decision.received { return if decision.called && decision.exposes then Fail else Error; }
        if decision.exposes { return Fail; }
        if decision.action == Stop { return Inconclusive; }
        verdict := Play(decision.action, number);
        if verdict != Pass { return; }
        if decision.action == Finish || decision.action == AllowOnce {
          return if last.kind != Final then Inconclusive else Pass;
        }
        if decision.action == Cancel && last.kind == Canceled { return Pass; }
      }
      verdict := Inconclusive;
    }

    /** The transcript ends in a terminal answer that closes its turn over the trial's one route. */
    ghost predicate Completed()
      reads this
    {
      && events != [] && last == events[|events| - 1] && Terminal(last.kind)
      && AskedBefore(events, |events| - 1, last.turn, last.request)
      && last.agent == agent && last.sessionKey == sessionKey != ""
    }

    /** A turn, with what it means for the whole transcript. */
    method Play(action: ActionKind, number: int) returns (verdict: Verdict)
      requires Going() && OneRoute(events, sessionKey) && Answers(events) <= inputs
      modifies this
      ensures Valid() && Answers(events) <= inputs && driverCalls == old(driverCalls)
      ensures old(events) <= events
      ensures verdict == Pass ==> Going() && OneRoute(events, sessionKey) && Completed() && last.turn == number
      ensures old(Roomy(1)) ==> verdict == Pass && Used(1)
    {
      verdict := Turn(action, number);
      if verdict == Pass {
        RouteKept(old(events), events, old(sessionKey), sessionKey);
        assert AskedBefore(events, |events| - 1, last.turn, last.request) by {
          var j :| |old(events)| <= j < |events| && events[j].kind == Input && events[j].turn == number && events[j].request == last.request;
          assert j < |events| - 1;
        }
      }
    }

    lemma {:induction false} AnsweredStay(before: seq<Event>, below: int)
      requires before <= events && forall n | 2 <= n < below :: Answered(before, n)
      ensures forall n | 2 <= n < below :: Answered(events, n)
    {
      forall n | 2 <= n < below ensures Answered(events, n) {
        assert Answered(before, n);
        var k :| 0 <= k < |before| && Terminal(before[k].kind) && before[k].turn == n;
        assert events[k] == before[k];
      }
    }

    /** One scripted step: the answer it waits for, what stands between turns, and its turn. */
    method ScriptedStep(action: ActionKind, number: int) returns (verdict: Verdict)
      requires Going() && OneRoute(events, sessionKey) && Answers(events) <= inputs
      modifies this
      ensures Valid() && Answers(events) <= inputs && driverCalls == old(driverCalls) && old(events) <= events
      ensures verdict == Pass ==>
                Going() && OneRoute(events, sessionKey) && Completed() && action != Stop && last.turn == number
      ensures old(Roomy(1)) && action != Stop ==> verdict == Pass && Used(1)
    {
      var expected: bool := *;
      if !expected && !helpful { return Fail; }
      if action == Stop { return Inconclusive; }
      var boundary := Observe();
      if boundary == Exposed { return Fail; }
      if boundary == Broken { return Inconclusive; }
      verdict := Play(action, number);
    }

    /** The scripted steps; each needs the answer it waits for. */
    method ScriptedSteps(steps: seq<ActionKind>) returns (verdict: Verdict)
      requires Going() && OneRoute(events, sessionKey) && Answers(events) <= inputs && Completed()
      modifies this
      ensures Valid() && Answers(events) <= inputs && driverCalls == old(driverCalls)
      ensures verdict == Pass ==> OneRoute(events, sessionKey) && Completed()
      ensures verdict == Pass ==>
                Stop !in steps && forall n | 2 <= n < |steps| + 2 :: Answered(events, n)
      ensures old(Roomy(|steps|)) ==> (verdict == Pass <==> Stop !in steps)
    {
      verdict := Pass;
      for index := 0 to |steps|
        invariant Going() && OneRoute(events, sessionKey) && Answers(events) <= inputs && Completed()
        invariant verdict == Pass && driverCalls == old(driverCalls)
        invariant Stop !in steps[..index] && forall n | 2 <= n < index + 2 :: Answered(events, n)
        invariant old(Roomy(|steps|)) ==> Roomy(|steps| - index)
      {
        ghost var before := events;
        verdict := ScriptedStep(steps[index], index + 2);
        if verdict != Pass { return; }
        AnsweredStay(before, index + 2);
        assert events[|events| - 1] == last;
        assert steps[..index + 1] == steps[..index] + [steps[index]];
      }
      assert steps[..|steps|] == steps;
    }
  }

  /** Every terminal answer came over one session. */
  predicate OneRoute(es: seq<Event>, sessionKey: string) {
    && (forall i | 0 <= i < |es| && Terminal(es[i].kind) :: es[i].sessionKey == sessionKey)
    && (Answers(es) > 0 ==> sessionKey != "")
  }

  lemma {:induction false} NoAnswers(es: seq<Event>, i: nat)
    requires i < |es| && Terminal(es[i].kind)
    ensures Answers(es) >= 1
  {
    if i < |es| - 1 {
      assert es[..|es| - 1][i] == es[i];
      NoAnswers(es[..|es| - 1], i);
    }
  }

  lemma {:induction false} AnswersAdd(a: seq<Event>, b: seq<Event>)
    ensures Answers(a + b) == Answers(a) + Answers(b)
    decreases |b|
  {
    if b == [] {
      assert a + b == a;
    } else {
      assert (a + b)[..|a + b| - 1] == a + b[..|b| - 1];
      AnswersAdd(a, b[..|b| - 1]);
    }
  }

  /** A turn that adds one answer, at the end and over the kept route, keeps the whole transcript on one route. */
  lemma {:induction false} RouteKept(before: seq<Event>, after: seq<Event>, was: string, now: string)
    requires before <= after && OneRoute(before, was) && (was != "" ==> now == was)
    requires Answers(after) == Answers(before) + 1
    requires |before| < |after| && Terminal(after[|after| - 1].kind) && after[|after| - 1].sessionKey == now != ""
    ensures OneRoute(after, now)
  {
    var middle, last := after[|before|..|after| - 1], after[|after| - 1];
    assert after[..|after| - 1] == before + middle;
    AnswersAdd(before, middle);
    assert Answers(middle) == 0;
    forall i | 0 <= i < |after| && Terminal(after[i].kind) ensures after[i].sessionKey == now {
      if i < |before| {
        assert before[i] == after[i];
        NoAnswers(before, i);
      } else if i < |after| - 1 {
        assert middle[i - |before|] == after[i];
        NoAnswers(middle, i - |before|);
      }
    }
  }

  datatype Trial = Trial(events: seq<Event>, sessionKey: string, driverCalls: nat, inputs: nat, frames: nat, verdict: Verdict)

  /**
   * A whole conversation, for every behaviour of transport, domain and user model: sends, model calls, events and
   * frames stay within their limits, every answer answers an earlier input of its own turn and there are no more
   * answers than inputs; a pass ends in a terminal answer, and all answers then came over one session.
   */
  method RunDomainConversation(agent: string, workspace: string, session: string, limits: Limits, domain: Domain,
                               adaptive: bool, steps: seq<ActionKind>, helpful: bool)
    returns (trial: Trial, attempts: nat)
    ensures attempts <= limits.maxUserTurns && trial.inputs <= attempts
    ensures trial.driverCalls <= limits.maxDriverCalls && (!adaptive ==> trial.driverCalls == 0)
    ensures Numbered(trial.events) && trial.frames <= MAX_FRAMES + 1
    ensures Correlated(trial.events) && Answers(trial.events) <= trial.inputs
    ensures trial.verdict == Pass ==>
              && OneRoute(trial.events, trial.sessionKey) && trial.events != []
              && var last := trial.events[|trial.events| - 1];
                 Terminal(last.kind) && last.agent == agent && AskedBefore(trial.events, |trial.events| - 1, last.turn, last.request)
    ensures trial.verdict == Pass && adaptive ==>
              trial.events[|trial.events| - 1].kind == Final || trial.events[|trial.events| - 1].kind == Canceled
    ensures trial.verdict == Pass && !adaptive ==> Stop !in steps && forall n | 2 <= n < |steps| + 2 :: Answered(trial.events, n)
    ensures helpful && !domain.inFlight && agent != "" && session != "" && CompleteScope(TraceScope(workspace, "turn")) && !adaptive
            && |steps| < limits.maxUserTurns && |steps| < MAX_EVENTS / 2 ==>
              (trial.verdict == Pass <==> Stop !in steps)
  {
    var flow := new Flow(agent, workspace, session, limits, domain, helpful);
    var verdict := flow.Play(Say, 1);
    if verdict == Pass {
      if adaptive {
        verdict := flow.AdaptiveFollowups();
      } else {
        verdict := flow.ScriptedSteps(steps);
      }
    }
    trial := Trial(flow.events, flow.sessionKey, flow.driverCalls, flow.inputs, flow.frames, verdict);
    attempts := flow.attempts;
  }
}
