/** The bounded record of wire frames for the two owned requests, and its check against the transcript. */
module DeliveryWire {
  import opened Delivery
  import opened Options
  import opened Text

  const MAX_FRAMES := 256
  const MAX_BYTES := 2 * 1024 * 1024

  datatype WireCode = NoCode | RequestLimit | UnexpectedFinal | LimitReached | ScopeInvalid | Observed | Incomplete

  datatype Frame = Frame(session: string, event: Event)

  /**
   * A message as the reader sees it: its envelope, the size of its encoding (`None` when it does not encode)
   * and the event it projects to (`None` when it does not parse). The turn of the event is set on observation.
   */
  datatype Message = Message(wire: Wire, session: string, request: string, size: Option<nat>, event: Option<Event>)

  /** Projected events keep the request of their message and are messages of the observed types. */
  predicate Projects(m: Message) {
    m.event.Some? ==> m.event.value.request == m.request && m.event.value.wire == m.wire
  }

  datatype Evidence = Evidence(code: WireCode, complete: bool, bytes: nat, requests: seq<string>, frames: seq<Frame>)

  datatype Recorded = Recorded(session: string, requests: seq<string>, frames: seq<Frame>, count: nat, bytes: nat, code: WireCode)

  /** What every history of registrations and observations keeps. */
  ghost predicate Inv(r: Recorded) {
    && |r.requests| <= 2
    && (forall i | 0 <= i < |r.requests| :: ValidId(r.requests[i]))
    && (|r.requests| == 2 ==> r.requests[0] != r.requests[1])
    && |r.frames| <= r.count && |r.frames| <= MAX_FRAMES
    && (r.code == NoCode ==> r.count <= MAX_FRAMES && r.bytes <= MAX_BYTES)
    && r.code != Observed && r.code != Incomplete
    && (forall i | 0 <= i < |r.frames| :: FrameOwned(r, r.frames[i]))
  }

  /** A retained frame belongs to a registered request, carries its turn, and is not auxiliary. */
  predicate FrameOwned(r: Recorded, f: Frame) {
    && f.session == r.session
    && f.event.kind != Auxiliary
    && 1 <= f.event.turn <= |r.requests|
    && f.event.request == r.requests[f.event.turn - 1]
  }

  /** A failure is never forgotten, and nothing recorded is rewritten. */
  predicate Extends(r: Recorded, t: Recorded) {
    && t.session == r.session
    && r.requests <= t.requests && r.frames <= t.frames
    && r.count <= t.count && r.bytes <= t.bytes
    && (r.code != NoCode ==> t.code != NoCode && t.frames == r.frames && t.requests == r.requests)
  }

  lemma {:induction false} MeteredKeepsInv(r: Recorded, t: Recorded)
    requires Inv(r) && t == r.(count := t.count, bytes := t.bytes, code := t.code)
    requires r.count <= t.count && t.code != Observed && t.code != Incomplete
    requires t.code == NoCode ==> t.count <= MAX_FRAMES && t.bytes <= MAX_BYTES
    ensures Inv(t)
  {
    forall i | 0 <= i < |t.frames| ensures FrameOwned(t, t.frames[i]) {
      assert FrameOwned(r, r.frames[i]);
    }
  }

  lemma {:induction false} RetainedKeepsInv(r: Recorded, f: Frame)
    requires Inv(r) && FrameOwned(r, f) && |r.frames| < r.count && r.code == NoCode
    ensures Inv(r.(frames := r.frames + [f]))
  {
    var t := r.(frames := r.frames + [f]);
    forall i | 0 <= i < |t.frames| ensures FrameOwned(t, t.frames[i]) {
      assert i < |r.frames| ==> FrameOwned(r, r.frames[i]);
    }
  }

  function IndexOf(requests: seq<string>, request: string): (i: int)
    ensures -1 <= i < |requests|
    ensures i >= 0 ==> requests[i] == request
    ensures i == -1 <==> request !in requests
  {
    if requests == [] then -1
    else if requests[0] == request then 0
    else
      var i := IndexOf(requests[1..], request);
      if i < 0 then -1 else i + 1
  }

  /** What observing a projected event adds: nothing when auxiliary, else the frame with its turn and number. */
  function Kept(session: string, event: Event, slot: int, before: nat): seq<Frame> {
    if event.kind == Auxiliary then [] else [Frame(session, event.(turn := slot + 1, id := FrameId(before + 1)))]
  }

  predicate Recordable(m: Message) { m.wire == Create || m.wire == Update }

  /** Nothing failed before, and counting this message too keeps both limits. */
  predicate WithinLimits(r: Recorded, m: Message) {
    r.code == NoCode && m.size.Some? && r.count < MAX_FRAMES && r.bytes + m.size.value <= MAX_BYTES
  }

  predicate InScope(r: Recorded, m: Message) {
    m.event.Some? && m.session == r.session
  }

  /** In the session but for no registered request: it may be anything readable but a final. */
  predicate Unexpected(r: Recorded, m: Message) {
    m.session == r.session && (m.event.None? || m.event.value.kind == Final)
  }

  /** The record after a message for the request in `slot`: metered in any case, then refused by limits, by scope, or kept. */
  function Owned(r: Recorded, m: Message, slot: nat): Recorded {
    var metered := r.(count := r.count + 1, bytes := r.bytes + if m.size.Some? then m.size.value else 0);
    if !WithinLimits(r, m) then metered.(code := LimitReached)
    else if !InScope(r, m) then metered.(code := ScopeInvalid)
    else metered.(frames := r.frames + Kept(r.session, m.event.value, slot, |r.frames|))
  }

  lemma {:induction false} OwnedKeepsInv(r: Recorded, m: Message, slot: nat)
    requires Inv(r) && slot < |r.requests| && r.requests[slot] == m.request && Projects(m)
    ensures Inv(Owned(r, m, slot)) && Extends(r, Owned(r, m, slot))
  {
    var metered := r.(count := r.count + 1, bytes := r.bytes + if m.size.Some? then m.size.value else 0);
    var t := Owned(r, m, slot);
    if WithinLimits(r, m) && InScope(r, m) {
      MeteredKeepsInv(r, metered);
      if m.event.value.kind != Auxiliary {
        RetainedKeepsInv(metered, Frame(r.session, m.event.value.(turn := slot + 1, id := FrameId(|r.frames| + 1))));
      }
    } else {
      MeteredKeepsInv(r, t);
    }
  }

  class FinalDeliveryWire {
    const session: string
    var requests: seq<string>
    var frames: seq<Frame>
    var count: nat
    var bytes: nat
    var code: WireCode

    function State(): Recorded
      reads this
    {
      Recorded(session, requests, frames, count, bytes, code)
    }

    constructor (session: string)
      ensures State() == Recorded(session, [], [], 0, 0, NoCode) && Inv(State())
    {
      this.session := session;
      requests, frames, count, bytes, code := [], [], 0, 0, NoCode;
    }

    method Register(id: string, requestSession: string) returns (ok: bool)
      requires Inv(State())
      modifies this
      ensures Inv(State()) && Extends(old(State()), State())
      ensures ok <==> old(code) == NoCode && |old(requests)| < 2 && ValidId(id) && requestSession == session && id !in old(requests)
      ensures ok ==> State() == old(State()).(requests := old(requests) + [id])
      ensures !ok ==> State() == old(State()).(code := RequestLimit)
    {
      if code != NoCode || |requests| >= 2 || !ValidId(id) || requestSession != session || id in requests {
        code := RequestLimit;
        return false;
      }
      requests := requests + [id];
      ok := true;
    }

    method Observe(message: Message) returns (ok: bool)
      requires Inv(State()) && Projects(message)
      modifies this
      ensures Inv(State()) && Extends(old(State()), State())
      ensures ok <==>
                if !Recordable(message) then true
                else if message.request !in old(requests) then !Unexpected(old(State()), message)
                else WithinLimits(old(State()), message) && InScope(old(State()), message)
      ensures State() ==
              if !Recordable(message) then old(State())
              else if message.request !in old(requests) then
                old(State()).(code := if Unexpected(old(State()), message) then UnexpectedFinal else old(code))
              else Owned(old(State()), message, IndexOf(old(requests), message.request))
    {
      if message.wire != Create && message.wire != Update { return true; }
      var slot := IndexOf(requests, message.request);
      if slot < 0 {
        if message.session == session {
          if message.event.None? || message.event.value.kind == Final {
            code := UnexpectedFinal;
            return false;
          }
        }
        return true;
      }
      OwnedKeepsInv(State(), message, slot);
      ok := ObserveOwned(message, slot);
    }

    /** The frame answers the request registered in `slot`. */
    method ObserveOwned(message: Message, slot: nat) returns (ok: bool)
      modifies this
      ensures ok <==> WithinLimits(old(State()), message) && InScope(old(State()), message)
      ensures State() == Owned(old(State()), message, slot)
    {
      bytes := bytes + if message.size.Some? then message.size.value else 0;
      count := count + 1;
      if message.size.None? || code != NoCode || count > MAX_FRAMES || bytes > MAX_BYTES {
        code := LimitReached;
        return false;
      }
      if message.event.None? || message.session != session {
        code := ScopeInvalid;
        return false;
      }
      ok := true;
      var event := message.event.value.(turn := slot + 1);
      if event.kind != Auxiliary {
        event := event.(id := FrameId(|frames| + 1));
        frames := frames + [Frame(message.session, event)];
      }
    }

    method Snapshot(closed: bool) returns (evidence: Evidence)
      requires Inv(State())
      ensures evidence.complete <==> closed && code == NoCode && |requests| == 2
      ensures evidence.complete <==> evidence.code == Observed
      ensures evidence.code != NoCode
      ensures evidence.requests == requests && evidence.frames == frames && evidence.bytes == bytes
    {
      var reported := code;
      var complete := closed && reported == NoCode && |requests| == 2;
      if complete {
        reported := Observed;
      } else if reported == NoCode {
        reported := Incomplete;
      }
      evidence := Evidence(reported, complete, bytes, requests, frames);
    }
  }

  /** The identifier of the n-th retained frame. */
  function FrameId(n: nat): string {
    "wire-" + Digits(n, 6)
  }

  function Digits(n: nat, width: nat): string
    decreases n, width
  {
    if n < 10 && width <= 1 then [('0' as int + n) as char]
    else Digits(n / 10, if width > 0 then width - 1 else 0) + [('0' as int + n % 10) as char]
  }

  /** Once a failure is recorded no later snapshot claims completeness. */
  lemma {:induction false} FailureSticks(r: Recorded, t: Recorded, u: Recorded)
    requires Extends(r, t) && Extends(t, u) && r.code != NoCode
    ensures Extends(r, u) && u.code != NoCode
  {
  }

  // ----------------------------------------------- record against transcript

  function Inputs(es: seq<Event>): seq<Event> {
    if es == [] then [] else Inputs(es[..|es| - 1]) + (if es[|es| - 1].kind == Input then [es[|es| - 1]] else [])
  }

  function Finals(es: seq<Event>): seq<Event> {
    if es == [] then [] else Finals(es[..|es| - 1]) + (if es[|es| - 1].kind == Final then [es[|es| - 1]] else [])
  }

  /** The frames of one request, in order. */
  function FramesOf(frames: seq<Frame>, request: string): seq<Event> {
    if frames == [] then []
    else FramesOf(frames[..|frames| - 1], request)
         + (if frames[|frames| - 1].event.request == request then [frames[|frames| - 1].event] else [])
  }

  function Regrouped(inputs: seq<Event>, frames: seq<Frame>): seq<Event>
    requires |inputs| == 2
  {
    [inputs[0]] + FramesOf(frames, inputs[0].request) + ([inputs[1]] + FramesOf(frames, inputs[1].request))
  }

  function Events(frames: seq<Frame>): seq<Event> {
    seq(|frames|, i requires 0 <= i < |frames| => frames[i].event)
  }

  predicate WellBounded(w: Evidence, encoded: nat) {
    && w.code == Observed && w.complete && 1 <= w.bytes <= MAX_BYTES && |w.requests| == 2
    && 2 <= |w.frames| <= MAX_FRAMES && encoded <= 3 * 1024 * 1024
  }

  /** Equal but for the identifier the record assigned. */
  predicate SameButId(a: Event, b: Event) {
    a.(id := b.id) == b
  }

  /** The finals the recogniser names. */
  function FinalsFound(es: seq<Event>, setup: Setup): seq<Event> {
    if Run(es, setup).Going? then Run(es, setup).scan.finals else []
  }

  /** The record, regrouped by request, reads as two whole turns and names the transcript's finals. */
  predicate Agrees(w: Evidence, encoded: nat, session: string, transcript: seq<Event>, setup: Setup,
                   validConversation: seq<Event> -> bool)
  {
    && WellBounded(w, encoded)
    && var inputs, finals := Inputs(transcript), Finals(transcript);
    && |inputs| == 2 && |finals| == 2
    && Bound(w, inputs, session)
    && Delivers(Regrouped(inputs, w.frames), finals, setup, validConversation)
  }

  /** The events are a valid conversation of two whole turns, ending in these finals but for their identifiers. */
  predicate Delivers(observed: seq<Event>, finals: seq<Event>, setup: Setup, validConversation: seq<Event> -> bool)
    requires |finals| == 2
  {
    && validConversation(observed)
    && Verdict(observed, setup) == Accepted
    && var actual := FinalsFound(observed, setup);
    && |actual| == 2 && SameButId(actual[0], finals[0]) && SameButId(actual[1], finals[1])
  }

  method CollectFrames(frames: seq<Frame>, request: string, session: string) returns (ok: bool, events: seq<Event>)
    ensures ok <==> forall i | 0 <= i < |frames| :: frames[i].session == session
    ensures ok ==> events == FramesOf(frames, request)
  {
    events := [];
    for j := 0 to |frames|
      invariant forall i | 0 <= i < j :: frames[i].session == session
      invariant events == FramesOf(frames[..j], request)
    {
      assert frames[..j + 1][..j] == frames[..j];
      if frames[j].session != session { return false, []; }
      if frames[j].event.request == request { events := events + [frames[j].event]; }
    }
    assert frames[..|frames|] == frames;
    ok := true;
  }

  method InputsAndFinals(transcript: seq<Event>) returns (inputs: seq<Event>, finals: seq<Event>)
    ensures inputs == Inputs(transcript) && finals == Finals(transcript)
  {
    inputs, finals := [], [];
    for i := 0 to |transcript|
      invariant inputs == Inputs(transcript[..i]) && finals == Finals(transcript[..i])
    {
      assert transcript[..i + 1][..i] == transcript[..i];
      if transcript[i].kind == Input { inputs := inputs + [transcript[i]]; }
      if transcript[i].kind == Final { finals := finals + [transcript[i]]; }
    }
    assert transcript[..|transcript|] == transcript;
  }

  predicate Bound(w: Evidence, inputs: seq<Event>, session: string)
    requires |inputs| == |w.requests| == 2
  {
    && inputs[0].request == w.requests[0] && inputs[1].request == w.requests[1]
    && (forall i | 0 <= i < |w.frames| :: w.frames[i].session == session)
    && |FramesOf(w.frames, inputs[0].request)| + |FramesOf(w.frames, inputs[1].request)| == |w.frames|
  }

  method Regroup(w: Evidence, inputs: seq<Event>, session: string) returns (code: Code, observed: seq<Event>)
    requires |inputs| == |w.requests| == 2 && w.frames != []
    ensures code == Accepted <==> Bound(w, inputs, session)
    ensures code == Accepted ==> observed == Regrouped(inputs, w.frames)
  {
    observed := [];
    var matched := 0;
    for index := 0 to 2
      invariant forall i | 0 <= i < index :: inputs[i].request == w.requests[i]
      invariant index > 0 ==> forall i | 0 <= i < |w.frames| :: w.frames[i].session == session
      invariant index == 0 ==> observed == [] && matched == 0
      invariant index == 1 ==> observed == [inputs[0]] + FramesOf(w.frames, inputs[0].request)
      invariant index == 1 ==> matched == |FramesOf(w.frames, inputs[0].request)|
      invariant index == 2 ==> observed == Regrouped(inputs, w.frames)
      invariant index == 2 ==> matched == |FramesOf(w.frames, inputs[0].request)| + |FramesOf(w.frames, inputs[1].request)|
    {
      if inputs[index].request != w.requests[index] { return WireBinding, []; }
      var scoped, events := CollectFrames(w.frames, inputs[index].request, session);
      if !scoped { return WireScope, []; }
      observed := observed + ([inputs[index]] + events);
      matched := matched + |events|;
    }
    code := if matched != |w.frames| then WireBinding else Accepted;
  }

  method FinalDeliveryWireCode(w: Evidence, encoded: nat, session: string, transcript: seq<Event>, setup: Setup,
                               validConversation: seq<Event> -> bool)
    returns (code: Code)
    ensures code == Accepted <==> Agrees(w, encoded, session, transcript, setup, validConversation)
  {
    if w.code != Observed || !w.complete || w.bytes < 1 || w.bytes > MAX_BYTES || |w.requests| != 2 ||
       |w.frames| < 2 || |w.frames| > MAX_FRAMES { return WireUnavailable; }
    if encoded > 3 * 1024 * 1024 { return WireLimit; }
    var inputs, finals := InputsAndFinals(transcript);
    if |inputs| != 2 || |finals| != 2 { return WireBinding; }
    var observed: seq<Event>;
    code, observed := Regroup(w, inputs, session);
    if code != Accepted { return; }
    code := CompareFinals(observed, finals, setup, validConversation);
  }

  method CompareFinals(observed: seq<Event>, finals: seq<Event>, setup: Setup, validConversation: seq<Event> -> bool)
    returns (code: Code)
    requires |finals| == 2
    ensures code == Accepted <==> Delivers(observed, finals, setup, validConversation)
  {
    if !validConversation(observed) { return WireBinding; }
    var actual: seq<Event>;
    actual, code := FinalDeliveryRevisions(observed, setup);
    if code != Accepted { return; }
    for index := 0 to 2
      invariant |actual| == 2
      invariant forall i | 0 <= i < index :: SameButId(actual[i], finals[i])
    {
      if actual[index].(id := finals[index].id) != finals[index] { return WireProjection; }
    }
  }

  lemma {:induction false} FramesOfCounts(frames: seq<Frame>, request: string, e: Event)
    ensures multiset(FramesOf(frames, request))[e] == if e.request == request then multiset(Events(frames))[e] else 0
    decreases |frames|
  {
    if frames != [] {
      var front, last := frames[..|frames| - 1], frames[|frames| - 1].event;
      FramesOfCounts(front, request, e);
      assert Events(frames) == Events(front) + [last];
    }
  }

  lemma {:induction false} FramesOfAtMost(frames: seq<Frame>, first: string, second: string)
    requires first != second
    ensures |FramesOf(frames, first)| + |FramesOf(frames, second)| <= |frames|
    ensures |FramesOf(frames, first)| + |FramesOf(frames, second)| == |frames| ==>
              forall i | 0 <= i < |frames| :: frames[i].event.request == first || frames[i].event.request == second
    decreases |frames|
  {
    if frames != [] {
      var front := frames[..|frames| - 1];
      FramesOfAtMost(front, first, second);
      assert forall i | 0 <= i < |front| :: front[i] == frames[i];
    }
  }

  lemma {:induction false} InputsAreInputs(es: seq<Event>)
    ensures forall i | 0 <= i < |Inputs(es)| :: Inputs(es)[i].kind == Input
    decreases |es|
  {
    if es != [] {
      InputsAreInputs(es[..|es| - 1]);
    }
  }

  lemma {:induction false} SecondInputFresh(x: Event, xs: seq<Event>, y: Event, ys: seq<Event>, setup: Setup)
    requires y.kind == Input && Verdict([x] + xs + ([y] + ys), setup) == Accepted
    ensures x.request != y.request
  {
    var es := [x] + xs + ([y] + ys);
    AcceptsExactlyTwoTurns(es, setup);
    var k :| TwoTurns(es, k, setup);
    assert es[1 + |xs|] == y && es[0] == x;
    InputsOpenTurns(es, k, setup, 1 + |xs|);
  }

  /** In an accepted record every frame falls into exactly one of the two turns, and none is lost or repeated. */
  lemma {:induction false} AcceptedRecordPartitions(w: Evidence, encoded: nat, session: string, transcript: seq<Event>,
                                                    setup: Setup, validConversation: seq<Event> -> bool)
    requires Agrees(w, encoded, session, transcript, setup, validConversation)
    ensures forall i | 0 <= i < |w.frames| ::
              (w.frames[i].event.request == w.requests[0]) != (w.frames[i].event.request == w.requests[1])
    ensures multiset(Regrouped(Inputs(transcript), w.frames)) == multiset(Inputs(transcript)) + multiset(Events(w.frames))
  {
    var inputs := Inputs(transcript);
    InputsAreInputs(transcript);
    SecondInputFresh(inputs[0], FramesOf(w.frames, inputs[0].request), inputs[1], FramesOf(w.frames, inputs[1].request), setup);
    FramesOfAtMost(w.frames, inputs[0].request, inputs[1].request);
    CountsAddUp(inputs, w.frames);
  }

  lemma {:induction false} CountsAddUp(inputs: seq<Event>, frames: seq<Frame>)
    requires |inputs| == 2 && inputs[0].request != inputs[1].request
    requires forall i | 0 <= i < |frames| ::
               frames[i].event.request == inputs[0].request || frames[i].event.request == inputs[1].request
    ensures multiset(Regrouped(inputs, frames)) == multiset(inputs) + multiset(Events(frames))
  {
    var first, second := FramesOf(frames, inputs[0].request), FramesOf(frames, inputs[1].request);
    forall e: Event ensures multiset(first)[e] + multiset(second)[e] == multiset(Events(frames))[e] {
      FramesOfCounts(frames, inputs[0].request, e);
      FramesOfCounts(frames, inputs[1].request, e);
      if e in Events(frames) {
        var i :| 0 <= i < |frames| && Events(frames)[i] == e;
        assert frames[i].event == e;
      }
    }
    assert multiset(first) + multiset(second) == multiset(Events(frames));
    assert inputs == [inputs[0]] + [inputs[1]];
  }

  /** In two whole turns the only inputs are the first event and the one at the cut, which has a fresh request. */
  lemma {:induction false} InputsOpenTurns(es: seq<Event>, k: nat, setup: Setup, at: nat)
    requires TwoTurns(es, k, setup) && 0 < at < |es|
    ensures es[at].kind == Input <==> at == k
    ensures 0 < k < |es| && es[k].request != es[0].request
  {
    var first, second := es[..k], es[k..];
    if at < k {
      assert RevisionScoped(first[at], setup, 0, first[0].request, Nobody);
    } else if at > k {
      assert RevisionScoped(second[at - k], setup, 1, second[0].request, PriorOf(first));
    }
    assert second[0] == es[k];
  }
}
