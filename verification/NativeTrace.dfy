/** Recognising one native diagnostic trace: what is projected as observed, and why the validator accepts it. */
module NativeTrace {
  import opened NativeModels
  import opened Options
  import opened Text

  datatype RecordKind = TurnStart | TurnEnd | ModelRequest | ModelResponse | ModelRetry | ModelFallback
                      | OtherModel | OtherRecord

  datatype Payload = Payload(status: string, attempt: int, provider: string, model: string, sources: bool,
                             inputs: Inputs, responseDigest: string, promptTokens: int, responseTokens: int,
                             providerUsage: Option<bool>)

  /**
   * One record. `turnStatus` and `payload` are its data strictly decoded as a turn end and as a model record;
   * `preview` is whether some non-empty preview field is present.
   */
  datatype Record = Record(sequence: int, kind: RecordKind, parses: bool, preview: bool,
                           originKind: string, originID: string, agent: string, sessionHash: string,
                           turn: string, channel: string, attempt: string,
                           turnStatus: Option<string>, payload: Option<Payload>)

  datatype Trace = Trace(id: string, rootTurn: string, agent: string, sessionHash: string,
                         incomplete: bool, dropped: int, reasons: nat, droppedKinds: nat,
                         outcome: Option<string>, records: seq<Record>)

  /** What ties a turn of a trial to its trace; the request names are a sorted list without repeats. */
  datatype Binding = Binding(generation: int, trial: string, caseDigest: string, agent: string,
                             sessionKey: string, scope: TraceScope, requests: set<string>)

  // ------------------------------------------------------ declarative rules

  predicate Whole(trace: Trace, binding: Binding, session: string) {
    && trace.rootTurn == binding.scope.turn && trace.agent == binding.agent && trace.sessionHash == session
    && !trace.incomplete && trace.dropped == 0 && trace.reasons == 0 && trace.droppedKinds == 0
    && trace.outcome.Some? && (Failed(trace.outcome.value) || Finished(trace.outcome.value))
  }

  predicate Failed(status: string) { status == "error" || status == "aborted" }

  predicate Finished(status: string) { status == "completed" || status == "suspended" }

  predicate Owned(r: Record, index: nat, binding: Binding, session: string) {
    && r.sequence == index + 1 && r.parses && !r.preview
    && (r.kind == OtherRecord ||
        (r.originKind == "runtime_event" && r.originID != "" && r.agent == binding.agent && r.sessionHash == session &&
         r.turn == binding.scope.turn && r.channel == "mintclaw"))
  }

  /** Some record of this kind and attempt stands before position `n`. */
  predicate Seen(rs: seq<Record>, n: nat, kind: RecordKind, attempt: string)
    requires n <= |rs|
  {
    exists j | 0 <= j < n :: rs[j].kind == kind && rs[j].attempt == attempt
  }

  predicate Ended(rs: seq<Record>, n: nat)
    requires n <= |rs|
  {
    exists j | 0 <= j < n :: rs[j].kind == TurnEnd
  }

  function Occurrences(rs: seq<Record>, n: nat, kind: RecordKind): nat
    requires n <= |rs|
  {
    if n == 0 then 0 else Occurrences(rs, n - 1, kind) + if rs[n - 1].kind == kind then 1 else 0
  }

  /** The call as its request announces it. */
  function Asking(r: Record): Call
    requires r.payload.Some?
  {
    var p := r.payload.value;
    Call(r.attempt, p.provider, p.model, p.inputs, p.sources, "", "", "", NotReturned, None, false)
  }

  /** The call completed by its response. */
  function Fill(call: Call, p: Payload): Call {
    call.(responseProvider := p.provider, responseModel := p.model, responseDigest := p.responseDigest,
          state := if p.providerUsage.None? then LegacyUnknown else if p.providerUsage.value then Reported else Unavailable,
          usage := if p.providerUsage == Some(true) then Some(Usage(p.promptTokens, p.responseTokens)) else call.usage)
  }

  /** The part of a response's acceptance that concerns the response alone. */
  predicate Answer(p: Payload) {
    && p.status == "success" && p.promptTokens >= 0 && p.responseTokens >= 0
    && (p.providerUsage == Some(false) ==> p.promptTokens == 0 && p.responseTokens == 0)
    && (p.provider == "" || BoundedText(p.provider, 128)) && (p.model == "" || BoundedText(p.model, 256))
    && (p.responseDigest == "" || ValidDigest(p.responseDigest))
  }

  /** The rule for one record, in terms of the records before it. */
  predicate Lawful(rs: seq<Record>, i: nat, status: string)
    requires i < |rs|
  {
    var r := rs[i];
    match r.kind
    case TurnStart => i == 0
    case TurnEnd => r.turnStatus == Some(status)
    case ModelFallback => !Ended(rs, i)
    case ModelRequest =>
      && !Ended(rs, i) && r.payload.Some? && !Seen(rs, i, ModelRequest, r.attempt) && ValidRequest(Asking(r))
    case ModelResponse =>
      && !Ended(rs, i) && r.payload.Some? && ValidId(r.attempt) && Seen(rs, i, ModelRequest, r.attempt)
      && !Seen(rs, i, ModelResponse, r.attempt) && !Seen(rs, i, ModelRetry, r.attempt) && Answer(r.payload.value)
    case ModelRetry =>
      && !Ended(rs, i) && r.payload.Some? && Seen(rs, i, ModelRequest, r.attempt)
      && !Seen(rs, i, ModelResponse, r.attempt) && !Seen(rs, i, ModelRetry, r.attempt)
      && r.payload.value.status == "retry" && r.payload.value.attempt >= 1
    case OtherModel => true
    case OtherRecord => true
  }

  predicate LawfulUpTo(rs: seq<Record>, n: nat, binding: Binding, session: string, status: string)
    requires n <= |rs|
  {
    forall i | 0 <= i < n :: Owned(rs[i], i, binding, session) && Lawful(rs, i, status)
  }

  /** Every request got a response or a retry. */
  predicate Settled(rs: seq<Record>) {
    forall i | 0 <= i < |rs| && rs[i].kind == ModelRequest ::
      Seen(rs, |rs|, ModelResponse, rs[i].attempt) || Seen(rs, |rs|, ModelRetry, rs[i].attempt)
  }

  /** The traces that count as evidence. */
  predicate Conforms(trace: Trace, binding: Binding, session: string) {
    var rs := trace.records;
    && Whole(trace, binding, session)
    && LawfulUpTo(rs, |rs|, binding, session, trace.outcome.value)
    && Framed(rs, trace.outcome.value)
  }

  /** One start, one end, and unless the turn failed nothing left open. */
  predicate Framed(rs: seq<Record>, status: string) {
    && Occurrences(rs, |rs|, TurnStart) == 1 && Occurrences(rs, |rs|, TurnEnd) == 1
    && (!Failed(status) ==> Settled(rs))
  }

  /** The positions of the requests, in order. */
  function Requests(rs: seq<Record>, n: nat): (at: seq<nat>)
    requires n <= |rs|
    ensures forall k | 0 <= k < |at| :: at[k] < n && rs[at[k]].kind == ModelRequest
  {
    if n == 0 then [] else Requests(rs, n - 1) + if rs[n - 1].kind == ModelRequest then [n - 1] else []
  }

  /** `call` is what the first `n` records say about the request at `j`. */
  predicate ReportsFrom(rs: seq<Record>, n: nat, j: nat, call: Call)
    requires j < n <= |rs|
  {
    var a := rs[j].attempt;
    && rs[j].payload.Some? && call.attempt == a
    && if call.state == NotReturned then
         call == Asking(rs[j]).(retried := Seen(rs, n, ModelRetry, a)) && !Seen(rs, n, ModelResponse, a)
       else
         && !Seen(rs, n, ModelRetry, a)
         && exists m | j < m < n ::
              rs[m].kind == ModelResponse && rs[m].attempt == a && rs[m].payload.Some?
              && call == Fill(Asking(rs[j]), rs[m].payload.value)
  }

  predicate Reports(rs: seq<Record>, n: nat, calls: seq<Call>)
    requires n <= |rs|
  {
    var at := Requests(rs, n);
    |calls| == |at| && forall k | 0 <= k < |calls| :: ReportsFrom(rs, n, at[k], calls[k])
  }

  // ------------------------------------------------------- the scan's state

  /** Each attempt maps to the position of its only call. */
  ghost predicate Positions(calls: seq<Call>, attempts: map<string, nat>) {
    && (forall a | a in attempts :: attempts[a] < |calls| && calls[attempts[a]].attempt == a)
    && (forall k | 0 <= k < |calls| :: calls[k].attempt in attempts && attempts[calls[k].attempt] == k)
  }

  ghost predicate Known(rs: seq<Record>, n: nat, attempts: map<string, nat>)
    requires n <= |rs|
  {
    forall a :: Seen(rs, n, ModelRequest, a) <==> a in attempts
  }

  ghost predicate Tracks(rs: seq<Record>, n: nat, calls: seq<Call>, attempts: map<string, nat>)
    requires n <= |rs|
  {
    && Positions(calls, attempts) && Reports(rs, n, calls) && Known(rs, n, attempts)
    && Retried(calls) == Occurrences(rs, n, ModelRetry)
  }

  lemma {:induction false} SeenSnoc(rs: seq<Record>, n: nat, kind: RecordKind, a: string)
    requires n < |rs|
    ensures Seen(rs, n + 1, kind, a) <==> Seen(rs, n, kind, a) || (rs[n].kind == kind && rs[n].attempt == a)
  {
  }

  /** A record about something else leaves what is known of a call as it was. */
  lemma {:induction false} ReportPersists(rs: seq<Record>, n: nat, j: nat, call: Call)
    requires j < n < |rs| && ReportsFrom(rs, n, j, call)
    requires (rs[n].kind == ModelResponse || rs[n].kind == ModelRetry) ==> rs[n].attempt != call.attempt
    ensures ReportsFrom(rs, n + 1, j, call)
  {
    SeenSnoc(rs, n, ModelRetry, call.attempt);
    SeenSnoc(rs, n, ModelResponse, call.attempt);
  }

  lemma {:induction false} RequestsSeen(rs: seq<Record>, n: nat, calls: seq<Call>, attempts: map<string, nat>, k: nat)
    requires n <= |rs| && Tracks(rs, n, calls, attempts) && k < |calls|
    ensures calls[k].state != NotReturned <==> Seen(rs, n, ModelResponse, calls[k].attempt)
    ensures calls[k].retried <==> Seen(rs, n, ModelRetry, calls[k].attempt)
  {
    assert ReportsFrom(rs, n, Requests(rs, n)[k], calls[k]);
  }

  lemma {:induction false} KnownSnoc(rs: seq<Record>, n: nat, attempts: map<string, nat>, position: nat)
    requires n < |rs| && Known(rs, n, attempts)
    ensures rs[n].kind != ModelRequest ==> Known(rs, n + 1, attempts)
    ensures rs[n].kind == ModelRequest ==> Known(rs, n + 1, attempts[rs[n].attempt := position])
  {
    forall a: string
      ensures Seen(rs, n + 1, ModelRequest, a) <==> Seen(rs, n, ModelRequest, a) || (rs[n].kind == ModelRequest && rs[n].attempt == a)
    {
      SeenSnoc(rs, n, ModelRequest, a);
    }
  }

  /** Calls the new record is not about stay reported. */
  lemma {:induction false} ReportsPersist(rs: seq<Record>, n: nat, calls: seq<Call>, but: int)
    requires n < |rs| && Reports(rs, n, calls)
    requires (rs[n].kind == ModelResponse || rs[n].kind == ModelRetry) ==>
               forall k | 0 <= k < |calls| && k != but :: calls[k].attempt != rs[n].attempt
    ensures forall k | 0 <= k < |calls| && k != but :: ReportsFrom(rs, n + 1, Requests(rs, n)[k], calls[k])
  {
    forall k | 0 <= k < |calls| && k != but ensures ReportsFrom(rs, n + 1, Requests(rs, n)[k], calls[k]) {
      ReportPersists(rs, n, Requests(rs, n)[k], calls[k]);
    }
  }

  lemma {:induction false} AllValidChanged(calls: seq<Call>, k: nat, call: Call)
    requires AllValid(calls) && k <= |calls| && ValidCall(call)
    ensures AllValid(if k < |calls| then calls[k := call] else calls + [call])
  {
    var more := if k < |calls| then calls[k := call] else calls + [call];
    forall i | 0 <= i < |more| ensures ValidCall(more[i]) {
      assert i != k ==> more[i] == calls[i] && ValidCall(calls[i]);
    }
  }

  lemma {:induction false} PositionsChanged(calls: seq<Call>, attempts: map<string, nat>, call: Call)
    requires Positions(calls, attempts)
    ensures call.attempt in attempts ==> Positions(calls[attempts[call.attempt] := call], attempts)
    ensures call.attempt !in attempts ==> Positions(calls + [call], attempts[call.attempt := |calls|])
  {
  }

  /** Records that are neither requests, responses nor retries change nothing. */
  lemma {:induction false} OtherTracks(rs: seq<Record>, n: nat, calls: seq<Call>, attempts: map<string, nat>)
    requires n < |rs| && Tracks(rs, n, calls, attempts)
    requires rs[n].kind != ModelRequest && rs[n].kind != ModelResponse && rs[n].kind != ModelRetry
    ensures Tracks(rs, n + 1, calls, attempts)
  {
    ReportsPersist(rs, n, calls, -1);
    KnownSnoc(rs, n, attempts, 0);
  }

  lemma {:induction false} RequestReports(rs: seq<Record>, n: nat, calls: seq<Call>)
    requires n < |rs| && Reports(rs, n, calls) && rs[n].kind == ModelRequest && rs[n].payload.Some?
    requires !Seen(rs, n, ModelResponse, rs[n].attempt) && !Seen(rs, n, ModelRetry, rs[n].attempt)
    ensures Reports(rs, n + 1, calls + [Asking(rs[n])])
  {
    ReportsPersist(rs, n, calls, -1);
    SeenSnoc(rs, n, ModelResponse, rs[n].attempt);
    SeenSnoc(rs, n, ModelRetry, rs[n].attempt);
    assert ReportsFrom(rs, n + 1, n, Asking(rs[n]));
  }

  lemma {:induction false} RequestTracks(rs: seq<Record>, n: nat, calls: seq<Call>, attempts: map<string, nat>)
    requires n < |rs| && Tracks(rs, n, calls, attempts)
    requires rs[n].kind == ModelRequest && rs[n].payload.Some? && rs[n].attempt !in attempts
    requires !Seen(rs, n, ModelResponse, rs[n].attempt) && !Seen(rs, n, ModelRetry, rs[n].attempt)
    ensures Tracks(rs, n + 1, calls + [Asking(rs[n])], attempts[rs[n].attempt := |calls|])
  {
    RequestReports(rs, n, calls);
    PositionsChanged(calls, attempts, Asking(rs[n]));
    KnownSnoc(rs, n, attempts, |calls|);
    assert (calls + [Asking(rs[n])])[..|calls|] == calls;
  }

  /** Changing one call in place. */
  lemma {:induction false} RetriedAfterUpdate(calls: seq<Call>, k: nat, call: Call)
    requires k < |calls|
    ensures Retried(calls[k := call]) == Retried(calls) - (if calls[k].retried then 1 else 0) + if call.retried then 1 else 0
  {
    var last := |calls| - 1;
    assert calls[k := call][..last] == if k == last then calls[..last] else calls[..last][k := call];
    if k < last {
      RetriedAfterUpdate(calls[..last], k, call);
    }
  }

  lemma {:induction false} UpdateReports(rs: seq<Record>, n: nat, calls: seq<Call>, k: nat, call: Call)
    requires n < |rs| && Reports(rs, n, calls) && k < |calls|
    requires rs[n].kind == ModelResponse || rs[n].kind == ModelRetry
    requires forall i | 0 <= i < |calls| && i != k :: calls[i].attempt != rs[n].attempt
    requires ReportsFrom(rs, n + 1, Requests(rs, n)[k], call)
    ensures Reports(rs, n + 1, calls[k := call])
  {
    ReportsPersist(rs, n, calls, k);
    assert Requests(rs, n + 1) == Requests(rs, n);
  }

  lemma {:induction false} UpdateCounts(rs: seq<Record>, n: nat, calls: seq<Call>, k: nat, call: Call)
    requires n < |rs| && Retried(calls) == Occurrences(rs, n, ModelRetry) && k < |calls|
    requires !calls[k].retried && (call.retried <==> rs[n].kind == ModelRetry)
    ensures Retried(calls[k := call]) == Occurrences(rs, n + 1, ModelRetry)
  {
    RetriedAfterUpdate(calls, k, call);
  }

  lemma {:induction false} UpdateTracks(rs: seq<Record>, n: nat, calls: seq<Call>, attempts: map<string, nat>, k: nat, call: Call)
    requires n < |rs| && Tracks(rs, n, calls, attempts)
    requires rs[n].kind == ModelResponse || rs[n].kind == ModelRetry
    requires rs[n].attempt in attempts && call.attempt == rs[n].attempt && k == attempts[call.attempt]
    requires Retried(calls[k := call]) == Occurrences(rs, n + 1, ModelRetry)
    requires ReportsFrom(rs, n + 1, Requests(rs, n)[k], call)
    ensures Tracks(rs, n + 1, calls[k := call], attempts)
  {
    PositionsChanged(calls, attempts, call);
    KnownSnoc(rs, n, attempts, 0);
    OthersDiffer(calls, attempts, k);
    UpdateReports(rs, n, calls, k, call);
  }

  lemma {:induction false} OthersDiffer(calls: seq<Call>, attempts: map<string, nat>, k: nat)
    requires Positions(calls, attempts) && k < |calls|
    ensures forall i | 0 <= i < |calls| && i != k :: calls[i].attempt != calls[k].attempt
  {
  }

  lemma {:induction false} RetryTracks(rs: seq<Record>, n: nat, calls: seq<Call>, attempts: map<string, nat>)
    requires n < |rs| && Tracks(rs, n, calls, attempts) && rs[n].kind == ModelRetry && rs[n].attempt in attempts
    requires var call := calls[attempts[rs[n].attempt]]; call.state == NotReturned && !call.retried
    ensures var k := attempts[rs[n].attempt]; Tracks(rs, n + 1, calls[k := calls[k].(retried := true)], attempts)
  {
    var k := attempts[rs[n].attempt];
    var j := Requests(rs, n)[k];
    assert ReportsFrom(rs, n, j, calls[k]);
    SeenSnoc(rs, n, ModelRetry, rs[n].attempt);
    SeenSnoc(rs, n, ModelResponse, rs[n].attempt);
    UpdateCounts(rs, n, calls, k, calls[k].(retried := true));
    UpdateTracks(rs, n, calls, attempts, k, calls[k].(retried := true));
  }

  lemma {:induction false} ResponseTracks(rs: seq<Record>, n: nat, calls: seq<Call>, attempts: map<string, nat>)
    requires n < |rs| && Tracks(rs, n, calls, attempts) && rs[n].kind == ModelResponse && rs[n].attempt in attempts
    requires rs[n].payload.Some?
    requires var call := calls[attempts[rs[n].attempt]]; call.state == NotReturned && !call.retried
    ensures var k := attempts[rs[n].attempt]; Tracks(rs, n + 1, calls[k := Fill(calls[k], rs[n].payload.value)], attempts)
  {
    var k := attempts[rs[n].attempt];
    var j := Requests(rs, n)[k];
    assert ReportsFrom(rs, n, j, calls[k]);
    SeenSnoc(rs, n, ModelRetry, rs[n].attempt);
    UpdateCounts(rs, n, calls, k, Fill(calls[k], rs[n].payload.value));
    UpdateTracks(rs, n, calls, attempts, k, Fill(calls[k], rs[n].payload.value));
  }

  /** Only what was asked can be answered or retried. */
  lemma {:induction false} AnswersNeedRequests(rs: seq<Record>, n: nat, binding: Binding, session: string, status: string, a: string)
    requires n <= |rs| && LawfulUpTo(rs, n, binding, session, status)
    requires Seen(rs, n, ModelResponse, a) || Seen(rs, n, ModelRetry, a)
    ensures Seen(rs, n, ModelRequest, a)
  {
    var j :| 0 <= j < n && (rs[j].kind == ModelResponse || rs[j].kind == ModelRetry) && rs[j].attempt == a;
    assert Lawful(rs, j, status);
    var i :| 0 <= i < j && rs[i].kind == ModelRequest && rs[i].attempt == a;
  }

  lemma {:induction false} EndedSnoc(rs: seq<Record>, n: nat)
    requires n < |rs|
    ensures Ended(rs, n + 1) <==> Ended(rs, n) || rs[n].kind == TurnEnd
  {
  }

  // ------------------------------------------------------------ the program

  /** What the scan knows before record `i`. */
  ghost predicate Scanning(rs: seq<Record>, i: nat, binding: Binding, session: string, status: string,
                           calls: seq<Call>, attempts: map<string, nat>, terminal: bool)
    requires i <= |rs|
  {
    LawfulUpTo(rs, i, binding, session, status) && Tracks(rs, i, calls, attempts) && terminal == Ended(rs, i)
  }

  lemma {:induction false} AskingIsValid(r: Record)
    requires r.payload.Some?
    ensures ValidCall(Asking(r)) <==> ValidRequest(Asking(r))
  {
  }

  lemma {:induction false} NewRequestTracks(rs: seq<Record>, i: nat, binding: Binding, session: string, status: string,
                                            calls: seq<Call>, attempts: map<string, nat>)
    requires i < |rs| && LawfulUpTo(rs, i, binding, session, status) && Tracks(rs, i, calls, attempts) && AllValid(calls)
    requires rs[i].kind == ModelRequest && rs[i].payload.Some? && rs[i].attempt !in attempts && ValidCall(Asking(rs[i]))
    ensures Tracks(rs, i + 1, calls + [Asking(rs[i])], attempts[rs[i].attempt := |calls|])
    ensures AllValid(calls + [Asking(rs[i])])
  {
    if Seen(rs, i, ModelResponse, rs[i].attempt) || Seen(rs, i, ModelRetry, rs[i].attempt) {
      AnswersNeedRequests(rs, i, binding, session, status, rs[i].attempt);
    }
    RequestTracks(rs, i, calls, attempts);
    AllValidChanged(calls, |calls|, Asking(rs[i]));
  }

  method ReadRequest(rs: seq<Record>, i: nat, calls: seq<Call>, attempts: map<string, nat>, terminal: bool,
                     ghost binding: Binding, ghost session: string, ghost status: string)
    returns (ok: bool, asked: seq<Call>, known: map<string, nat>)
    requires i < |rs| && rs[i].kind == ModelRequest
    requires Scanning(rs, i, binding, session, status, calls, attempts, terminal) && AllValid(calls)
    ensures ok <==> Lawful(rs, i, status)
    ensures ok ==> Tracks(rs, i + 1, asked, known) && AllValid(asked)
  {
    ok, asked, known := false, calls, attempts;
    var r := rs[i];
    if terminal || !ValidId(r.attempt) || r.payload.None? || r.attempt in attempts { return; }
    var call := Asking(r);
    AskingIsValid(r);
    if !ValidCall(call) { return; }
    NewRequestTracks(rs, i, binding, session, status, calls, attempts);
    ok, asked, known := true, calls + [call], attempts[r.attempt := |calls|];
  }

  method ReadResponse(rs: seq<Record>, i: nat, calls: seq<Call>, attempts: map<string, nat>, terminal: bool, ghost status: string)
    returns (ok: bool, answered: seq<Call>)
    requires i < |rs| && rs[i].kind == ModelResponse
    requires Tracks(rs, i, calls, attempts) && terminal == Ended(rs, i) && AllValid(calls)
    ensures ok <==> Lawful(rs, i, status)
    ensures ok ==> Tracks(rs, i + 1, answered, attempts) && AllValid(answered)
  {
    ok, answered := false, calls;
    var r := rs[i];
    if terminal || !ValidId(r.attempt) || r.payload.None? || r.attempt !in attempts { return; }
    var position, payload := attempts[r.attempt], r.payload.value;
    var call := calls[position];
    RequestsSeen(rs, i, calls, attempts, position);
    if call.state != NotReturned || payload.status != "success" || payload.promptTokens < 0 || payload.responseTokens < 0 {
      return;
    }
    if payload.providerUsage == Some(false) && (payload.promptTokens != 0 || payload.responseTokens != 0) { return; }
    var filled := Fill(call, payload);
    FilledIsValid(calls, position, payload);
    if !ValidCall(filled) { return; }
    ResponseTracks(rs, i, calls, attempts);
    AllValidChanged(calls, position, filled);
    ok, answered := true, calls[position := filled];
  }

  /** On an open call, the validator's verdict on the completed call concerns only the answer and the retry mark. */
  lemma {:induction false} FilledIsValid(calls: seq<Call>, k: nat, p: Payload)
    requires AllValid(calls) && k < |calls| && calls[k].state == NotReturned
    requires p.status == "success" && p.promptTokens >= 0 && p.responseTokens >= 0
    requires p.providerUsage == Some(false) ==> p.promptTokens == 0 && p.responseTokens == 0
    ensures ValidCall(Fill(calls[k], p)) <==> Answer(p) && !calls[k].retried
  {
    assert ValidCall(calls[k]);
  }

  method ReadRetry(rs: seq<Record>, i: nat, calls: seq<Call>, attempts: map<string, nat>, terminal: bool, ghost status: string)
    returns (ok: bool, marked: seq<Call>)
    requires i < |rs| && rs[i].kind == ModelRetry
    requires Tracks(rs, i, calls, attempts) && terminal == Ended(rs, i) && AllValid(calls)
    ensures ok <==> Lawful(rs, i, status)
    ensures ok ==> Tracks(rs, i + 1, marked, attempts) && AllValid(marked)
  {
    ok, marked := false, calls;
    var r := rs[i];
    if terminal || r.attempt !in attempts { return; }
    var position := attempts[r.attempt];
    var call := calls[position];
    RequestsSeen(rs, i, calls, attempts, position);
    if call.state != NotReturned || call.retried || r.payload.None? || r.payload.value.status != "retry" || r.payload.value.attempt < 1 {
      return;
    }
    MarkedTracks(rs, i, calls, attempts);
    ok, marked := true, calls[position := call.(retried := true)];
  }

  lemma {:induction false} MarkedTracks(rs: seq<Record>, i: nat, calls: seq<Call>, attempts: map<string, nat>)
    requires i < |rs| && Tracks(rs, i, calls, attempts) && AllValid(calls)
    requires rs[i].kind == ModelRetry && rs[i].attempt in attempts
    requires var call := calls[attempts[rs[i].attempt]]; call.state == NotReturned && !call.retried
    ensures var k := attempts[rs[i].attempt];
            Tracks(rs, i + 1, calls[k := calls[k].(retried := true)], attempts) && AllValid(calls[k := calls[k].(retried := true)])
  {
    RetryTracks(rs, i, calls, attempts);
    RetriedIsValid(calls, attempts[rs[i].attempt]);
  }

  lemma {:induction false} RetriedIsValid(calls: seq<Call>, k: nat)
    requires AllValid(calls) && k < |calls| && calls[k].state == NotReturned
    ensures AllValid(calls[k := calls[k].(retried := true)])
  {
    assert ValidCall(calls[k]);
    AllValidChanged(calls, k, calls[k].(retried := true));
  }

  predicate AllAnswered(calls: seq<Call>) {
    forall k | 0 <= k < |calls| :: calls[k].state != NotReturned || calls[k].retried
  }

  /** Every open call is either answered or retried exactly when every request is. */
  lemma {:induction false} SettledCalls(rs: seq<Record>, calls: seq<Call>, attempts: map<string, nat>)
    requires Tracks(rs, |rs|, calls, attempts)
    ensures Settled(rs) <==> AllAnswered(calls)
  {
    var at := Requests(rs, |rs|);
    if AllAnswered(calls) {
      forall i | 0 <= i < |rs| && rs[i].kind == ModelRequest
        ensures Seen(rs, |rs|, ModelResponse, rs[i].attempt) || Seen(rs, |rs|, ModelRetry, rs[i].attempt)
      {
        assert Seen(rs, |rs|, ModelRequest, rs[i].attempt);
        RequestsSeen(rs, |rs|, calls, attempts, attempts[rs[i].attempt]);
      }
    }
    if Settled(rs) {
      forall k | 0 <= k < |calls| ensures calls[k].state != NotReturned || calls[k].retried {
        RequestsSeen(rs, |rs|, calls, attempts, k);
        assert ReportsFrom(rs, |rs|, at[k], calls[k]);
      }
    }
  }

  lemma {:induction false} LawfulSnoc(rs: seq<Record>, i: nat, binding: Binding, session: string, status: string)
    requires i < |rs| && LawfulUpTo(rs, i, binding, session, status)
    ensures LawfulUpTo(rs, i + 1, binding, session, status) <==> Owned(rs[i], i, binding, session) && Lawful(rs, i, status)
    ensures LawfulUpTo(rs, |rs|, binding, session, status) ==> LawfulUpTo(rs, i + 1, binding, session, status)
  {
  }

  /** What the scan of all records establishes. */
  ghost predicate Scanned(rs: seq<Record>, calls: seq<Call>) {
    && Reports(rs, |rs|, calls) && AllValid(calls) && DistinctAttempts(calls)
    && Retried(calls) == Occurrences(rs, |rs|, ModelRetry)
    && (Settled(rs) <==> AllAnswered(calls))
  }

  lemma {:induction false} TracksEnd(rs: seq<Record>, calls: seq<Call>, attempts: map<string, nat>)
    requires Tracks(rs, |rs|, calls, attempts) && AllValid(calls)
    ensures Scanned(rs, calls)
  {
    SettledCalls(rs, calls, attempts);
    forall j, k | 0 <= j < k < |calls| ensures calls[j].attempt != calls[k].attempt {
      OthersDiffer(calls, attempts, k);
    }
  }

  method ScanRecords(rs: seq<Record>, binding: Binding, session: string, status: string)
    returns (ok: bool, calls: seq<Call>, retries: nat, start: nat, end: nat)
    ensures ok <==> LawfulUpTo(rs, |rs|, binding, session, status)
    ensures ok ==> Scanned(rs, calls)
    ensures ok ==> start == Occurrences(rs, |rs|, TurnStart) && end == Occurrences(rs, |rs|, TurnEnd)
    ensures ok ==> retries == Occurrences(rs, |rs|, ModelRetry) + Occurrences(rs, |rs|, ModelFallback)
  {
    ok, calls, retries, start, end := true, [], 0, 0, 0;
    var attempts: map<string, nat>, terminal := map[], false;
    for i := 0 to |rs|
      invariant ok && Scanning(rs, i, binding, session, status, calls, attempts, terminal) && AllValid(calls)
      invariant start == Occurrences(rs, i, TurnStart) && end == Occurrences(rs, i, TurnEnd)
      invariant retries == Occurrences(rs, i, ModelRetry) + Occurrences(rs, i, ModelFallback)
    {
      ok, calls, attempts, terminal := Advance(rs, i, calls, attempts, terminal, binding, session, status);
      if !ok { return; }
      start, end, retries := CountRecord(rs, i, start, end, retries);
    }
    TracksEnd(rs, calls, attempts);
  }

  method CountRecord(rs: seq<Record>, i: nat, start: nat, end: nat, retries: nat) returns (starts: nat, ends: nat, retried: nat)
    requires i < |rs|
    requires start == Occurrences(rs, i, TurnStart) && end == Occurrences(rs, i, TurnEnd)
    requires retries == Occurrences(rs, i, ModelRetry) + Occurrences(rs, i, ModelFallback)
    ensures starts == Occurrences(rs, i + 1, TurnStart) && ends == Occurrences(rs, i + 1, TurnEnd)
    ensures retried == Occurrences(rs, i + 1, ModelRetry) + Occurrences(rs, i + 1, ModelFallback)
  {
    starts, ends, retried := start, end, retries;
    if rs[i].kind == TurnStart {
      starts := start + 1;
    } else if rs[i].kind == TurnEnd {
      ends := end + 1;
    } else if rs[i].kind == ModelRetry || rs[i].kind == ModelFallback {
      retried := retries + 1;
    }
  }

  /** One record of the loop: the scan goes on exactly when the records so far are lawful. */
  method Advance(rs: seq<Record>, i: nat, calls: seq<Call>, attempts: map<string, nat>, terminal: bool,
                 binding: Binding, session: string, status: string)
    returns (ok: bool, updated: seq<Call>, known: map<string, nat>, ended: bool)
    requires i < |rs|
    requires Scanning(rs, i, binding, session, status, calls, attempts, terminal) && AllValid(calls)
    ensures ok ==> Scanning(rs, i + 1, binding, session, status, updated, known, ended) && AllValid(updated)
    ensures !ok ==> !LawfulUpTo(rs, |rs|, binding, session, status)
  {
    LawfulSnoc(rs, i, binding, session, status);
    EndedSnoc(rs, i);
    ok, updated, known, ended := ReadRecord(rs, i, calls, attempts, terminal, binding, session, status);
  }

  method ReadRecord(rs: seq<Record>, i: nat, calls: seq<Call>, attempts: map<string, nat>, terminal: bool,
                    binding: Binding, session: string, status: string)
    returns (ok: bool, updated: seq<Call>, known: map<string, nat>, ended: bool)
    requires i < |rs|
    requires Scanning(rs, i, binding, session, status, calls, attempts, terminal) && AllValid(calls)
    ensures ok <==> Owned(rs[i], i, binding, session) && Lawful(rs, i, status)
    ensures ok ==> Tracks(rs, i + 1, updated, known) && AllValid(updated)
    ensures ended == (terminal || rs[i].kind == TurnEnd)
  {
    var r := rs[i];
    updated, known, ended := calls, attempts, terminal || r.kind == TurnEnd;
    if !Owned(r, i, binding, session) { return false, calls, attempts, ended; }
    match r.kind {
      case ModelRequest =>
        ok, updated, known := ReadRequest(rs, i, calls, attempts, terminal, binding, session, status);
      case ModelResponse =>
        ok, updated := ReadResponse(rs, i, calls, attempts, terminal, status);
      case ModelRetry =>
        ok, updated := ReadRetry(rs, i, calls, attempts, terminal, status);
      case TurnStart =>
        ok := i == 0;
        OtherTracks(rs, i, calls, attempts);
      case TurnEnd =>
        ok := r.turnStatus == Some(status);
        OtherTracks(rs, i, calls, attempts);
      case ModelFallback =>
        ok := !terminal;
        OtherTracks(rs, i, calls, attempts);
      case OtherModel =>
        ok := true;
        OtherTracks(rs, i, calls, attempts);
      case OtherRecord =>
        ok := true;
        OtherTracks(rs, i, calls, attempts);
    }
  }

  function Unobserved(binding: Binding, digest: string, code: TurnCode): Turn {
    Turn(binding.generation, binding.trial, binding.scope, digest, code, "", "", "", 0, [])
  }

  /** A projected turn: the binding and trace names, and calls that say what the records say. */
  ghost predicate Projects(turn: Turn, trace: Trace, binding: Binding, digest: string, sha: string, session: string) {
    var rs := trace.records;
    && turn == Turn(binding.generation, binding.trial, binding.scope, digest, Observed, trace.id, sha, session,
                    Occurrences(rs, |rs|, ModelRetry) + Occurrences(rs, |rs|, ModelFallback), turn.calls)
    && Reports(rs, |rs|, turn.calls)
  }

  method CheckAnswered(calls: seq<Call>) returns (ok: bool)
    ensures ok <==> AllAnswered(calls)
  {
    for k := 0 to |calls|
      invariant forall j | 0 <= j < k :: calls[j].state != NotReturned || calls[j].retried
    {
      if calls[k].state == NotReturned && !calls[k].retried { return false; }
    }
    ok := true;
  }

  /** The scan and the end-of-trace checks, for a trace whose frame is whole. */
  method ReadCalls(rs: seq<Record>, binding: Binding, session: string, status: string)
    returns (ok: bool, calls: seq<Call>, retries: nat)
    ensures ok <==> LawfulUpTo(rs, |rs|, binding, session, status) && Framed(rs, status)
    ensures ok ==> Scanned(rs, calls) && retries == Occurrences(rs, |rs|, ModelRetry) + Occurrences(rs, |rs|, ModelFallback)
  {
    var start, end;
    ok, calls, retries, start, end := ScanRecords(rs, binding, session, status);
    if !ok { return; }
    if start != 1 || end != 1 { return false, calls, retries; }
    if !Failed(status) {
      ok := CheckAnswered(calls);
    }
  }

  function Projected(trace: Trace, binding: Binding, digest: string, sha: string, session: string, retries: nat, calls: seq<Call>): Turn {
    Turn(binding.generation, binding.trial, binding.scope, digest, Observed, trace.id, sha, session, retries, calls)
  }

  /** What the records of an observed turn guarantee about its calls. */
  ghost predicate Supported(trace: Trace, calls: seq<Call>, retries: nat) {
    && trace.outcome.Some? && ValidCalls(calls, retries) && (!Failed(trace.outcome.value) ==> AllAnswered(calls))
  }

  method ReadTrace(trace: Trace, binding: Binding, session: string) returns (ok: bool, calls: seq<Call>, retries: nat)
    ensures ok <==> Conforms(trace, binding, session)
    ensures ok ==> Supported(trace, calls, retries) && Reports(trace.records, |trace.records|, calls)
    ensures ok ==> retries == Occurrences(trace.records, |trace.records|, ModelRetry) + Occurrences(trace.records, |trace.records|, ModelFallback)
  {
    ok, calls, retries := Whole(trace, binding, session), [], 0;
    if !ok { return; }
    ok, calls, retries := ReadCalls(trace.records, binding, session, trace.outcome.value);
    if ok { ScannedIsValid(trace.records, calls, retries, trace.outcome.value); }
  }

  /** Exactly the conforming traces are observed, and every observed turn meets the validator's call rules. */
  method ProjectNativeModelTrace(trace: Trace, binding: Binding, digest: string, sha: string, session: string)
    returns (turn: Turn)
    ensures turn.code == Observed <==> Conforms(trace, binding, session)
    ensures turn.code != Observed ==> turn == Unobserved(binding, digest, InvalidTrace)
    ensures turn.code == Observed ==>
              Projects(turn, trace, binding, digest, sha, session) && Supported(trace, turn.calls, turn.retryRecords)
  {
    var ok, calls, retries := ReadTrace(trace, binding, session);
    turn := if ok then Projected(trace, binding, digest, sha, session, retries, calls) else Unobserved(binding, digest, InvalidTrace);
  }

  lemma {:induction false} ScannedIsValid(rs: seq<Record>, calls: seq<Call>, retries: nat, status: string)
    requires Scanned(rs, calls) && Framed(rs, status)
    requires retries == Occurrences(rs, |rs|, ModelRetry) + Occurrences(rs, |rs|, ModelFallback)
    ensures Reports(rs, |rs|, calls) && ValidCalls(calls, retries) && (!Failed(status) ==> AllAnswered(calls))
  {
  }

  /** One call per request, in the order of the requests. */
  lemma {:induction false} CallPerRequest(rs: seq<Record>, n: nat)
    requires n <= |rs|
    ensures |Requests(rs, n)| == Occurrences(rs, n, ModelRequest)
    ensures forall j, k | 0 <= j < k < |Requests(rs, n)| :: Requests(rs, n)[j] < Requests(rs, n)[k]
  {
    if n > 0 {
      CallPerRequest(rs, n - 1);
    }
  }
}
