// One client and one server joined by two ordered streams.
//
// The streams carry whole messages, nothing is cut off in the middle, every
// method called is registered and takes a protobuf message, and every reply can
// be encoded; RpcServer and Framing say what happens otherwise. Within that,
// anything may interleave: handlers finish out of order, callers give up, writes
// fail, arguments cannot be encoded, either side stops.
module RpcSystem {
  import opened Wrappers
  import opened RpcHeader
  import opened RpcTable
  import C = RpcClient
  import O = RpcOutcomes
  import S = RpcServer

  // The stream from the client, frame by frame. A request is two of them.
  datatype Frame = HeaderFrame(service: string, seqNo: nat) | BodyFrame(args: seq<byte>)

  // `sent` lists the requests written whole and `sentBy` their calls; both are
  // history. `frames` is the stream, of which the first `flushed` are on the
  // connection; the rest waits in the client's buffer, and consists of headers
  // left alone because the arguments could not be encoded. `strays` counts the
  // headers left alone that are on the connection. The server has read two frames
  // for each of its jobs, and the client the first `got` of `server.written`.
  datatype State = State(client: C.State, server: S.State, sent: seq<S.Request>, sentBy: seq<C.CallId>,
                         frames: seq<Frame>, flushed: nat, strays: nat, got: nat)

  const INITIAL: State := State(C.INITIAL, S.INITIAL, [], [], [], 0, 0, 0)

  // SendFails: the write reports an error, though the request may have arrived.
  // SendStray: it reports an error because the arguments cannot be encoded, which
  // leaves the header in the buffer. HandOn: the buffer, full of such headers,
  // hands one on. ServerRead: the server reads a request off the next two frames.
  // ReceiveBlank: the codec swallowed a read error and left the header empty.
  datatype Event =
    | Client(c: C.Event)
    | Server(s: S.Event)
    | Send
    | SendFails(arrived: bool)
    | SendStray
    | HandOn
    | Receive
    | ReceiveBlank
    | ServerRead(request: S.Request)

  const BLANK: Response := Response(0, "", [])

  // Reading the bytes of a header gives it back; other bytes may give any.
  ghost predicate ReadsHeader(frame: Frame, service: string, seqNo: nat) {
    match frame
    case HeaderFrame(m, q) => service == m && seqNo == q
    case BodyFrame(args) =>
      (exists m: string, q: nat :: HeaderBytes(m, q) == args) ==> HeaderBytes(service, seqNo) == args
  }

  function BytesOf(frame: Frame): seq<byte> {
    match frame
    case HeaderFrame(service, seqNo) => HeaderBytes(service, seqNo)
    case BodyFrame(args) => args
  }

  // The request r is what two frames read as.
  ghost predicate ReadsAs(header: Frame, body: Frame, r: S.Request) {
    ReadsHeader(header, r.service, r.seqNo) && r.args == BytesOf(body) && r.error == ""
  }

  ghost predicate Enabled(s: State, e: Event) {
    match e
    case Client(c) => !c.WriteOk? && !c.WriteFailed? && !c.ReadHeader? && C.Enabled(s.client, c)
    case Server(x) => !x.ReadRequest? && !x.ReadUnknown? && !x.BodyEncodeFailed? && S.Enabled(s.server, x)
    case Send => C.Enabled(s.client, C.WriteOk)
    case SendFails(_) => C.Enabled(s.client, C.WriteFailed) && C.Enabled(s.client, C.WriteOk)
    case SendStray => C.Enabled(s.client, C.WriteFailed) && C.Enabled(s.client, C.WriteOk)
    case HandOn => s.flushed < |s.frames|
    case Receive => s.got < |s.server.written| && C.Enabled(s.client, C.ReadHeader(s.server.written[s.got]))
    case ReceiveBlank => C.Enabled(s.client, C.ReadHeader(BLANK))
    case ServerRead(r) =>
      var n := |s.server.jobs|;
      && 2 * n + 2 <= s.flushed <= |s.frames| && ReadsAs(s.frames[2 * n], s.frames[2 * n + 1], r)
      && S.Enabled(s.server, S.ReadRequest(r))
  }

  function RequestOf(call: C.Call): S.Request {
    S.Request(call.seqNo, call.service, "", call.args)
  }

  function WithSent(s: State): State
    requires s.client.lock.Writing? && s.client.lock.call < |s.client.calls|
  {
    var c := s.client.lock.call;
    var r := RequestOf(s.client.calls[c]);
    var frames := s.frames + [HeaderFrame(r.service, r.seqNo), BodyFrame(r.args)];
    var left := if s.flushed <= |s.frames| then |s.frames| - s.flushed else 0;
    s.(sent := s.sent + [r], sentBy := s.sentBy + [c], frames := frames, flushed := |frames|, strays := s.strays + left)
  }

  function WithStray(s: State): State
    requires s.client.lock.Writing? && s.client.lock.call < |s.client.calls|
  {
    var r := RequestOf(s.client.calls[s.client.lock.call]);
    s.(frames := s.frames + [HeaderFrame(r.service, r.seqNo)])
  }

  function Step(s: State, e: Event): State
    requires Enabled(s, e)
  {
    match e
    case Client(c) => s.(client := C.Step(s.client, c))
    case Server(x) => s.(server := S.Step(s.server, x))
    case Send => WithSent(s).(client := C.Step(s.client, C.WriteOk))
    case SendFails(arrived) => (if arrived then WithSent(s) else s).(client := C.Step(s.client, C.WriteFailed))
    case SendStray => WithStray(s).(client := C.Step(s.client, C.WriteFailed))
    case HandOn => s.(flushed := s.flushed + 1, strays := s.strays + 1)
    case Receive => s.(client := C.Step(s.client, C.ReadHeader(s.server.written[s.got])), got := s.got + 1)
    case ReceiveBlank => s.(client := C.Step(s.client, C.ReadHeader(BLANK)))
    case ServerRead(r) => s.(server := S.Step(s.server, S.ReadRequest(r)))
  }

  // The client event that a system event performs, if any; likewise the server's.
  function ClientEvent(s: State, e: Event): Option<C.Event>
    requires Enabled(s, e)
  {
    match e
    case Client(c) => Some(c)
    case Send => Some(C.WriteOk)
    case SendFails(_) => Some(C.WriteFailed)
    case SendStray => Some(C.WriteFailed)
    case Receive => Some(C.ReadHeader(s.server.written[s.got]))
    case ReceiveBlank => Some(C.ReadHeader(BLANK))
    case _ => None
  }

  function ServerEvent(s: State, e: Event): Option<S.Event>
    requires Enabled(s, e)
  {
    match e
    case Server(x) => Some(x)
    case ServerRead(r) => Some(S.ReadRequest(r))
    case _ => None
  }

  // --- The inductive invariant -------------------------------------------------

  ghost predicate SentInv(s: State) {
    && |s.sent| == |s.sentBy|
    && (forall j: nat :: j < |s.sent| ==>
          && s.sentBy[j] < |s.client.calls|
          && s.sent[j] == RequestOf(s.client.calls[s.sentBy[j]])
          && s.sent[j].seqNo != 0
          && s.client.lock != C.Writing(s.sentBy[j]))
    && (forall j: nat, k: nat :: j < k < |s.sent| ==> s.sentBy[j] != s.sentBy[k])
  }

  // As long as no header left alone is on the connection, that carries exactly
  // the requests sent.
  ghost predicate StreamInv(s: State) {
    && s.flushed == 2 * |s.sent| && s.flushed <= |s.frames|
    && (forall j: nat :: j < |s.sent| ==> IsOnStream(s, j))
  }

  predicate IsOnStream(s: State, j: nat) {
    && j < |s.sent| && 2 * j + 1 < |s.frames| && s.sent[j].error == ""
    && s.frames[2 * j] == HeaderFrame(s.sent[j].service, s.sent[j].seqNo)
    && s.frames[2 * j + 1] == BodyFrame(s.sent[j].args)
  }

  ghost predicate JobsInv(s: State) {
    && |s.server.jobs| <= |s.sent|
    && s.got <= |s.server.written|
    && (forall j: nat :: j < |s.server.jobs| ==>
          s.server.jobs[j].request == s.sent[j] && !s.server.jobs[j].worker.Absent?)
  }

  // A response that the client has read carries the call's number and this outcome.
  ghost predicate Delivered(s: State, c: C.CallId, o: Outcome) {
    && c < |s.client.calls| && s.client.calls[c].seqNo != 0
    && exists k: nat :: k < s.got && k < |s.server.written| && Carries(s.server.written[k], s.client.calls[c].seqNo, o)
  }

  ghost predicate Carries(r: Response, seqNo: nat, o: Outcome) {
    r.seqNo == seqNo && o == if r.error != "" then RemoteError(r.error) else Reply(r.body)
  }

  ghost predicate WasRead(s: State, r: Response) {
    exists k: nat :: k < s.got && k < |s.server.written| && s.server.written[k] == r
  }

  ghost predicate ReceiverInv(s: State) {
    match s.client.receiver
    case Dispatching(r) => r == BLANK || WasRead(s, r)
    case ReadingBody(Some(c), r) => c < |s.client.calls| && s.client.calls[c].seqNo == r.seqNo && WasRead(s, r)
    case Signalling(c, o, _) => o == LocalError || Delivered(s, c, o)
    case _ => true
  }

  ghost predicate OutcomeInv(s: State, c: C.CallId)
    requires c < |s.client.calls|
  {
    s.client.calls[c].signals != [] ==>
      s.client.calls[c].signals[0] == LocalError || Delivered(s, c, s.client.calls[c].signals[0])
  }

  ghost predicate Inv(s: State) {
    && C.Inv(s.client) && S.Inv(s.server)
    && SentInv(s) && StreamInv(s) && JobsInv(s) && ReceiverInv(s)
    && (forall c: C.CallId :: c < |s.client.calls| ==> OutcomeInv(s, c))
  }

  lemma InvInitially()
    ensures Inv(INITIAL)
  {
  }

  ghost predicate CanStep(s: State, e: Event) {
    Inv(s) && Enabled(s, e) && Step(s, e).client.issued < SEQ_MODULUS && Step(s, e).strays == 0
  }

  lemma PartsPreserved(s: State, e: Event)
    requires CanStep(s, e)
    ensures C.Inv(Step(s, e).client) && S.Inv(Step(s, e).server)
  {
    var c, x := ClientEvent(s, e), ServerEvent(s, e);
    if c.Some? {
      C.InvPreserved(s.client, c.value);
    }
    if x.Some? {
      S.InvPreserved(s.server, x.value);
    }
  }

  // What a client step keeps of each call: its method, its arguments, and its
  // number once it has one.
  lemma CallIdentityKept(s: C.State, e: C.Event, c: C.CallId)
    requires C.Inv(s) && C.Enabled(s, e) && c < |s.calls|
    ensures var s' := C.Step(s, e);
            && c < |s'.calls|
            && s'.calls[c].service == s.calls[c].service && s'.calls[c].args == s.calls[c].args
            && (s.calls[c].seqNo != 0 ==> s'.calls[c].seqNo == s.calls[c].seqNo)
  {
  }

  lemma SentKept(s: State, e: Event, j: nat)
    requires C.Inv(s.client) && SentInv(s) && Enabled(s, e) && j < |s.sent|
    ensures var client := Step(s, e).client;
            && s.sentBy[j] < |client.calls| && s.sent[j] == RequestOf(client.calls[s.sentBy[j]])
            && client.lock != C.Writing(s.sentBy[j])
  {
    var ce := ClientEvent(s, e);
    if ce.Some? {
      CallIdentityKept(s.client, ce.value, s.sentBy[j]);
    }
  }

  lemma SentPreserved(s: State, e: Event)
    requires C.Inv(s.client) && SentInv(s) && Enabled(s, e)
    ensures SentInv(Step(s, e))
  {
    var client := Step(s, e).client;
    forall j: nat | j < |s.sent|
      ensures s.sentBy[j] < |client.calls| && s.sent[j] == RequestOf(client.calls[s.sentBy[j]])
      ensures client.lock != C.Writing(s.sentBy[j])
    {
      SentKept(s, e, j);
    }
  }

  lemma StreamPreserved(s: State, e: Event)
    requires StreamInv(s) && Enabled(s, e) && Step(s, e).strays == 0
    ensures StreamInv(Step(s, e))
  {
    var s' := Step(s, e);
    forall j: nat | j < |s'.sent| ensures IsOnStream(s', j) {
      assert j < |s.sent| ==> IsOnStream(s, j);
    }
  }

  // So what the server reads next is the request sent next.
  lemma ReadIsSent(s: State, r: S.Request)
    requires StreamInv(s) && Enabled(s, ServerRead(r))
    ensures |s.server.jobs| < |s.sent| && r == s.sent[|s.server.jobs|]
  {
    assert IsOnStream(s, |s.server.jobs|);
  }

  // The server only ever extends what it has written, and keeps each request.
  lemma ServerGrows(s: S.State, e: S.Event)
    requires S.Enabled(s, e)
    ensures var s' := S.Step(s, e);
            && s.written <= s'.written
            && |s.jobs| <= |s'.jobs|
            && (forall j: nat :: j < |s.jobs| ==>
                  s'.jobs[j].request == s.jobs[j].request && (s'.jobs[j].worker.Absent? ==> s.jobs[j].worker.Absent?))
  {
  }

  lemma JobsPreserved(s: State, e: Event)
    requires StreamInv(s) && JobsInv(s) && Enabled(s, e)
    ensures JobsInv(Step(s, e))
  {
    var s' := Step(s, e);
    var x := ServerEvent(s, e);
    if x.Some? {
      ServerGrows(s.server, x.value);
      ServerReadsOnlyHere(s.server, x.value);
    }
    if e.ServerRead? {
      ReadIsSent(s, e.request);
    }
    forall j: nat | j < |s'.server.jobs|
      ensures s'.server.jobs[j].request == s'.sent[j] && !s'.server.jobs[j].worker.Absent?
    {
      if j < |s.server.jobs| {
        assert s.server.jobs[j].request == s.sent[j];
      }
    }
  }

  lemma ServerReadsOnlyHere(s: S.State, e: S.Event)
    requires S.Enabled(s, e) && !e.ReadUnknown?
    ensures if e.ReadRequest? then
              var jobs := S.Step(s, e).jobs;
              |jobs| == |s.jobs| + 1 && jobs[|s.jobs|].request == e.request && !jobs[|s.jobs|].worker.Absent?
            else |S.Step(s, e).jobs| == |s.jobs|
  {
  }

  lemma DeliveredKept(s: State, e: Event, c: C.CallId, o: Outcome)
    requires C.Inv(s.client) && Enabled(s, e) && Delivered(s, c, o)
    ensures Delivered(Step(s, e), c, o)
  {
    var k: nat :| k < s.got && k < |s.server.written| && Carries(s.server.written[k], s.client.calls[c].seqNo, o);
    if ClientEvent(s, e).Some? {
      CallIdentityKept(s.client, ClientEvent(s, e).value, c);
    }
    if ServerEvent(s, e).Some? {
      ServerGrows(s.server, ServerEvent(s, e).value);
    }
    assert Carries(Step(s, e).server.written[k], Step(s, e).client.calls[c].seqNo, o);
  }

  lemma WasReadKept(s: State, e: Event, r: Response)
    requires Enabled(s, e) && WasRead(s, r)
    ensures WasRead(Step(s, e), r)
  {
    var k: nat :| k < s.got && k < |s.server.written| && s.server.written[k] == r;
    if ServerEvent(s, e).Some? {
      ServerGrows(s.server, ServerEvent(s, e).value);
    }
    assert Step(s, e).server.written[k] == r;
  }

  lemma ReceiverPreserved(s: State, e: Event)
    requires CanStep(s, e)
    ensures ReceiverInv(Step(s, e))
  {
    var s' := Step(s, e);
    var ce := ClientEvent(s, e);
    if e.Receive? {
      assert s'.server.written[s.got] == s'.client.receiver.response;
    } else if ce == Some(C.Dispatch) {
      DispatchKeeps(s, e);
    } else if ce.Some? && ce.value.ReadBody? {
      ReadBodyKeeps(s, e);
    } else {
      ReceiverUntouched(s, e);
    }
  }

  lemma DispatchKeeps(s: State, e: Event)
    requires CanStep(s, e) && e == Client(C.Dispatch)
    ensures ReceiverInv(Step(s, e))
  {
    var r := s.client.receiver.response;
    if r != BLANK {
      WasReadKept(s, e, r);
    }
  }

  lemma ReadBodyKeeps(s: State, e: Event)
    requires CanStep(s, e) && e.Client? && e.c.ReadBody?
    ensures ReceiverInv(Step(s, e))
  {
    var r := s.client.receiver.response;
    if s.client.receiver.target.Some? {
      var c := s.client.receiver.target.value;
      var o := C.OutcomeOf(r, e.c.ok);
      if o != LocalError {
        var k: nat :| k < s.got && k < |s.server.written| && s.server.written[k] == r;
        assert Carries(s.server.written[k], s.client.calls[c].seqNo, o);
        assert Delivered(Step(s, e), c, o);
      }
    }
  }

  // Every other event leaves the receiver alone or moves it to a point at
  // which it holds no response.
  lemma ReceiverMoves(s: C.State, e: C.Event)
    requires C.Enabled(s, e) && !e.ReadHeader? && !e.Dispatch? && !e.ReadBody?
    ensures var r := C.Step(s, e).receiver;
            r == s.receiver || r.Reading? || r.Failing? || r.Draining? || r.Exited?
  {
  }

  lemma ReceiverUntouched(s: State, e: Event)
    requires CanStep(s, e) && !e.Receive?
    requires ClientEvent(s, e).Some? ==> !ClientEvent(s, e).value.Dispatch? && !ClientEvent(s, e).value.ReadBody?
    ensures ReceiverInv(Step(s, e))
  {
    var s' := Step(s, e);
    if ClientEvent(s, e).Some? && !ClientEvent(s, e).value.ReadHeader? {
      ReceiverMoves(s.client, ClientEvent(s, e).value);
    }
    if s'.client.receiver == s.client.receiver {
      ReceiverFactsKept(s, e);
    }
  }

  lemma ReceiverFactsKept(s: State, e: Event)
    requires CanStep(s, e) && Step(s, e).client.receiver == s.client.receiver
    ensures ReceiverInv(Step(s, e))
  {
    match s.client.receiver
    case Dispatching(r) =>
      if r != BLANK {
        WasReadKept(s, e, r);
      }
    case ReadingBody(Some(c), r) =>
      WasReadKept(s, e, r);
      assert C.InReceiverHand(s.client, c);
      if ClientEvent(s, e).Some? {
        CallIdentityKept(s.client, ClientEvent(s, e).value, c);
      }
    case Signalling(c, o, _) =>
      if o != LocalError {
        DeliveredKept(s, e, c, o);
      }
    case _ =>
  }

  // A completion that is not a local error comes from the receiver.
  lemma CompletionComesFromReceiver(s: C.State, e: C.Event, c: C.CallId)
    requires C.Inv(s) && C.Enabled(s, e) && c < |C.Step(s, e).calls|
    ensures var after := C.Step(s, e).calls[c].signals;
            after != [] ==>
              || after[0] == LocalError
              || (c < |s.calls| && s.calls[c].signals != [] && after[0] == s.calls[c].signals[0])
              || (s.receiver.Signalling? && s.receiver.call == c && s.receiver.outcome == after[0])
  {
  }

  lemma OutcomePreserved(s: State, e: Event, c: C.CallId)
    requires CanStep(s, e) && c < |Step(s, e).client.calls|
    ensures OutcomeInv(Step(s, e), c)
  {
    var after := Step(s, e).client.calls[c].signals;
    if ClientEvent(s, e).Some? {
      CompletionComesFromReceiver(s.client, ClientEvent(s, e).value, c);
    }
    if after != [] && after[0] != LocalError {
      if c < |s.client.calls| && s.client.calls[c].signals != [] {
        assert OutcomeInv(s, c);
      }
      DeliveredKept(s, e, c, after[0]);
    }
  }

  lemma InvPreserved(s: State, e: Event)
    requires CanStep(s, e)
    ensures Inv(Step(s, e))
  {
    PartsPreserved(s, e);
    SentPreserved(s, e);
    StreamPreserved(s, e);
    JobsPreserved(s, e);
    ReceiverPreserved(s, e);
    forall c: C.CallId | c < |Step(s, e).client.calls| ensures OutcomeInv(Step(s, e), c) {
      OutcomePreserved(s, e, c);
    }
  }

  // --- Runs --------------------------------------------------------------------

  ghost function Run(events: seq<Event>): Option<State> {
    if events == [] then Some(INITIAL)
    else
      var before := Run(events[..|events| - 1]);
      var e := events[|events| - 1];
      if before.Some? && Enabled(before.value, e) then Some(Step(before.value, e)) else None
  }

  // The hypothesis of the theorems below: fewer than 2^64 calls, and no header
  // left alone on the connection. One that waits in the buffer does no harm.
  ghost predicate Reaches(events: seq<Event>, s: State) {
    Run(events) == Some(s) && s.client.issued < SEQ_MODULUS && s.strays == 0
  }

  lemma IssuedGrows(s: State, e: Event)
    requires Enabled(s, e)
    ensures s.client.issued <= Step(s, e).client.issued
    ensures s.strays <= Step(s, e).strays
  {
  }

  lemma {:induction false} RunInv(events: seq<Event>, s: State)
    requires Reaches(events, s)
    ensures Inv(s)
  {
    if events != [] {
      var before := Run(events[..|events| - 1]).value;
      IssuedGrows(before, events[|events| - 1]);
      RunInv(events[..|events| - 1], before);
      InvPreserved(before, events[|events| - 1]);
    }
  }

  // How many requests the events have put on the connection whole: a write that
  // reports an error may have done so all the same. What else is on it are headers
  // left alone.
  function SentCount(events: seq<Event>): nat {
    if events == [] then 0
    else
      var e := events[|events| - 1];
      SentCount(events[..|events| - 1]) + if e == Send || e == SendFails(true) then 1 else 0
  }

  lemma {:induction false} SentIsCounted(events: seq<Event>, s: State)
    requires Run(events) == Some(s)
    ensures |s.sent| == SentCount(events)
    ensures s.flushed == 2 * |s.sent| + s.strays && s.flushed <= |s.frames|
  {
    if events != [] {
      SentIsCounted(events[..|events| - 1], Run(events[..|events| - 1]).value);
    }
  }

  // A call's number is at work in one place: its request under way, its request
  // with the server and unanswered, or its response under way.
  datatype Token = InRequest(i: nat) | InServer(j: nat) | InResponse(k: nat)

  predicate Live(s: State, t: Token) {
    match t
    case InRequest(i) => |s.server.jobs| <= i < |s.sent|
    case InServer(j) => j < |s.server.jobs| && s.server.jobs[j].answers == []
    case InResponse(k) => s.got <= k < |s.server.written|
  }

  function NumberOf(s: State, t: Token): nat
    requires Live(s, t)
  {
    match t
    case InRequest(i) => s.sent[i].seqNo
    case InServer(j) => s.server.jobs[j].request.seqNo
    case InResponse(k) => s.server.written[k].seqNo
  }

  lemma SentNumbersDiffer(s: State, i: nat, j: nat)
    requires Inv(s) && i < |s.sent| && j < |s.sent| && s.sent[i].seqNo == s.sent[j].seqNo
    ensures i == j
  {
    assert s.sent[i] == RequestOf(s.client.calls[s.sentBy[i]]);
    assert s.sent[j] == RequestOf(s.client.calls[s.sentBy[j]]);
    assert C.DistinctNumbers(s.client, s.sentBy[i], s.sentBy[j]);
  }

  // The request behind a live token.
  function Origin(s: State, t: Token): nat
    requires Inv(s) && Live(s, t)
  {
    match t
    case InRequest(i) => i
    case InServer(j) => j
    case InResponse(k) => s.server.answered[k]
  }

  lemma OriginCarriesNumber(s: State, t: Token)
    requires Inv(s) && Live(s, t)
    ensures Origin(s, t) < |s.sent| && s.sent[Origin(s, t)].seqNo == NumberOf(s, t)
  {
    if t.InResponse? {
      var j := s.server.answered[t.k];
      assert s.server.jobs[j].answers == [s.server.written[t.k]];
      assert S.JobInv(s.server, j);
    }
  }

  // For every number, requests under way, requests owed an answer and responses
  // under way are together at most one.
  lemma OneTokenPerNumber(events: seq<Event>, s: State, t: Token, u: Token)
    requires Reaches(events, s) && Live(s, t) && Live(s, u) && NumberOf(s, t) == NumberOf(s, u)
    ensures t == u
  {
    RunInv(events, s);
    OriginCarriesNumber(s, t);
    OriginCarriesNumber(s, u);
    SentNumbersDiffer(s, Origin(s, t), Origin(s, u));
    if t.InResponse? {
      assert s.server.jobs[s.server.answered[t.k]].answers == [s.server.written[t.k]];
    }
    if u.InResponse? {
      assert s.server.jobs[s.server.answered[u.k]].answers == [s.server.written[u.k]];
    }
  }

  // Why the server answered a job with a response that the client takes for `o`.
  // The last disjunct is a quirk of the protocol: an error whose text is empty
  // reaches the client as success with an empty body.
  predicate Explains(job: S.Job, o: Outcome) {
    match o
    case Reply(body) => job.result == Some(S.Done(body)) || (job.result == Some(S.Failed("")) && body == [])
    case RemoteError(text) =>
      || (job.result == Some(S.Failed(text)) && text != "")
      || (text == S.TIMEOUT_TEXT && (job.worker.Running? || job.worker.Offering?))
    case LocalError => false
  }

  lemma ResponseIsExplained(s: State, k: nat, q: nat, o: Outcome)
    requires Inv(s) && k < |s.server.written| && Carries(s.server.written[k], q, o) && o != LocalError
    ensures var j := s.server.answered[k];
            && j < |s.server.jobs| && Explains(s.server.jobs[j], o)
            && s.server.jobs[j].request.seqNo == q && s.server.jobs[j].request == s.sent[j]
  {
    var j := s.server.answered[k];
    var job := s.server.jobs[j];
    assert job.answers == [s.server.written[k]];
    assert S.JobInv(s.server, j) && S.Justified(job, job.answers[0]);
    assert job.request == s.sent[j] == RequestOf(s.client.calls[s.sentBy[j]]);
  }

  // A call completed by the server holds what the handler made of its own
  // method and arguments, or the handler's error, or the timeout. The server
  // ran one job for it and no other; other calls' late replies never reach it.
  lemma CallGetsItsOwnResult(events: seq<Event>, s: State, c: C.CallId, o: Outcome) returns (j: nat)
    requires Reaches(events, s) && c < |s.client.calls| && s.client.calls[c].signals == [o] && o != LocalError
    ensures j < |s.server.jobs| && Explains(s.server.jobs[j], o)
    ensures s.server.jobs[j].request == RequestOf(s.client.calls[c])
    ensures forall i: nat :: i < |s.server.jobs| && s.server.jobs[i].request.seqNo == s.client.calls[c].seqNo ==> i == j
  {
    RunInv(events, s);
    assert OutcomeInv(s, c);
    var k: nat :| k < s.got && k < |s.server.written| && Carries(s.server.written[k], s.client.calls[c].seqNo, o);
    j := s.server.answered[k];
    ResponseIsExplained(s, k, s.client.calls[c].seqNo, o);
    assert s.sent[j] == RequestOf(s.client.calls[s.sentBy[j]]);
    assert C.DistinctNumbers(s.client, c, s.sentBy[j]);
    forall i: nat | i < |s.server.jobs| && s.server.jobs[i].request.seqNo == s.client.calls[c].seqNo
      ensures i == j
    {
      assert s.server.jobs[i].request == s.sent[i];
      SentNumbersDiffer(s, i, j);
    }
  }

  // The worker, not the timer, answered the request.
  predicate WorkerAnswered(job: S.Job) {
    job.worker.Responding? || job.worker.Reporting? || job.worker.Ended?
  }

  // What the caller of a failed handler is told, once its response was read whole.
  predicate FailureBecomes(job: S.Job, o: Outcome)
    requires job.result.Some? && job.result.value.Failed?
  {
    if !WorkerAnswered(job) then o == RemoteError("rpc server: request handle timeout: expect within 10s")
    else if job.result.value.text == "" then o == Reply([])
    else o == RemoteError(job.result.value.text)
  }

  lemma AnswerDecides(s: State, k: nat, q: nat, o: Outcome)
    requires Inv(s) && k < |s.server.written| && Carries(s.server.written[k], q, o) && o != LocalError
    requires s.server.answered[k] < |s.server.jobs|
    requires s.server.jobs[s.server.answered[k]].result.Some?
             && s.server.jobs[s.server.answered[k]].result.value.Failed?
    ensures FailureBecomes(s.server.jobs[s.server.answered[k]], o)
  {
    var j := s.server.answered[k];
    assert s.server.jobs[j].answers == [s.server.written[k]];
    assert S.JobInv(s.server, j) && S.Justified(s.server.jobs[j], s.server.jobs[j].answers[0]);
    assert !s.server.jobs[j].worker.Absent?;
  }

  // --- The runs of the two sides -----------------------------------------------

  ghost function ClientEvents(events: seq<Event>): seq<C.Event> {
    if events == [] then []
    else
      var before, e := events[..|events| - 1], events[|events| - 1];
      var s := Run(before);
      if s.Some? && Enabled(s.value, e) && ClientEvent(s.value, e).Some?
      then ClientEvents(before) + [ClientEvent(s.value, e).value] else ClientEvents(before)
  }

  ghost function ServerEvents(events: seq<Event>): seq<S.Event> {
    if events == [] then []
    else
      var before, e := events[..|events| - 1], events[|events| - 1];
      var s := Run(before);
      if s.Some? && Enabled(s.value, e) && ServerEvent(s.value, e).Some?
      then ServerEvents(before) + [ServerEvent(s.value, e).value] else ServerEvents(before)
  }

  lemma ClientSteps(s: State, e: Event)
    requires Enabled(s, e)
    ensures match ClientEvent(s, e)
            case Some(c) => C.Enabled(s.client, c) && Step(s, e).client == C.Step(s.client, c)
            case None => Step(s, e).client == s.client
  {
  }

  lemma ServerSteps(s: State, e: Event)
    requires Enabled(s, e)
    ensures match ServerEvent(s, e)
            case Some(x) => S.Enabled(s.server, x) && Step(s, e).server == S.Step(s.server, x)
            case None => Step(s, e).server == s.server
  {
  }

  // Each side of a run is a run of that side alone, to which all its theorems
  // apply.
  lemma {:induction false} SidesRun(events: seq<Event>, s: State)
    requires Run(events) == Some(s)
    ensures C.Run(ClientEvents(events)) == Some(s.client)
    ensures S.Run(ServerEvents(events)) == Some(s.server)
  {
    if events != [] {
      var before, e := events[..|events| - 1], events[|events| - 1];
      var b := Run(before).value;
      SidesRun(before, b);
      ClientSteps(b, e);
      ServerSteps(b, e);
      if ClientEvent(b, e).Some? {
        var t, t' := C.Then(ClientEvents(before), b.client, ClientEvent(b, e).value);
      }
      if ServerEvent(b, e).Some? {
        var t, t' := S.Then(ServerEvents(before), b.server, ServerEvent(b, e).value);
      }
    }
  }

  predicate Fails(e: Event) {
    e.SendFails? || e.SendStray?
  }

  lemma WriteSteps(s: State, e: Event)
    requires Enabled(s, e)
    ensures ClientEvent(s, e) == Some(C.WriteOk) <==> e == Send
    ensures ClientEvent(s, e) == Some(C.WriteFailed) <==> Fails(e)
  {
  }

  function CountSends(events: seq<Event>): nat {
    if events == [] then 0
    else CountSends(events[..|events| - 1]) + if events[|events| - 1] == Send then 1 else 0
  }

  function CountFailures(events: seq<Event>): nat {
    if events == [] then 0
    else CountFailures(events[..|events| - 1]) + if Fails(events[|events| - 1]) then 1 else 0
  }

  // The client reports as many writes, good and failed, as the system has sends.
  lemma {:induction false} WritesAreSends(events: seq<Event>, s: State)
    requires Run(events) == Some(s)
    ensures multiset(ClientEvents(events))[C.WriteOk] == CountSends(events)
    ensures multiset(ClientEvents(events))[C.WriteFailed] == CountFailures(events)
  {
    if events != [] {
      var before, e := events[..|events| - 1], events[|events| - 1];
      WritesAreSends(before, Run(before).value);
      WriteSteps(Run(before).value, e);
    }
  }

  // Why a call was completed.
  ghost function CauseOf(events: seq<Event>, c: C.CallId): Option<O.Cause> {
    O.CauseOf(ClientEvents(events), c)
  }

  // In the whole system, too: a completion is an error of the client's own if and
  // only if the call was refused, its request could not be written, it was
  // terminated, or the body of its response could not be read after an empty
  // error text.
  lemma {:induction false} LocalErrorIff(events: seq<Event>, s: State, c: C.CallId)
    requires Run(events) == Some(s) && s.client.issued < SEQ_MODULUS
    requires c < |s.client.calls| && s.client.calls[c].signals != []
    ensures CauseOf(events, c).Some?
    ensures s.client.calls[c].signals == [LocalError]
            <==> var cause := CauseOf(events, c).value;
                 cause.Refused? || cause.NotWritten? || cause.Terminated?
                 || (cause.response.error == "" && !cause.ok)
  {
    SidesRun(events, s);
    O.LocalErrorIff(ClientEvents(events), s.client, c);
  }

  // A call whose handler failed, and whose response was read whole, looks like
  // success to its caller if and only if the worker answered, not the timer, and
  // the error's text is empty.
  lemma FailureReadsAsSuccessIff(events: seq<Event>, s: State, c: C.CallId, r: Response, i: nat)
    requires Reaches(events, s) && c < |s.client.calls| && s.client.calls[c].signals != []
    requires CauseOf(events, c) == Some(O.Answered(r, true))
    requires i < |s.server.jobs| && s.server.jobs[i].request.seqNo == s.client.calls[c].seqNo
    requires s.server.jobs[i].result.Some? && s.server.jobs[i].result.value.Failed?
    ensures |s.client.calls[c].signals| == 1
    ensures FailureBecomes(s.server.jobs[i], s.client.calls[c].signals[0])
    ensures s.client.calls[c].signals[0].Reply?
            <==> WorkerAnswered(s.server.jobs[i]) && s.server.jobs[i].result.value.text == ""
  {
    RunInv(events, s);
    SidesRun(events, s);
    O.CompletionHasItsCause(ClientEvents(events), s.client, c);
    var o := s.client.calls[c].signals[0];
    assert OutcomeInv(s, c);
    var k: nat :| k < s.got && k < |s.server.written| && Carries(s.server.written[k], s.client.calls[c].seqNo, o);
    ResponseIsExplained(s, k, s.client.calls[c].seqNo, o);
    assert s.server.jobs[i].request == s.sent[i];
    SentNumbersDiffer(s, i, s.server.answered[k]);
    AnswerDecides(s, k, s.client.calls[c].seqNo, o);
  }

  // --- Building runs -----------------------------------------------------------

  lemma Then(events: seq<Event>, s: State, e: Event) returns (events': seq<Event>, s': State)
    requires Run(events) == Some(s) && Enabled(s, e)
    ensures Run(events') == Some(s') && s' == Step(s, e) && events' == events + [e]
  {
    events', s' := events + [e], Step(s, e);
    assert events'[..|events'| - 1] == events;
  }

  // A step of the client alone, and one of the server alone.
  lemma ClientThen(events: seq<Event>, s: State, e: C.Event, c: C.State) returns (events': seq<Event>, s': State)
    requires Run(events) == Some(s) && Enabled(s, Client(e)) && C.Step(s.client, e) == c
    ensures Run(events') == Some(s') && s' == s.(client := c) && events <= events'
  {
    events', s' := Then(events, s, Client(e));
  }

  lemma ServerThen(events: seq<Event>, s: State, e: S.Event, v: S.State) returns (events': seq<Event>, s': State)
    requires Run(events) == Some(s) && Enabled(s, Server(e)) && S.Step(s.server, e) == v
    ensures Run(events') == Some(s') && s' == s.(server := v)
  {
    events', s' := Then(events, s, Server(e));
  }
}
