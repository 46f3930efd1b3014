// Runs of client and server that end in a surprise: an error that reads as
// success, and a header left on the stream that hands one call's arguments to
// another.
module RpcRuns {
  import opened Wrappers
  import opened RpcHeader
  import opened RpcTable
  import opened RpcSystem
  import C = RpcClient
  import S = RpcServer

  // --- An empty error text -----------------------------------------------------

  const ARGS: seq<byte> := [7]

  const REQUEST: S.Request := S.Request(1, "S.M", "", ARGS)

  const WAITING_CLIENT: C.State :=
    C.State(Table(2, map[1 := 0], false, false), [C.Call("S.M", ARGS, 1, C.Returned, [], C.Waiting)],
            C.Free, C.Reading, 1)

  const FAILING_JOB: S.Job :=
    S.Job(REQUEST, "", S.Awaiting, S.Responding, Some(S.Failed("")), [])

  // The request is on the connection.
  predicate Arrived(s: State) {
    s.client == WAITING_CLIENT && s.got == 0 && s.strays == 0 && s.flushed == 2
    && s.frames == [HeaderFrame("S.M", 1), BodyFrame(ARGS)]
  }

  lemma RegisterSteps()
    ensures var c1 := C.Step(C.INITIAL, C.Invoke("S.M", ARGS));
            && C.Enabled(c1, C.LockSending(0))
            && var c2 := C.Step(c1, C.LockSending(0));
               && C.Enabled(c2, C.RegisterCall)
               && var c3 := C.Step(c2, C.RegisterCall);
                  && c3.lock == C.Writing(0) && C.Enabled(c3, C.WriteOk) && C.Step(c3, C.WriteOk) == WAITING_CLIENT
                  && c3.calls == [C.Call("S.M", ARGS, 1, C.InSend, [], C.Waiting)]
  {
  }

  lemma RequestArrives() returns (events: seq<Event>, s: State)
    ensures Run(events) == Some(s) && Arrived(s) && s.server == S.INITIAL
  {
    RegisterSteps();
    var c1 := C.Step(C.INITIAL, C.Invoke("S.M", ARGS));
    var c2 := C.Step(c1, C.LockSending(0));
    events, s := ClientThen([], INITIAL, C.Invoke("S.M", ARGS), c1);
    events, s := ClientThen(events, s, C.LockSending(0), c2);
    events, s := ClientThen(events, s, C.RegisterCall, C.Step(c2, C.RegisterCall));
    events, s := Then(events, s, Send);
  }

  function WithJob(job: S.Job): S.State {
    S.INITIAL.(jobs := [job], group := 1)
  }

  const NEW_JOB: S.Job := S.Job(REQUEST, "", S.Selecting, S.Running, None, [])

  lemma RequestIsRead(before: seq<Event>, s: State) returns (events: seq<Event>, s': State)
    requires Run(before) == Some(s) && Arrived(s) && s.server == S.INITIAL
    ensures Run(events) == Some(s') && Arrived(s') && s'.server == WithJob(NEW_JOB)
  {
    events, s' := Then(before, s, ServerRead(REQUEST));
    assert s'.server.jobs == [NEW_JOB];
  }

  lemma FailingSteps()
    ensures var v1 := WithJob(FAILING_JOB.(main := S.Selecting, worker := S.Offering));
            && S.Enabled(WithJob(NEW_JOB), S.HandlerReturns(0, S.Failed("")))
            && S.Step(WithJob(NEW_JOB), S.HandlerReturns(0, S.Failed(""))) == v1
            && S.Enabled(v1, S.Called(0)) && S.Step(v1, S.Called(0)) == WithJob(FAILING_JOB)
  {
  }

  lemma HandlerFails() returns (events: seq<Event>, s: State)
    ensures Run(events) == Some(s) && Arrived(s)
    ensures s.server.written == [] && !s.server.broken
    ensures s.server.lock.Free? && s.server.jobs == [FAILING_JOB]
  {
    FailingSteps();
    events, s := RequestArrives();
    events, s := RequestIsRead(events, s);
    events, s := ServerThen(events, s, S.HandlerReturns(0, S.Failed("")),
                            WithJob(FAILING_JOB.(main := S.Selecting, worker := S.Offering)));
    events, s := ServerThen(events, s, S.Called(0), WithJob(FAILING_JOB));
  }

  lemma HeaderIsWritten() returns (events: seq<Event>, s: State)
    ensures Run(events) == Some(s) && Arrived(s)
    ensures s.server.written == [] && !s.server.broken
    ensures s.server.lock == S.Held(0, true) && s.server.jobs == [FAILING_JOB]
  {
    events, s := HandlerFails();
    events, s := Then(events, s, Server(S.Acquire(0)));
    events, s := Then(events, s, Server(S.WriteHeader));
  }

  lemma BodySteps(v: S.State)
    requires v.written == [] && !v.broken && v.lock == S.Held(0, true) && v.jobs == [FAILING_JOB]
    ensures S.Enabled(v, S.WriteBody)
    ensures var v' := S.Step(v, S.WriteBody);
            v'.written == [Response(1, "", [])] && |v'.jobs| == 1 && v'.jobs[0].result == Some(S.Failed(""))
  {
  }

  lemma ErrorIsWritten() returns (events: seq<Event>, s: State)
    ensures Run(events) == Some(s) && Arrived(s) && s.server.written == [Response(1, "", [])]
    ensures |s.server.jobs| == 1 && s.server.jobs[0].result == Some(S.Failed(""))
  {
    events, s := HeaderIsWritten();
    BodySteps(s.server);
    events, s := ServerThen(events, s, S.WriteBody, S.Step(s.server, S.WriteBody));
  }

  lemma ErrorIsRead() returns (events: seq<Event>, s: State)
    ensures Run(events) == Some(s) && s.strays == 0
    ensures s.client == WAITING_CLIENT.(receiver := C.Dispatching(Response(1, "", [])))
    ensures |s.server.jobs| == 1 && s.server.jobs[0].result == Some(S.Failed(""))
  {
    events, s := ErrorIsWritten();
    events, s := Then(events, s, Receive);
  }

  lemma ErrorIsDispatched() returns (events: seq<Event>, s: State)
    ensures Run(events) == Some(s) && s.strays == 0
    ensures s.client == WAITING_CLIENT.(table := Table(2, map[], false, false),
                                        receiver := C.Signalling(0, Reply([]), true))
    ensures |s.server.jobs| == 1 && s.server.jobs[0].result == Some(S.Failed(""))
  {
    events, s := ErrorIsRead();
    events, s := Then(events, s, Client(C.Dispatch));
    assert s.client.receiver == C.ReadingBody(Some(0), Response(1, "", []));
    events, s := Then(events, s, Client(C.ReadBody(true)));
  }

  // A handler that fails with an empty text: its caller sees success.
  lemma EmptyErrorReadsAsSuccess() returns (events: seq<Event>, s: State)
    ensures Reaches(events, s)
    ensures |s.client.calls| == 1 && s.client.calls[0].signals == [Reply([])]
    ensures |s.server.jobs| == 1 && s.server.jobs[0].result == Some(S.Failed(""))
  {
    events, s := ErrorIsDispatched();
    events, s := Then(events, s, Client(C.Signal));
  }

  // --- A header left alone -----------------------------------------------------

  const HELLO: string := "S.Hello"

  // The second call's arguments: a name and an age. They are the fields 1 and 2
  // of their message, so their bytes are those of a header.
  const HELLO_ARGS: seq<byte> := HeaderBytes(HELLO, 2)

  const FAILED_CALL: C.Call := C.Call(HELLO, [], 1, C.Returned, [LocalError], C.Waiting)

  function Waiting(seqNo: nat, args: seq<byte>): C.Call {
    C.Call(HELLO, args, seqNo, C.Returned, [], C.Waiting)
  }

  // The client between two sends.
  function Idle(calls: seq<C.Call>, pending: map<nat, C.CallId>): C.State {
    C.State(Table(|calls| + 1, pending, false, false), calls, C.Free, C.Reading, |calls|)
  }

  // The client while its last call is being written.
  function Busy(calls: seq<C.Call>, pending: map<nat, C.CallId>, args: seq<byte>): C.State {
    var n := |calls|;
    C.State(Table(n + 2, pending[n + 1 := n], false, false),
            calls + [C.Call(HELLO, args, n + 1, C.InSend, [], C.Waiting)], C.Writing(n), C.Reading, n + 1)
  }

  lemma CallSteps(calls: seq<C.Call>, pending: map<nat, C.CallId>, args: seq<byte>)
    requires |calls| < 10
    ensures var c := Idle(calls, pending);
            var c1 := C.Step(c, C.Invoke(HELLO, args));
            && C.Enabled(c1, C.LockSending(|calls|))
            && var c2 := C.Step(c1, C.LockSending(|calls|));
               && C.Enabled(c2, C.RegisterCall) && C.Step(c2, C.RegisterCall) == Busy(calls, pending, args)
  {
  }

  // A call up to the point at which its request is written.
  lemma CallIsBusy(before: seq<Event>, s: State, calls: seq<C.Call>, pending: map<nat, C.CallId>, args: seq<byte>)
    returns (events: seq<Event>, s': State)
    requires Run(before) == Some(s) && s.client == Idle(calls, pending) && |calls| < 10
    ensures Run(events) == Some(s') && s' == s.(client := Busy(calls, pending, args))
  {
    CallSteps(calls, pending, args);
    var c1 := C.Step(s.client, C.Invoke(HELLO, args));
    var c2 := C.Step(c1, C.LockSending(|calls|));
    events, s' := ClientThen(before, s, C.Invoke(HELLO, args), c1);
    events, s' := ClientThen(events, s', C.LockSending(|calls|), c2);
    events, s' := ClientThen(events, s', C.RegisterCall, Busy(calls, pending, args));
  }

  lemma FailSteps()
    ensures var c := C.Step(Busy([], map[], []), C.WriteFailed);
            && C.Enabled(Busy([], map[], []), C.WriteFailed) && C.Enabled(Busy([], map[], []), C.WriteOk)
            && C.Enabled(c, C.Retract)
            && var c1 := C.Step(c, C.Retract);
               && C.Enabled(c1, C.Notify) && C.Step(c1, C.Notify) == Idle([FAILED_CALL], map[])
  {
    var call := C.Call(HELLO, [], 1, C.InSend, [], C.Waiting);
    var c1 := C.Step(C.Step(Busy([], map[], []), C.WriteFailed), C.Retract);
    assert c1.table.pending == map[] && c1.calls == [call] && c1.lock == C.Notifying(0, 0);
    var c2 := C.Step(c1, C.Notify);
    assert |c2.calls| == 1 && c2.calls[0] == FAILED_CALL;
    assert c2.calls == [FAILED_CALL];
  }

  const FIRST_HEADER: Frame := HeaderFrame(HELLO, 1)

  // The first call fails because its arguments cannot be encoded, and leaves its
  // header behind.
  const AFTER_FAILURE: State := State(Idle([FAILED_CALL], map[]), S.INITIAL, [], [], [FIRST_HEADER], 0, 0, 0)

  lemma FirstCallFails() returns (events: seq<Event>, s: State)
    ensures Run(events) == Some(s) && s == AFTER_FAILURE
  {
    FailSteps();
    var c := C.Step(Busy([], map[], []), C.WriteFailed);
    var c1 := C.Step(c, C.Retract);
    events, s := CallIsBusy([], INITIAL, [], map[], []);
    events, s := StrayThen(events, s, c);
    events, s := ClientThen(events, s, C.Retract, c1);
    events, s := ClientThen(events, s, C.Notify, Idle([FAILED_CALL], map[]));
  }

  lemma StrayThen(before: seq<Event>, s: State, c: C.State) returns (events: seq<Event>, s': State)
    requires Run(before) == Some(s) && s == INITIAL.(client := Busy([], map[], []))
    requires Enabled(s, SendStray) && C.Step(s.client, C.WriteFailed) == c
    ensures Run(events) == Some(s') && s' == AFTER_FAILURE.(client := c)
  {
    events, s' := Then(before, s, SendStray);
    assert s'.frames == [FIRST_HEADER];
  }

  lemma SendStep(calls: seq<C.Call>, pending: map<nat, C.CallId>, args: seq<byte>)
    requires |calls| < 10
    ensures C.Enabled(Busy(calls, pending, args), C.WriteOk)
    ensures C.Step(Busy(calls, pending, args), C.WriteOk)
         == Idle(calls + [Waiting(|calls| + 1, args)], pending[|calls| + 1 := |calls|])
  {
    assert C.Step(Busy(calls, pending, args), C.WriteOk).calls == calls + [Waiting(|calls| + 1, args)];
  }

  lemma CallIsSent(before: seq<Event>, s: State, calls: seq<C.Call>, pending: map<nat, C.CallId>, args: seq<byte>)
    returns (events: seq<Event>, s': State)
    requires Run(before) == Some(s) && s.client == Idle(calls, pending) && |calls| < 10
    ensures Run(events) == Some(s')
    ensures s'.client == Idle(calls + [Waiting(|calls| + 1, args)], pending[|calls| + 1 := |calls|])
    ensures s'.frames == s.frames + [HeaderFrame(HELLO, |calls| + 1), BodyFrame(args)]
    ensures s'.server == s.server && s'.flushed == |s'.frames| && s'.got == s.got
    ensures s.flushed <= |s.frames| ==> s'.strays == s.strays + |s.frames| - s.flushed
  {
    SendStep(calls, pending, args);
    events, s' := CallIsBusy(before, s, calls, pending, args);
    events, s' := Then(events, s', Send);
  }

  // What the client and the stream look like when three calls have been made.
  function ThreeCalls(args: seq<byte>): C.State {
    Idle([FAILED_CALL, Waiting(2, HELLO_ARGS), Waiting(3, args)], map[2 := 1, 3 := 2])
  }

  function FiveFrames(args: seq<byte>): seq<Frame> {
    [FIRST_HEADER, HeaderFrame(HELLO, 2), BodyFrame(HELLO_ARGS), HeaderFrame(HELLO, 3), BodyFrame(args)]
  }

  predicate Sent(s: State, args: seq<byte>) {
    s.client == ThreeCalls(args) && s.frames == FiveFrames(args) && s.flushed == 5 && s.strays == 1 && s.got == 0
  }

  lemma ThreeCallsAreMade(args: seq<byte>) returns (events: seq<Event>, s: State)
    ensures Run(events) == Some(s) && Sent(s, args) && s.server == S.INITIAL
  {
    events, s := FirstCallFails();
    events, s := CallIsSent(events, s, [FAILED_CALL], map[], HELLO_ARGS);
    assert [FAILED_CALL] + [Waiting(2, HELLO_ARGS)] == [FAILED_CALL, Waiting(2, HELLO_ARGS)];
    events, s := CallIsSent(events, s, [FAILED_CALL, Waiting(2, HELLO_ARGS)], map[2 := 1], args);
    assert s.client.calls == ThreeCalls(args).calls;
    assert s.frames == FiveFrames(args);
  }

  // Each request is read one frame too early.
  const FIRST_READ: S.Request := S.Request(1, HELLO, "", HeaderBytes(HELLO, 2))
  const SECOND_READ: S.Request := S.Request(2, HELLO, "", HeaderBytes(HELLO, 3))

  function NewJob(r: S.Request): S.Job {
    S.Job(r, "", S.Selecting, S.Running, None, [])
  }

  // The server with both requests, and how far the second one is.
  function Serving(second: S.Job, lock: S.Lock): S.State {
    S.INITIAL.(jobs := [NewJob(FIRST_READ), second], group := 2, lock := lock)
  }

  lemma ServerReadsTwo(args: seq<byte>) returns (events: seq<Event>, s: State)
    ensures Run(events) == Some(s) && Sent(s, args) && s.server == Serving(NewJob(SECOND_READ), S.Free)
  {
    events, s := ThreeCallsAreMade(args);
    events, s := Then(events, s, ServerRead(FIRST_READ));
    assert s.server.jobs == [NewJob(FIRST_READ)];
    assert ReadsHeader(s.frames[2], HELLO, 2) && BytesOf(s.frames[3]) == SECOND_READ.args;
    events, s := Then(events, s, ServerRead(SECOND_READ));
    assert s.server.jobs == [NewJob(FIRST_READ), NewJob(SECOND_READ)];
  }

  function DoneJob(worker: S.Worker, main: S.Main, body: seq<byte>): S.Job {
    NewJob(SECOND_READ).(worker := worker, main := main, result := Some(S.Done(body)))
  }

  lemma HandlerSteps(body: seq<byte>)
    ensures var v := Serving(NewJob(SECOND_READ), S.Free);
            var v1 := Serving(DoneJob(S.Offering, S.Selecting, body), S.Free);
            var v2 := Serving(DoneJob(S.Responding, S.Awaiting, body), S.Free);
            && S.Enabled(v, S.HandlerReturns(1, S.Done(body))) && S.Step(v, S.HandlerReturns(1, S.Done(body))) == v1
            && S.Enabled(v1, S.Called(1)) && S.Step(v1, S.Called(1)) == v2
            && S.Enabled(v2, S.Acquire(1)) && S.Step(v2, S.Acquire(1)) == v2.(lock := S.Held(1, false))
  {
  }

  lemma WriteSteps(body: seq<byte>)
    ensures var v := Serving(DoneJob(S.Responding, S.Awaiting, body), S.Held(1, false));
            var v1 := v.(lock := S.Held(1, true), wire := [S.HeaderFrame(2, "")]);
            && S.Enabled(v, S.WriteHeader) && S.Step(v, S.WriteHeader) == v1
            && S.Enabled(v1, S.WriteBody)
            && var v2 := S.Step(v1, S.WriteBody);
               && v2.written == [Response(2, "", body)] && v2.lock.Free? && |v2.jobs| == 2
               && v2.jobs[1].request == SECOND_READ && v2.jobs[1].result == Some(S.Done(body))
  {
  }

  // The second request is answered.
  lemma SecondIsAnswered(args: seq<byte>, body: seq<byte>) returns (events: seq<Event>, s: State)
    ensures Run(events) == Some(s) && Sent(s, args)
    ensures s.server.written == [Response(2, "", body)] && |s.server.jobs| == 2
    ensures s.server.jobs[1].request == SECOND_READ && s.server.jobs[1].result == Some(S.Done(body))
  {
    HandlerSteps(body);
    WriteSteps(body);
    var v := Serving(DoneJob(S.Responding, S.Awaiting, body), S.Held(1, false));
    var v1 := v.(lock := S.Held(1, true), wire := [S.HeaderFrame(2, "")]);
    events, s := ServerReadsTwo(args);
    events, s := ServerThen(events, s, S.HandlerReturns(1, S.Done(body)),
                            Serving(DoneJob(S.Offering, S.Selecting, body), S.Free));
    events, s := ServerThen(events, s, S.Called(1), Serving(DoneJob(S.Responding, S.Awaiting, body), S.Free));
    events, s := ServerThen(events, s, S.Acquire(1), v);
    events, s := ServerThen(events, s, S.WriteHeader, v1);
    events, s := ServerThen(events, s, S.WriteBody, S.Step(v1, S.WriteBody));
  }

  lemma ReceiveSteps(args: seq<byte>, body: seq<byte>)
    ensures var r := Response(2, "", body);
            var c := C.Step(ThreeCalls(args), C.ReadHeader(r));
            && C.Enabled(ThreeCalls(args), C.ReadHeader(r)) && C.Enabled(c, C.Dispatch)
            && var c1 := C.Step(c, C.Dispatch);
               && C.Enabled(c1, C.ReadBody(true))
               && var c2 := C.Step(c1, C.ReadBody(true));
                  && C.Enabled(c2, C.Signal)
                  && var c3 := C.Step(c2, C.Signal);
                     && |c3.calls| == 3 && c3.calls[1] == Waiting(2, HELLO_ARGS).(signals := [Reply(body)])
                     && c3.issued == 3
  {
  }

  lemma HeadersDiffer()
    ensures HeaderBytes(HELLO, 2) != HeaderBytes(HELLO, 3)
  {
    var two, three := HeaderBytes(HELLO, 2), HeaderBytes(HELLO, 3);
    assert two[|two| - 1] == 2 && three[|three| - 1] == 3;
  }

  // A call whose arguments cannot be encoded is completed with an error, and
  // leaves its header on the stream. From then on the server reads every request
  // one frame too early: the second call, whose arguments have the bytes of a
  // header with its own number, completes without error and holds what the
  // handler made of other arguments, the bytes of the third call's header.
  lemma StrayHeaderMixesUpArguments(args: seq<byte>, body: seq<byte>) returns (events: seq<Event>, s: State)
    ensures Run(events) == Some(s) && s.client.issued == 3 && s.strays == 1
    ensures |s.client.calls| == 3 && s.client.calls[1].signals == [Reply(body)]
    ensures |s.server.jobs| == 2 && s.server.jobs[1].result == Some(S.Done(body))
    ensures s.server.jobs[1].request.seqNo == s.client.calls[1].seqNo
    ensures s.server.jobs[1].request.args != s.client.calls[1].args
  {
    HeadersDiffer();
    ReceiveSteps(args, body);
    var r := Response(2, "", body);
    var c := C.Step(ThreeCalls(args), C.ReadHeader(r));
    var c1 := C.Step(c, C.Dispatch);
    var c2 := C.Step(c1, C.ReadBody(true));
    events, s := SecondIsAnswered(args, body);
    events, s := Then(events, s, Receive);
    events, s := ClientThen(events, s, C.Dispatch, c1);
    events, s := ClientThen(events, s, C.ReadBody(true), c2);
    events, s := ClientThen(events, s, C.Signal, C.Step(c2, C.Signal));
  }

  // A header left alone can go out without any later write, if the buffer is full.
  lemma FullBufferHandsOn() returns (events: seq<Event>, s: State)
    ensures Run(events) == Some(s) && s.strays == 1 && s.flushed == 1 && s.sent == []
  {
    events, s := FirstCallFails();
    events, s := Then(events, s, HandOn);
  }

  // --- Errors that tell little -------------------------------------------------

  lemma RetractSteps(v: C.State, c: C.CallId)
    requires C.Inv(v) && v.lock == C.Writing(c) && C.IsPending(v, c)
    ensures C.Enabled(v, C.WriteFailed)
    ensures var v1 := C.Step(v, C.WriteFailed);
            && C.Enabled(v1, C.Retract)
            && var v2 := C.Step(v1, C.Retract);
               && C.Enabled(v2, C.Notify)
               && c < |C.Step(v2, C.Notify).calls| && C.Step(v2, C.Notify).calls[c].signals == [LocalError]
  {
    C.PendingIsSelf(v, c);
    assert C.CallInv(v, c);
  }

  // A caller that is told that its request could not be written knows nothing: in
  // every reachable state the request may have arrived whole or not at all.
  lemma FailedWriteMayHaveArrived(before: seq<Event>, s: State, c: C.CallId, arrived: bool)
    returns (events: seq<Event>, s': State)
    requires Run(before) == Some(s) && s.client.issued < SEQ_MODULUS && c < |s.client.calls|
    requires s.client.lock == C.Writing(c) && C.IsPending(s.client, c)
    ensures before <= events && Run(events) == Some(s')
    ensures c < |s'.client.calls| && s'.client.calls[c].signals == [LocalError]
    ensures s'.sent == s.sent + if arrived then [RequestOf(s.client.calls[c])] else []
  {
    SidesRun(before, s);
    C.RunInv(ClientEvents(before), s.client);
    RetractSteps(s.client, c);
    var v1 := C.Step(s.client, C.WriteFailed);
    var v2 := C.Step(v1, C.Retract);
    events, s' := Then(before, s, SendFails(arrived));
    events, s' := ClientThen(events, s', C.Retract, v2);
    events, s' := ClientThen(events, s', C.Notify, C.Step(v2, C.Notify));
  }

  lemma BlankSteps(v: C.State)
    requires C.Inv(v) && v.receiver.Reading? && 0 !in v.table.pending
    ensures C.Enabled(v, C.ReadHeader(BLANK))
    ensures var v1 := C.Step(v, C.ReadHeader(BLANK));
            && C.Enabled(v1, C.Dispatch)
            && var v2 := C.Step(v1, C.Dispatch);
               && C.Enabled(v2, C.ReadBody(false))
               && C.Step(v2, C.ReadBody(false)) == v.(receiver := C.Failing)
  {
  }

  // An error in reading a header is swallowed; the client stops all the same, when
  // it fails to read the body that is not there, and nothing else has changed.
  lemma SwallowedErrorStopsTheClient(before: seq<Event>, s: State) returns (events: seq<Event>, s': State)
    requires Run(before) == Some(s) && s.client.issued < SEQ_MODULUS && s.client.receiver.Reading?
    ensures before <= events && Run(events) == Some(s') && s' == s.(client := s.client.(receiver := C.Failing))
  {
    SidesRun(before, s);
    C.RunInv(ClientEvents(before), s.client);
    BlankSteps(s.client);
    var v1 := C.Step(s.client, C.ReadHeader(BLANK));
    var v2 := C.Step(v1, C.Dispatch);
    events, s' := Then(before, s, ReceiveBlank);
    events, s' := ClientThen(events, s', C.Dispatch, v2);
    events, s' := ClientThen(events, s', C.ReadBody(false), C.Step(v2, C.ReadBody(false)));
  }
}
