// One connection of the RPC server as a transition system.
//
// The reader goroutine reads request headers one after another. Each accepted
// request gets two goroutines: a main one, which waits for the handler or for
// the timer, and a worker, which runs the handler. They meet only on unbuffered
// channels, `called` and `sent`. Whoever answers takes the mutex `sending`,
// writes the header and then the body.
module RpcServer {
  import opened Wrappers
  import opened RpcTable

  datatype Request = Request(seqNo: nat, service: string, error: string, args: seq<byte>)

  datatype HandlerResult = Done(body: seq<byte>) | Failed(text: string)

  // Rejecting: the reader itself answers, because the method is unknown.
  // Expiring: the timer fired first. Awaiting: the handler returned first.
  datatype Main = Rejecting | Selecting | Expiring | Awaiting | Finished

  datatype Worker = Absent | Running | Offering | Responding | Reporting | Ended

  // `error` is the error field of the request's header, which the goroutines
  // overwrite before answering. `result` and `answers` are history: what the
  // handler returned, and every response whose writing was attempted.
  datatype Job = Job(request: Request, error: string, main: Main, worker: Worker,
                     result: Option<HandlerResult>, answers: seq<Response>)

  datatype Lock = Free | Held(job: nat, headerWritten: bool)

  datatype Reader = Reading | Replying(job: nat) | Waiting | Closed

  datatype Frame = HeaderFrame(seqNo: nat, error: string) | BodyFrame(body: seq<byte>)

  // `written` lists the responses written whole, and `answered` the jobs they answer.
  // `broken` records the first write error, after which the buffered writer
  // refuses every further write. `strays` counts the headers left alone on the
  // wire because their body could not be encoded. What the buffer holds counts
  // as written: the next response sends it out.
  datatype State = State(reader: Reader, jobs: seq<Job>, group: nat, lock: Lock, broken: bool, strays: nat,
                         wire: seq<Frame>, written: seq<Response>, answered: seq<nat>)

  const INITIAL: State := State(Reading, [], 0, Free, false, 0, [], [], [])

  const TIMEOUT_TEXT: string := "rpc server: request handle timeout: expect within 10s"

  datatype Event =
    | ReadRequest(request: Request)
    | ReadUnknown(request: Request, text: string)
    | ReadFailed
    | HandlerReturns(job: nat, result: HandlerResult)
    | Called(job: nat)
    | Timer(job: nat)
    | Acquire(job: nat)
    | WriteHeader
    | WriteBody
    | EncodeFailed
    | BodyEncodeFailed
    | WriteFailed
    | Sent(job: nat)
    | Close

  predicate CanAnswer(job: Job) {
    job.main.Rejecting? || job.main.Expiring? || job.worker.Responding?
  }

  predicate Enabled(s: State, e: Event) {
    match e
    case ReadRequest(_) => s.reader.Reading?
    case ReadUnknown(_, text) => s.reader.Reading? && text != ""
    case ReadFailed => s.reader.Reading?
    case HandlerReturns(j, _) => j < |s.jobs| && s.jobs[j].worker.Running?
    case Called(j) => j < |s.jobs| && s.jobs[j].worker.Offering? && s.jobs[j].main.Selecting? && s.jobs[j].result.Some?
    case Timer(j) => j < |s.jobs| && s.jobs[j].main.Selecting?
    case Acquire(j) => j < |s.jobs| && s.lock.Free? && CanAnswer(s.jobs[j])
    case WriteHeader => s.lock.Held? && !s.lock.headerWritten && !s.broken && s.lock.job < |s.jobs|
    case WriteBody => s.lock.Held? && s.lock.headerWritten && !s.broken && s.lock.job < |s.jobs|
      && BodyOf(s.jobs[s.lock.job]).Some?
    case EncodeFailed => s.lock.Held? && !s.lock.headerWritten && s.lock.job < |s.jobs|
    case BodyEncodeFailed => s.lock.Held? && s.lock.headerWritten && s.lock.job < |s.jobs|
    case WriteFailed => s.lock.Held? && s.lock.job < |s.jobs|
    case Sent(j) => j < |s.jobs| && s.jobs[j].worker.Reporting? && s.jobs[j].main.Awaiting? && s.group > 0
    case Close => s.reader.Waiting? && s.group == 0
  }

  // The body that goes out is the reply only when the worker answers after success.
  function BodyOf(job: Job): Option<seq<byte>> {
    if job.main.Rejecting? || job.main.Expiring? then Some([])
    else match job.result
      case Some(Done(body)) => Some(body)
      case Some(Failed(_)) => Some([])
      case None => None
  }

  function ResponseOf(job: Job): Response {
    Response(job.request.seqNo, job.error, if BodyOf(job).Some? then BodyOf(job).value else [])
  }

  function WithJob(s: State, j: nat, job: Job): State
    requires j < |s.jobs|
  {
    s.(jobs := s.jobs[j := job])
  }

  // sendResponse returns, written or not: the lock is released and the
  // goroutine that answered goes on.
  function Answered(s: State): State
    requires s.lock.Held? && s.lock.job < |s.jobs|
  {
    var j := s.lock.job;
    var job := s.jobs[j].(answers := s.jobs[j].answers + [ResponseOf(s.jobs[j])]);
    var s1 := s.(lock := Free);
    if job.main.Rejecting? then WithJob(s1, j, job.(main := Finished)).(reader := Reading)
    else if job.main.Expiring? then
      WithJob(s1, j, job.(main := Finished)).(group := if s.group > 0 then s.group - 1 else 0)
    else WithJob(s1, j, job.(worker := Reporting))
  }

  function Step(s: State, e: Event): State
    requires Enabled(s, e)
  {
    match e
    case ReadRequest(r) =>
      s.(jobs := s.jobs + [Job(r, r.error, Selecting, Running, None, [])], group := s.group + 1)
    case ReadUnknown(r, text) =>
      s.(jobs := s.jobs + [Job(r, text, Rejecting, Absent, None, [])], reader := Replying(|s.jobs|))
    case ReadFailed => s.(reader := Waiting)
    case HandlerReturns(j, result) => WithJob(s, j, s.jobs[j].(worker := Offering, result := Some(result)))
    case Called(j) =>
      var job := s.jobs[j].(main := Awaiting, worker := Responding);
      WithJob(s, j, if job.result.value.Failed? then job.(error := job.result.value.text) else job)
    case Timer(j) => WithJob(s, j, s.jobs[j].(main := Expiring, error := TIMEOUT_TEXT))
    case Acquire(j) => s.(lock := Held(j, false))
    case WriteHeader =>
      var job := s.jobs[s.lock.job];
      s.(lock := Held(s.lock.job, true), wire := s.wire + [HeaderFrame(job.request.seqNo, job.error)])
    case WriteBody =>
      var r := ResponseOf(s.jobs[s.lock.job]);
      Answered(s).(wire := s.wire + [BodyFrame(r.body)], written := s.written + [r],
                  answered := s.answered + [s.lock.job])
    case EncodeFailed => Answered(s)
    case BodyEncodeFailed => Answered(s).(strays := s.strays + 1)
    case WriteFailed => Answered(s).(broken := true)
    case Sent(j) => WithJob(s, j, s.jobs[j].(worker := Ended, main := Finished)).(group := s.group - 1)
    case Close => s.(reader := Closed)
  }

  // --- The inductive invariant -------------------------------------------------

  predicate Live(job: Job) {
    job.main.Selecting? || job.main.Expiring? || job.main.Awaiting?
  }

  function CountLive(jobs: seq<Job>): nat {
    if jobs == [] then 0 else CountLive(jobs[..|jobs| - 1]) + (if Live(jobs[|jobs| - 1]) then 1 else 0)
  }

  // Which response a finished job attempted, and on what grounds.
  predicate Justified(job: Job, r: Response) {
    && r.seqNo == job.request.seqNo
    && match job.worker
       case Absent => r.error == job.error != "" && r.body == []
       case Running => r.error == TIMEOUT_TEXT && r.body == []
       case Offering => r.error == TIMEOUT_TEXT && r.body == []
       case _ =>
         match job.result
         case Some(Done(body)) => r.error == job.request.error && r.body == body
         case Some(Failed(text)) => r.error == text && r.body == []
         case None => false
  }

  ghost predicate JobInv(s: State, j: nat)
    requires j < |s.jobs|
  {
    var job := s.jobs[j];
    && (job.worker.Running? ==> job.result == None)
    && (job.worker.Offering? || job.worker.Responding? || job.worker.Reporting? || job.worker.Ended?
        ==> job.result.Some?)
    && (match job.main
        case Rejecting => job.worker.Absent? && job.answers == [] && job.error != "" && s.reader == Replying(j)
        case Selecting => (job.worker.Running? || job.worker.Offering?) && job.answers == []
          && job.error == job.request.error
        case Expiring => (job.worker.Running? || job.worker.Offering?) && job.answers == [] && job.error == TIMEOUT_TEXT
        case Awaiting =>
          && (job.worker.Responding? || job.worker.Reporting?)
          && (job.worker.Responding? ==> job.answers == [] && Justified(job, ResponseOf(job)))
          && (job.worker.Reporting? ==> |job.answers| == 1)
        case Finished => !job.worker.Responding? && !job.worker.Reporting? && |job.answers| == 1)
    && (job.answers != [] ==> Justified(job, job.answers[0]))
  }

  ghost predicate LockInv(s: State) {
    s.lock.Held? ==> s.lock.job < |s.jobs| && CanAnswer(s.jobs[s.lock.job])
  }

  // The wait group counts the requests whose main goroutine is still at work.
  ghost predicate GroupInv(s: State) {
    s.group == CountLive(s.jobs)
  }

  ghost predicate ReaderInv(s: State) {
    && (s.reader.Replying? ==> s.reader.job < |s.jobs| && s.jobs[s.reader.job].main.Rejecting?)
    && (s.reader.Closed? ==> s.group == 0)
  }

  ghost predicate WrittenInv(s: State) {
    && |s.answered| == |s.written|
    && (forall k | 0 <= k < |s.answered| :: s.answered[k] < |s.jobs| && s.jobs[s.answered[k]].answers == [s.written[k]])
    && (forall k, l | 0 <= k < l < |s.answered| :: s.answered[k] != s.answered[l])
  }

  function Pairs(rs: seq<Response>): seq<Frame> {
    if rs == [] then []
    else
      var last := rs[|rs| - 1];
      Pairs(rs[..|rs| - 1]) + [HeaderFrame(last.seqNo, last.error), BodyFrame(last.body)]
  }

  // As long as no body failed to be encoded, the connection carries whole
  // responses. After them comes at most one lone header: that of the response
  // being written, or of the one that broke the connection, after which nothing
  // is written any more.
  ghost predicate WireInv(s: State) {
    var whole := Pairs(s.written);
    s.strays == 0 ==>
      if s.broken then whole <= s.wire && |s.wire| <= |whole| + 1
      else if s.lock.Held? && s.lock.headerWritten then
        s.lock.job < |s.jobs| && s.wire == whole
          + [HeaderFrame(s.jobs[s.lock.job].request.seqNo, s.jobs[s.lock.job].error)]
      else s.wire == whole
  }

  // Every frame is accounted for.
  ghost predicate LengthInv(s: State) {
    if s.broken then |s.wire| <= 2 * |s.written| + s.strays + 1
    else |s.wire| == 2 * |s.written| + s.strays + if s.lock.Held? && s.lock.headerWritten then 1 else 0
  }

  ghost predicate Inv(s: State) {
    && LockInv(s) && GroupInv(s) && ReaderInv(s) && WrittenInv(s) && WireInv(s) && LengthInv(s)
    && (forall j: nat :: j < |s.jobs| ==> JobInv(s, j))
  }

  lemma InvInitially()
    ensures Inv(INITIAL)
  {
  }

  lemma {:induction false} CountLiveUpdate(jobs: seq<Job>, j: nat, job: Job)
    requires j < |jobs|
    ensures CountLive(jobs[j := job]) ==
            CountLive(jobs) - (if Live(jobs[j]) then 1 else 0) + (if Live(job) then 1 else 0)
  {
    var n := |jobs| - 1;
    if j == n {
      assert jobs[j := job][..n] == jobs[..n];
    } else {
      assert jobs[j := job][..n] == jobs[..n][j := job];
      CountLiveUpdate(jobs[..n], j, job);
    }
  }

  lemma {:induction false} CountLiveAppend(jobs: seq<Job>, job: Job)
    ensures CountLive(jobs + [job]) == CountLive(jobs) + (if Live(job) then 1 else 0)
  {
    assert (jobs + [job])[..|jobs|] == jobs;
  }

  lemma {:induction false} CountLiveBounds(jobs: seq<Job>, j: nat)
    requires j < |jobs| && Live(jobs[j])
    ensures CountLive(jobs) > 0
  {
    if j < |jobs| - 1 {
      CountLiveBounds(jobs[..|jobs| - 1], j);
    }
  }

  predicate AnswerEvent(e: Event) {
    e.WriteBody? || e.EncodeFailed? || e.BodyEncodeFailed? || e.WriteFailed?
  }

  lemma AnsweredJob(s: State, j: nat)
    requires s.lock.Held? && s.lock.job < |s.jobs| && CanAnswer(s.jobs[s.lock.job])
    requires j < |s.jobs| && JobInv(s, j) && JobInv(s, s.lock.job)
    ensures JobInv(Answered(s), j)
  {
  }

  lemma JobPreservedByAnswer(s: State, e: Event, j: nat)
    requires Inv(s) && Enabled(s, e) && AnswerEvent(e) && j < |s.jobs|
    ensures JobInv(Step(s, e), j)
  {
    assert JobInv(s, j) && JobInv(s, s.lock.job);
    AnsweredJob(s, j);
    var t := Step(s, e);
    assert t.jobs == Answered(s).jobs && t.reader == Answered(s).reader;
  }

  lemma JobPreservedByReader(s: State, e: Event, j: nat)
    requires Inv(s) && Enabled(s, e) && (e.ReadRequest? || e.ReadUnknown? || e.ReadFailed? || e.Close?)
    requires j < |Step(s, e).jobs|
    ensures JobInv(Step(s, e), j)
  {
    if j < |s.jobs| {
      assert JobInv(s, j);
    }
  }

  lemma JobPreservedByOthers(s: State, e: Event, j: nat)
    requires Inv(s) && Enabled(s, e) && !AnswerEvent(e) && j < |Step(s, e).jobs|
    ensures JobInv(Step(s, e), j)
  {
    if e.ReadRequest? || e.ReadUnknown? || e.ReadFailed? || e.Close? {
      JobPreservedByReader(s, e, j);
    } else {
      assert JobInv(s, j);
    }
  }

  lemma LockPreserved(s: State, e: Event)
    requires Inv(s) && Enabled(s, e)
    ensures LockInv(Step(s, e))
  {
    if s.lock.Held? {
      assert JobInv(s, s.lock.job);
    }
  }

  lemma GroupPreservedByOthers(s: State, e: Event)
    requires Inv(s) && Enabled(s, e) && !AnswerEvent(e)
    ensures GroupInv(Step(s, e))
  {
    var jobs := Step(s, e).jobs;
    match e
    case ReadRequest(_) => CountLiveAppend(s.jobs, jobs[|s.jobs|]);
    case ReadUnknown(_, _) => CountLiveAppend(s.jobs, jobs[|s.jobs|]);
    case HandlerReturns(j, _) => CountLiveUpdate(s.jobs, j, jobs[j]);
    case Called(j) => CountLiveUpdate(s.jobs, j, jobs[j]);
    case Timer(j) => CountLiveUpdate(s.jobs, j, jobs[j]);
    case Sent(j) => CountLiveUpdate(s.jobs, j, jobs[j]);
    case _ =>
  }

  lemma GroupPreservedByAnswer(s: State, e: Event)
    requires Inv(s) && Enabled(s, e) && AnswerEvent(e)
    ensures GroupInv(Step(s, e))
  {
    var j := s.lock.job;
    assert JobInv(s, j);
    CountLiveUpdate(s.jobs, j, Answered(s).jobs[j]);
    if Live(s.jobs[j]) {
      CountLiveBounds(s.jobs, j);
    }
  }

  lemma ReaderPreserved(s: State, e: Event)
    requires Inv(s) && Enabled(s, e)
    ensures ReaderInv(Step(s, e))
  {
    if s.lock.Held? {
      assert JobInv(s, s.lock.job);
    }
  }

  // The job that answers has not answered before.
  lemma AnswererIsNew(s: State)
    requires WrittenInv(s) && s.lock.Held? && s.lock.job < |s.jobs| && CanAnswer(s.jobs[s.lock.job])
    requires JobInv(s, s.lock.job)
    ensures s.jobs[s.lock.job].answers == [] && s.lock.job !in s.answered
    ensures forall k :: 0 <= k < |s.answered| ==> Answered(s).jobs[s.answered[k]] == s.jobs[s.answered[k]]
  {
  }

  lemma WrittenByAnswer(s: State, e: Event)
    requires WrittenInv(s) && LockInv(s) && Enabled(s, e) && AnswerEvent(e) && JobInv(s, s.lock.job)
    ensures WrittenInv(Step(s, e))
  {
    AnswererIsNew(s);
    var s' := Step(s, e);
    assert s'.jobs == Answered(s).jobs;
    if e.WriteBody? {
      assert s'.answered == s.answered + [s.lock.job];
    } else {
      assert s'.answered == s.answered && s'.written == s.written;
    }
  }

  lemma WrittenByOthers(s: State, e: Event)
    requires WrittenInv(s) && Enabled(s, e) && !AnswerEvent(e)
    ensures WrittenInv(Step(s, e))
  {
    var s' := Step(s, e);
    assert s'.answered == s.answered && s'.written == s.written;
    forall k | 0 <= k < |s.answered| ensures s'.jobs[s.answered[k]].answers == [s.written[k]] {
      assert s.jobs[s.answered[k]].answers == [s.written[k]];
    }
  }

  lemma WrittenPreserved(s: State, e: Event)
    requires Inv(s) && Enabled(s, e)
    ensures WrittenInv(Step(s, e))
  {
    if AnswerEvent(e) {
      WrittenByAnswer(s, e);
    } else {
      WrittenByOthers(s, e);
    }
  }

  lemma {:induction false} PairsAppend(rs: seq<Response>, r: Response)
    ensures Pairs(rs + [r]) == Pairs(rs) + [HeaderFrame(r.seqNo, r.error), BodyFrame(r.body)]
  {
    assert (rs + [r])[..|rs|] == rs;
  }

  lemma {:induction false} PairsLength(rs: seq<Response>)
    ensures |Pairs(rs)| == 2 * |rs|
  {
    if rs != [] {
      PairsLength(rs[..|rs| - 1]);
    }
  }

  lemma WireByAnswer(s: State, e: Event)
    requires WireInv(s) && Enabled(s, e) && AnswerEvent(e)
    ensures WireInv(Step(s, e))
  {
    if e.WriteBody? {
      PairsAppend(s.written, ResponseOf(s.jobs[s.lock.job]));
    }
  }

  // The header on the wire is that of the job that holds the lock, whose error
  // nobody changes meanwhile.
  lemma WireByOthers(s: State, e: Event)
    requires WireInv(s) && LockInv(s) && Enabled(s, e) && !AnswerEvent(e)
    requires s.lock.Held? ==> JobInv(s, s.lock.job)
    ensures WireInv(Step(s, e))
  {
    var s' := Step(s, e);
    if s.lock.Held? {
      assert s'.jobs[s.lock.job].error == s.jobs[s.lock.job].error;
      assert s'.jobs[s.lock.job].request == s.jobs[s.lock.job].request;
    }
  }

  lemma WirePreserved(s: State, e: Event)
    requires Inv(s) && Enabled(s, e)
    ensures WireInv(Step(s, e))
  {
    if AnswerEvent(e) {
      WireByAnswer(s, e);
    } else {
      WireByOthers(s, e);
    }
  }

  lemma LengthPreserved(s: State, e: Event)
    requires LengthInv(s) && Enabled(s, e)
    ensures LengthInv(Step(s, e))
  {
  }

  lemma JobsPreserved(s: State, e: Event)
    requires Inv(s) && Enabled(s, e)
    ensures forall j: nat :: j < |Step(s, e).jobs| ==> JobInv(Step(s, e), j)
  {
    forall j: nat | j < |Step(s, e).jobs| ensures JobInv(Step(s, e), j) {
      if AnswerEvent(e) {
        JobPreservedByAnswer(s, e, j);
      } else {
        JobPreservedByOthers(s, e, j);
      }
    }
  }

  lemma InvPreserved(s: State, e: Event)
    requires Inv(s) && Enabled(s, e)
    ensures Inv(Step(s, e))
  {
    LockPreserved(s, e);
    ReaderPreserved(s, e);
    if AnswerEvent(e) {
      GroupPreservedByAnswer(s, e);
    } else {
      GroupPreservedByOthers(s, e);
    }
    WrittenPreserved(s, e);
    WirePreserved(s, e);
    LengthPreserved(s, e);
    JobsPreserved(s, e);
  }

  // --- Runs --------------------------------------------------------------------

  function Run(events: seq<Event>): Option<State> {
    if events == [] then Some(INITIAL)
    else
      var before := Run(events[..|events| - 1]);
      var e := events[|events| - 1];
      if before.Some? && Enabled(before.value, e) then Some(Step(before.value, e)) else None
  }

  lemma {:induction false} RunInv(events: seq<Event>, s: State)
    requires Run(events) == Some(s)
    ensures Inv(s)
  {
    if events != [] {
      RunInv(events[..|events| - 1], Run(events[..|events| - 1]).value);
      InvPreserved(Run(events[..|events| - 1]).value, events[|events| - 1]);
    }
  }

  // Whichever side wins the race between the handler and the timer, a request
  // is answered at most once, under its own number, and with what that side says.
  lemma {:induction false} AnsweredAtMostOnce(events: seq<Event>, s: State, j: nat)
    requires Run(events) == Some(s) && j < |s.jobs|
    ensures |s.jobs[j].answers| <= 1
    ensures s.jobs[j].answers != [] ==>
              && s.jobs[j].answers[0].seqNo == s.jobs[j].request.seqNo
              && Justified(s.jobs[j], s.jobs[j].answers[0])
    ensures s.jobs[j].answers == [] <==> s.jobs[j].main.Rejecting? || (Live(s.jobs[j]) && !s.jobs[j].worker.Reporting?)
  {
    RunInv(events, s);
    assert JobInv(s, j);
  }

  // Two whole responses on the connection never answer the same request, and
  // each is the one response that request got.
  lemma {:induction false} WrittenResponsesAreDistinctAnswers(events: seq<Event>, s: State, k: nat)
    requires Run(events) == Some(s) && k < |s.written|
    ensures |s.answered| == |s.written| && s.answered[k] < |s.jobs|
    ensures s.jobs[s.answered[k]].answers == [s.written[k]]
    ensures forall l: nat :: l < |s.written| && s.answered[l] == s.answered[k] ==> l == k
  {
    RunInv(events, s);
  }

  // The connection is closed only when every request read from it has had its
  // one response attempted, and nobody can write any more. A worker whose
  // request timed out may still be running, or blocked for ever on `called`.
  lemma {:induction false} ClosedAfterEveryAnswer(events: seq<Event>, s: State, j: nat)
    requires Run(events) == Some(s) && s.reader.Closed?
    ensures s.lock.Free?
    ensures j < |s.jobs| ==>
              && |s.jobs[j].answers| == 1 && s.jobs[j].main.Finished? && !CanAnswer(s.jobs[j])
              && (s.jobs[j].worker.Offering? ==> s.jobs[j].answers[0].error == TIMEOUT_TEXT)
  {
    RunInv(events, s);
    if s.lock.Held? {
      assert JobInv(s, s.lock.job);
      if Live(s.jobs[s.lock.job]) {
        CountLiveBounds(s.jobs, s.lock.job);
      }
    }
    if j < |s.jobs| {
      assert JobInv(s, j);
      if Live(s.jobs[j]) {
        CountLiveBounds(s.jobs, j);
      }
    }
  }

  predicate Stopped(r: Reader) {
    r.Waiting? || r.Closed?
  }

  lemma StopsAt(s: State, e: Event)
    requires Inv(s) && Enabled(s, e)
    ensures Stopped(Step(s, e).reader) <==> Stopped(s.reader) || e.ReadFailed?
  {
    if s.lock.Held? {
      assert JobInv(s, s.lock.job);
    }
  }

  // The reader stops, and the connection can be closed, if and only if the codec
  // has reported an error for some header. The protobuf codec never does, so with
  // it ClosedAfterEveryAnswer does not come to bear.
  lemma {:induction false} ReaderStopsIffReadFailed(events: seq<Event>, s: State)
    requires Run(events) == Some(s)
    ensures Stopped(s.reader) <==> ReadFailed in events
  {
    if events != [] {
      var before, e := Run(events[..|events| - 1]).value, events[|events| - 1];
      RunInv(events[..|events| - 1], before);
      StopsAt(before, e);
      ReaderStopsIffReadFailed(events[..|events| - 1], before);
      assert events == events[..|events| - 1] + [e];
    }
  }

  // In every interleaving of responders: between two responses, and for as long
  // as no write fails, the connection parses as the header-and-body pairs of the
  // responses written whole, if and only if no body failed to be encoded. A
  // failing write leaves at most one more lone header.
  lemma {:induction false} WireHoldsWholeResponses(events: seq<Event>, s: State)
    requires Run(events) == Some(s)
    ensures !s.broken && s.lock.Free? ==> (s.wire == Pairs(s.written) <==> s.strays == 0)
    ensures s.strays == 0 ==> Pairs(s.written) <= s.wire && |s.wire| <= |Pairs(s.written)| + 1
    ensures |s.wire| <= |Pairs(s.written)| + s.strays + 1
  {
    RunInv(events, s);
    PairsLength(s.written);
  }

  lemma Then(events: seq<Event>, s: State, e: Event) returns (events': seq<Event>, s': State)
    requires Run(events) == Some(s) && Enabled(s, e)
    ensures events' == events + [e] && Run(events') == Some(s') && s' == Step(s, e)
  {
    events', s' := events + [e], Step(s, e);
    assert events'[..|events'| - 1] == events;
  }

  // A reply that cannot be encoded leaves its header on the connection.
  lemma HeaderIsLeftAlone(r: Request, body: seq<byte>) returns (events: seq<Event>, s: State)
    ensures Run(events) == Some(s) && s.lock.Free? && !s.broken && s.written == []
    ensures s.wire == [HeaderFrame(r.seqNo, r.error)]
  {
    events, s := Then([], INITIAL, ReadRequest(r));
    events, s := Then(events, s, HandlerReturns(0, Done(body)));
    events, s := Then(events, s, Called(0));
    events, s := Then(events, s, Acquire(0));
    events, s := Then(events, s, WriteHeader);
    events, s := Then(events, s, BodyEncodeFailed);
  }
}
