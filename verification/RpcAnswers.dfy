// What the RPC server answers to each request, told from the events of a run
// alone: what was read, what the handlers returned, and which timers fired.
module RpcAnswers {
  import opened Wrappers
  import opened RpcTable
  import opened RpcServer

  predicate Reads(e: Event) {
    e.ReadRequest? || e.ReadUnknown?
  }

  // How many requests the events have read.
  function ReadCount(events: seq<Event>): nat {
    if events == [] then 0
    else ReadCount(events[..|events| - 1]) + if Reads(events[|events| - 1]) then 1 else 0
  }

  lemma JobsGrow(s: State, e: Event)
    requires Enabled(s, e)
    ensures |Step(s, e).jobs| == |s.jobs| + if Reads(e) then 1 else 0
  {
  }

  lemma {:induction false} EachReadIsAJob(events: seq<Event>, s: State)
    requires Run(events) == Some(s)
    ensures |s.jobs| == ReadCount(events)
  {
    if events != [] {
      EachReadIsAJob(events[..|events| - 1], Run(events[..|events| - 1]).value);
      JobsGrow(Run(events[..|events| - 1]).value, events[|events| - 1]);
    }
  }

  // What the reading of its request decides about a job.
  ghost predicate Follows(job: Job, e: Event) {
    match e
    case ReadRequest(r) => job.request == r && !job.worker.Absent?
    case ReadUnknown(r, text) =>
      && job.request == r && job.worker.Absent? && job.result == None && job.error == text
      && (job.main.Rejecting? || job.main.Finished?)
      && (job.answers == [] || job.answers == [Response(r.seqNo, text, [])])
    case _ => false
  }

  lemma FollowsAtFirst(s: State, e: Event)
    requires Enabled(s, e) && Reads(e)
    ensures |Step(s, e).jobs| == |s.jobs| + 1 && Follows(Step(s, e).jobs[|s.jobs|], e)
  {
  }

  lemma AcceptedStays(s: State, e: Event, j: nat)
    requires Enabled(s, e) && j < |s.jobs| && !s.jobs[j].worker.Absent?
    ensures var jobs := Step(s, e).jobs;
            j < |jobs| && jobs[j].request == s.jobs[j].request && !jobs[j].worker.Absent?
  {
  }

  lemma RefusedStays(s: State, e: Event, j: nat, read: Event)
    requires Inv(s) && Enabled(s, e) && j < |s.jobs| && read.ReadUnknown? && Follows(s.jobs[j], read)
    ensures j < |Step(s, e).jobs| && Follows(Step(s, e).jobs[j], read)
  {
    assert JobInv(s, j);
  }

  lemma FollowsStill(s: State, e: Event, j: nat, read: Event)
    requires Inv(s) && Enabled(s, e) && j < |s.jobs| && Follows(s.jobs[j], read)
    ensures j < |Step(s, e).jobs| && Follows(Step(s, e).jobs[j], read)
  {
    if read.ReadUnknown? {
      RefusedStays(s, e, j, read);
    } else {
      AcceptedStays(s, e, j);
    }
  }

  lemma {:induction false} ReadCountGrows(events: seq<Event>, i: nat)
    requires i < |events| && Reads(events[i])
    ensures ReadCount(events[..i]) < ReadCount(events)
  {
    if i == |events| - 1 {
    } else {
      ReadCountGrows(events[..|events| - 1], i);
      assert events[..|events| - 1][..i] == events[..i];
    }
  }

  // Every request read is one job, in the order of reading, under its own number,
  // method and arguments. A request for an unknown method gets no response but
  // the one that says why it was not accepted.
  lemma {:induction false} RequestsBecomeJobs(events: seq<Event>, s: State, i: nat)
    requires Run(events) == Some(s) && i < |events| && Reads(events[i])
    ensures ReadCount(events[..i]) < |s.jobs|
    ensures var job := s.jobs[ReadCount(events[..i])];
            match events[i]
            case ReadRequest(r) => job.request == r && !job.worker.Absent?
            case ReadUnknown(r, text) =>
              && job.request == r && job.worker.Absent?
              && (job.answers != [] ==> job.answers == [Response(r.seqNo, text, [])])
  {
    JobFollows(events, s, i);
  }

  lemma {:induction false} JobFollows(events: seq<Event>, s: State, i: nat)
    requires Run(events) == Some(s) && i < |events| && Reads(events[i])
    ensures ReadCount(events[..i]) < |s.jobs| && Follows(s.jobs[ReadCount(events[..i])], events[i])
  {
    var front, last := events[..|events| - 1], |events| - 1;
    var before := Run(front).value;
    EachReadIsAJob(front, before);
    if i == last {
      FollowsAtFirst(before, events[last]);
    } else {
      assert front[..i] == events[..i];
      JobFollows(front, before, i);
      RunInv(front, before);
      FollowsStill(before, events[last], ReadCount(events[..i]), events[i]);
    }
  }

  // --- What decides the answer -------------------------------------------------

  // What the handler of job j has returned, if it has.
  function Returned(events: seq<Event>, j: nat): Option<HandlerResult> {
    if events == [] then None
    else ReturnedNow(events[|events| - 1], j, Returned(events[..|events| - 1], j))
  }

  function ReturnedNow(e: Event, j: nat, before: Option<HandlerResult>): Option<HandlerResult> {
    match e
    case HandlerReturns(k, result) => if k == j then Some(result) else before
    case _ => before
  }

  // The timer, or the handler, was first.
  predicate TimerWon(job: Job) {
    (job.main.Expiring? || job.main.Finished?) && (job.worker.Running? || job.worker.Offering?)
  }

  predicate HandlerWon(job: Job) {
    job.worker.Responding? || job.worker.Reporting? || job.worker.Ended?
  }

  ghost predicate RaceSteps(job: Job, job': Job, e: Event, j: nat) {
    && job'.result == ReturnedNow(e, j, job.result)
    && (TimerWon(job') <==> TimerWon(job) || e == Timer(j))
    && (HandlerWon(job') <==> HandlerWon(job) || e == Called(j))
  }

  lemma RaceByAnswer(s: State, e: Event, j: nat)
    requires LockInv(s) && Enabled(s, e) && AnswerEvent(e) && j < |s.jobs| && JobInv(s, j)
    ensures j < |Step(s, e).jobs| && RaceSteps(s.jobs[j], Step(s, e).jobs[j], e, j)
  {
    assert Step(s, e).jobs == Answered(s).jobs;
  }

  lemma RaceByOthers(s: State, e: Event, j: nat)
    requires Enabled(s, e) && !AnswerEvent(e) && j < |s.jobs| && JobInv(s, j)
    ensures j < |Step(s, e).jobs| && RaceSteps(s.jobs[j], Step(s, e).jobs[j], e, j)
  {
  }

  lemma RaceBegins(s: State, e: Event, j: nat)
    requires Enabled(s, e) && |s.jobs| <= j
    ensures ReturnedNow(e, j, None) == None && e != Timer(j) && e != Called(j)
    ensures j < |Step(s, e).jobs| ==>
              var job := Step(s, e).jobs[j]; job.result == None && !TimerWon(job) && !HandlerWon(job)
  {
  }

  // The events tell what a job's handler has returned, and who was first.
  ghost predicate RaceIsTold(events: seq<Event>, s: State, j: nat) {
    if j < |s.jobs| then
      && s.jobs[j].result == Returned(events, j)
      && (TimerWon(s.jobs[j]) <==> Timer(j) in events) && (HandlerWon(s.jobs[j]) <==> Called(j) in events)
    else Returned(events, j) == None && Timer(j) !in events && Called(j) !in events
  }

  lemma RaceIsToldNext(events: seq<Event>, s: State, e: Event, j: nat)
    requires Inv(s) && Enabled(s, e) && RaceIsTold(events, s, j)
    ensures RaceIsTold(events + [e], Step(s, e), j)
  {
    assert (events + [e])[..|events|] == events;
    if j < |s.jobs| {
      assert JobInv(s, j);
      if AnswerEvent(e) {
        RaceByAnswer(s, e, j);
      } else {
        RaceByOthers(s, e, j);
      }
    } else {
      RaceBegins(s, e, j);
    }
  }

  lemma {:induction false} EventsTellTheRace(events: seq<Event>, s: State, j: nat)
    requires Run(events) == Some(s)
    ensures RaceIsTold(events, s, j)
  {
    if events != [] {
      var front, e := events[..|events| - 1], events[|events| - 1];
      RunInv(front, Run(front).value);
      EventsTellTheRace(front, Run(front).value, j);
      RaceIsToldNext(front, Run(front).value, e, j);
      assert events == front + [e];
    }
  }

  lemma AnswerOfTheRace(s: State, j: nat)
    requires j < |s.jobs| && JobInv(s, j) && !s.jobs[j].worker.Absent? && s.jobs[j].answers != []
    ensures var job := s.jobs[j];
            && |job.answers| == 1 && (TimerWon(job) <==> !HandlerWon(job))
            && (TimerWon(job) ==> job.answers[0] == Response(job.request.seqNo, TIMEOUT_TEXT, []))
            && (HandlerWon(job) ==>
                && job.result.Some?
                && job.answers[0] == match job.result.value
                                     case Done(body) => Response(job.request.seqNo, job.request.error, body)
                                     case Failed(text) => Response(job.request.seqNo, text, []))
  {
  }

  lemma {:induction false} JobInvHolds(events: seq<Event>, s: State, j: nat)
    requires Run(events) == Some(s) && j < |s.jobs|
    ensures JobInv(s, j)
  {
    RunInv(events, s);
  }

  // In every interleaving, the one response to a request that was accepted: under
  // the request's own number the reply that its handler returned, or the
  // handler's error, if the handler was heard first; and the timeout, if and only
  // if the timer was.
  lemma {:induction false} AnswerIsDecided(events: seq<Event>, s: State, i: nat, r: Request)
    requires Run(events) == Some(s) && i < |events| && events[i] == ReadRequest(r)
    ensures ReadCount(events[..i]) < |s.jobs|
    ensures var j := ReadCount(events[..i]);
            s.jobs[j].answers != [] ==>
              && (Timer(j) in events <==> Called(j) !in events)
              && (Timer(j) in events ==>
                  s.jobs[j].answers
                  == [Response(r.seqNo, "rpc server: request handle timeout: expect within 10s", [])])
              && (Called(j) in events ==>
                  && Returned(events, j).Some?
                  && s.jobs[j].answers == match Returned(events, j).value
                                          case Done(body) => [Response(r.seqNo, r.error, body)]
                                          case Failed(text) => [Response(r.seqNo, text, [])])
  {
    JobFollows(events, s, i);
    var j := ReadCount(events[..i]);
    EventsTellTheRace(events, s, j);
    if s.jobs[j].answers != [] {
      JobInvHolds(events, s, j);
      AnswerOfTheRace(s, j);
    }
  }

  // A request for an unknown method is told so.
  lemma UnknownIsAnswered(r: Request, text: string) returns (events: seq<Event>, s: State)
    requires text != ""
    ensures Run(events) == Some(s) && events == [ReadUnknown(r, text), Acquire(0), WriteHeader, WriteBody]
    ensures s.written == [Response(r.seqNo, text, [])] && s.reader.Reading?
  {
    events, s := Then([], INITIAL, ReadUnknown(r, text));
    events, s := Then(events, s, Acquire(0));
    events, s := Then(events, s, WriteHeader);
    events, s := Then(events, s, WriteBody);
  }
}
