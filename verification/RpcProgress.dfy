// That neither side of the RPC protocol can get stuck: from every reachable state
// the client can be shut down with every call completed, and the server can
// answer every request and then close the connection.
module RpcProgress {
  import opened Wrappers
  import opened RpcTable
  import C = RpcClient
  import S = RpcServer

  // --- The client --------------------------------------------------------------

  // A continuation in which the callers only wait.
  ghost predicate Waits(events: seq<C.Event>, s: C.State, events': seq<C.Event>, s': C.State) {
    && events <= events' && C.Reaches(events', s') && |s'.calls| == |s.calls|
    && (s.table.closing || s.table.shutdown ==> s'.table.closing || s'.table.shutdown)
    && (forall c: C.CallId :: c < |s.calls| ==> s'.calls[c].waiter == s.calls[c].waiter)
  }

  predicate Patient(e: C.Event) {
    !C.CallerEvent(e) || e.Close?
  }

  lemma PatientStep(s: C.State, e: C.Event)
    requires C.Enabled(s, e) && Patient(e)
    ensures var s' := C.Step(s, e);
            && |s'.calls| == |s.calls|
            && (s.table.closing || s.table.shutdown ==> s'.table.closing || s'.table.shutdown)
            && (forall c: C.CallId :: c < |s.calls| ==> s'.calls[c].waiter == s.calls[c].waiter)
  {
  }

  lemma Then(from: seq<C.Event>, s0: C.State, events: seq<C.Event>, s: C.State, e: C.Event)
    returns (events': seq<C.Event>, s': C.State)
    requires Waits(from, s0, events, s) && C.Enabled(s, e) && Patient(e) && C.Step(s, e).issued < SEQ_MODULUS
    ensures s' == C.Step(s, e) && Waits(from, s0, events', s')
  {
    events', s' := C.Then(events, s, e);
    PatientStep(s, e);
  }

  predicate Sealed(s: C.State) {
    s.table.closing || s.table.shutdown
  }

  // Whoever holds the mutex can finish, except the terminating receiver.
  lemma LockCanBeFreed(from: seq<C.Event>, s0: C.State, events: seq<C.Event>, s: C.State)
    returns (events': seq<C.Event>, s': C.State)
    requires Waits(from, s0, events, s) && Sealed(s) && !s.lock.Terminating?
    ensures Waits(from, s0, events', s') && Sealed(s') && s'.lock.Free? && s'.receiver == s.receiver
  {
    events', s' := events, s;
    C.RunInv(events', s');
    if s'.lock.Entering? {
      events', s' := Then(from, s0, events', s', C.RegisterCall);
    } else if s'.lock.Writing? {
      events', s' := Then(from, s0, events', s', C.WriteOk);
    } else if s'.lock.Retracting? {
      events', s' := Then(from, s0, events', s', C.Retract);
    }
    C.RunInv(events', s');
    if s'.lock.Notifying? {
      events', s' := Then(from, s0, events', s', C.Notify);
    }
  }

  // The receiver can come to an end of its loop.
  lemma ReceiverCanFail(from: seq<C.Event>, s0: C.State, events: seq<C.Event>, s: C.State)
    returns (events': seq<C.Event>, s': C.State)
    requires Waits(from, s0, events, s) && Sealed(s) && s.lock.Free?
    ensures Waits(from, s0, events', s') && s'.lock.Free? && (s'.receiver.Failing? || s'.receiver.Exited?)
  {
    events', s' := events, s;
    C.RunInv(events', s');
    if s'.receiver.Dispatching? {
      events', s' := Then(from, s0, events', s', C.Dispatch);
    }
    if s'.receiver.ReadingBody? {
      events', s' := Then(from, s0, events', s', C.ReadBody(false));
    }
    C.RunInv(events', s');
    if s'.receiver.Signalling? {
      assert C.InReceiverHand(s', s'.receiver.call);
      events', s' := Then(from, s0, events', s', C.Signal);
    }
    if s'.receiver.Reading? {
      events', s' := Then(from, s0, events', s', C.ReadHeaderFailed);
    }
  }

  lemma {:induction false} TerminationCanEnd(from: seq<C.Event>, s0: C.State, events: seq<C.Event>, s: C.State)
    returns (events': seq<C.Event>, s': C.State)
    requires Waits(from, s0, events, s) && s.lock.Terminating?
    ensures Waits(from, s0, events', s') && s'.lock.Free? && s'.receiver.Exited?
    decreases if s.lock.Terminating? then |s.lock.todo| else 0
  {
    C.RunInv(events, s);
    if s.lock.todo == {} {
      events', s' := Then(from, s0, events, s, C.EndTerminate);
    } else {
      var q :| q in s.lock.todo;
      events', s' := Then(from, s0, events, s, C.TerminateOne(q));
      events', s' := TerminationCanEnd(from, s0, events', s');
    }
  }

  // From every reachable state the receiver can exit and leave the mutex free.
  lemma CanShutDown(events: seq<C.Event>, s: C.State) returns (events': seq<C.Event>, s': C.State)
    requires C.Reaches(events, s)
    ensures Waits(events, s, events', s') && s'.lock.Free? && s'.receiver.Exited?
  {
    events', s' := events, s;
    if !s.lock.Terminating? {
      events', s' := Then(events, s, events', s', C.Close);
      events', s' := LockCanBeFreed(events, s, events', s');
      events', s' := ReceiverCanFail(events, s, events', s');
      if s'.receiver.Failing? {
        events', s' := Then(events, s, events', s', C.StartTerminate);
      }
    }
    if s'.lock.Terminating? {
      events', s' := TerminationCanEnd(events, s, events', s');
    }
  }

  // In every reachable state every call that was not given up is completed or
  // can still be.
  lemma EveryCallCanBeCompleted(events: seq<C.Event>, s: C.State, c: C.CallId)
    returns (events': seq<C.Event>, s': C.State)
    requires C.Reaches(events, s) && c < |s.calls| && !s.calls[c].waiter.GaveUp?
    ensures events <= events' && C.Reaches(events', s') && c < |s'.calls| && |s'.calls[c].signals| == 1
  {
    events', s' := CanShutDown(events, s);
    C.RunInv(events', s');
    assert C.CallInv(s', c);
    if s'.calls[c].stage.Queued? {
      events', s' := Then(events, s, events', s', C.LockSending(c));
      events', s' := Then(events, s, events', s', C.RegisterCall);
      events', s' := Then(events, s, events', s', C.Notify);
    } else {
      C.ShutdownCompletesEveryCall(events', s', c);
    }
  }

  // A caller whose call is completed can take it, and one that is giving up can
  // do so once a termination under way has ended.
  lemma CallersCanGoOn(events: seq<C.Event>, s: C.State, c: C.CallId)
    returns (events': seq<C.Event>, s': C.State)
    requires C.Reaches(events, s) && c < |s.calls|
    requires (s.calls[c].waiter.Waiting? && s.calls[c].signals != []) || s.calls[c].waiter.GivingUp?
    ensures events <= events' && C.Run(events') == Some(s') && c < |s'.calls|
    ensures s'.calls[c].waiter == if s.calls[c].waiter.Waiting? then C.Took else C.GaveUp
  {
    events', s' := events, s;
    if s.calls[c].waiter.GivingUp? && s.lock.Terminating? {
      events', s' := TerminationCanEnd(events, s, events', s');
    }
    var e := if s.calls[c].waiter.Waiting? then C.Take(c) else C.Withdraw(c);
    events', s' := C.Then(events', s', e);
  }

  // A caller that has given up leaves nothing behind in the table.
  lemma {:induction false} GivenUpIsForgotten(events: seq<C.Event>, s: C.State, c: C.CallId)
    requires C.Reaches(events, s) && c < |s.calls| && s.calls[c].waiter.GaveUp?
    ensures s.calls[c].seqNo !in s.table.pending
  {
    var before, e := C.Run(events[..|events| - 1]).value, events[|events| - 1];
    assert before.issued <= s.issued;
    C.RunInv(events[..|events| - 1], before);
    if c < |before.calls| && before.calls[c].waiter.GaveUp? {
      GivenUpIsForgotten(events[..|events| - 1], before, c);
    }
    StaysForgotten(before, e, c);
  }

  ghost predicate Forgotten(s: C.State, c: C.CallId) {
    c < |s.calls| && s.calls[c].waiter.GaveUp? ==> s.calls[c].seqNo !in s.table.pending
  }

  lemma StaysForgotten(s: C.State, e: C.Event, c: C.CallId)
    requires C.CanStep(s, e) && Forgotten(s, c)
    ensures Forgotten(C.Step(s, e), c)
  {
    if c < |s.calls| {
      assert C.CallInv(s, c);
    }
  }

  // --- The server --------------------------------------------------------------

  // A continuation in which no request is read.
  ghost predicate GoesOn(events: seq<S.Event>, s: S.State, events': seq<S.Event>, s': S.State) {
    events <= events' && S.Run(events') == Some(s') && |s'.jobs| == |s.jobs|
  }

  lemma ServerThen(from: seq<S.Event>, s0: S.State, events: seq<S.Event>, s: S.State, e: S.Event)
    returns (events': seq<S.Event>, s': S.State)
    requires GoesOn(from, s0, events, s) && S.Enabled(s, e) && !e.ReadRequest? && !e.ReadUnknown?
    ensures s' == S.Step(s, e) && GoesOn(from, s0, events', s') && S.Inv(s')
  {
    events', s' := S.Then(events, s, e);
    S.RunInv(events', s');
  }

  // What finishing a response leaves as it was.
  predicate OthersKept(s: S.State, s': S.State, j: nat) {
    && |s'.jobs| == |s.jobs| && s'.broken == s.broken
    && (forall k: nat :: k < |s.jobs| && k != j ==> s'.jobs[k] == s.jobs[k])
  }

  // Whoever has the mutex can write its response whole, if no write has failed.
  lemma ResponseCanBeWritten(from: seq<S.Event>, s0: S.State, events: seq<S.Event>, s: S.State)
    returns (events': seq<S.Event>, s': S.State)
    requires GoesOn(from, s0, events, s) && S.Inv(s) && s.lock.Held? && !s.broken
    ensures GoesOn(from, s0, events', s') && S.Inv(s') && s'.lock.Free? && OthersKept(s, s', s.lock.job)
    ensures s'.written == s.written + [S.ResponseOf(s.jobs[s.lock.job])] && s'.answered == s.answered + [s.lock.job]
    ensures s'.jobs[s.lock.job].answers != []
  {
    var j := s.lock.job;
    assert S.JobInv(s, j);
    events', s' := events, s;
    if !s.lock.headerWritten {
      events', s' := ServerThen(from, s0, events', s', S.WriteHeader);
    }
    events', s' := ServerThen(from, s0, events', s', S.WriteBody);
  }

  // From every reachable state in which no write has failed, every request that
  // has no response yet can be given one, and it reaches the connection whole.
  lemma EveryRequestCanBeAnswered(events: seq<S.Event>, s: S.State, j: nat)
    returns (events': seq<S.Event>, s': S.State)
    requires S.Run(events) == Some(s) && !s.broken && j < |s.jobs| && s.jobs[j].answers == []
    ensures events <= events' && S.Run(events') == Some(s') && j in s'.answered && j < |s'.jobs|
    ensures s'.jobs[j].answers != [] && s'.written != [] && s'.written[|s'.written| - 1] == s'.jobs[j].answers[0]
  {
    S.RunInv(events, s);
    events', s' := events, s;
    if s.lock.Held? && s.lock.job != j {
      events', s' := ResponseCanBeWritten(events, s, events', s');
    }
    if s'.lock.Free? {
      events', s' := AnswerCanBegin(events, s, events', s', j);
    }
    events', s' := ResponseCanBeWritten(events, s, events', s');
    S.RunInv(events', s');
    assert s'.answered[|s'.answered| - 1] == j;
  }

  // Its goroutine can get as far as the mutex.
  lemma AnswerCanBegin(from: seq<S.Event>, s0: S.State, events: seq<S.Event>, s: S.State, j: nat)
    returns (events': seq<S.Event>, s': S.State)
    requires GoesOn(from, s0, events, s) && S.Inv(s) && s.lock.Free? && j < |s.jobs| && s.jobs[j].answers == []
    ensures GoesOn(from, s0, events', s') && S.Inv(s') && s'.lock == S.Held(j, false)
    ensures s'.broken == s.broken
  {
    assert S.JobInv(s, j);
    events', s' := events, s;
    if s.jobs[j].main.Selecting? {
      events', s' := ServerThen(from, s0, events', s', S.Timer(j));
    }
    events', s' := ServerThen(from, s0, events', s', S.Acquire(j));
  }

  // --- The end of the connection -----------------------------------------------

  predicate StayFinished(s: S.State, s': S.State) {
    && |s'.jobs| == |s.jobs|
    && (forall k: nat :: k < |s.jobs| && s.jobs[k].main.Finished? ==> s'.jobs[k].main.Finished?)
  }

  lemma FinishedStep(s: S.State, e: S.Event)
    requires S.Inv(s) && S.Enabled(s, e) && !e.ReadRequest? && !e.ReadUnknown?
    ensures StayFinished(s, S.Step(s, e))
  {
    if s.lock.Held? {
      assert S.JobInv(s, s.lock.job);
    }
    if e.Called? || e.Timer? || e.Sent? {
      assert S.JobInv(s, e.job);
    }
  }

  // As above, and finished jobs stay finished.
  lemma FinishingThen(from: seq<S.Event>, s0: S.State, events: seq<S.Event>, s: S.State, e: S.Event)
    returns (events': seq<S.Event>, s': S.State)
    requires GoesOn(from, s0, events, s) && StayFinished(s0, s) && S.Inv(s)
    requires S.Enabled(s, e) && !e.ReadRequest? && !e.ReadUnknown?
    ensures s' == S.Step(s, e) && GoesOn(from, s0, events', s') && StayFinished(s0, s') && S.Inv(s')
  {
    FinishedStep(s, e);
    events', s' := ServerThen(from, s0, events, s, e);
  }

  // A response can fail, and its goroutine goes on.
  lemma ResponseCanFail(from: seq<S.Event>, s0: S.State, events: seq<S.Event>, s: S.State, j: nat)
    returns (events': seq<S.Event>, s': S.State)
    requires GoesOn(from, s0, events, s) && StayFinished(s0, s) && S.Inv(s)
    requires s.lock.Free? && j < |s.jobs| && S.CanAnswer(s.jobs[j])
    ensures GoesOn(from, s0, events', s') && StayFinished(s0, s') && S.Inv(s') && s'.lock.Free?
    ensures s'.jobs[j].main.Finished? || (s'.jobs[j].main.Awaiting? && s'.jobs[j].worker.Reporting?)
  {
    assert S.JobInv(s, j);
    events', s' := FinishingThen(from, s0, events, s, S.Acquire(j));
    events', s' := FinishingThen(from, s0, events', s', S.WriteFailed);
    assert S.JobInv(s', j);
  }

  lemma JobCanFinish(from: seq<S.Event>, s0: S.State, events: seq<S.Event>, s: S.State, j: nat)
    returns (events': seq<S.Event>, s': S.State)
    requires GoesOn(from, s0, events, s) && StayFinished(s0, s) && S.Inv(s) && s.lock.Free? && j < |s.jobs|
    ensures GoesOn(from, s0, events', s') && StayFinished(s0, s') && S.Inv(s') && s'.lock.Free?
    ensures s'.jobs[j].main.Finished?
  {
    assert S.JobInv(s, j);
    events', s' := events, s;
    if s'.jobs[j].main.Selecting? {
      events', s' := FinishingThen(from, s0, events', s', S.Timer(j));
    }
    if S.CanAnswer(s'.jobs[j]) {
      events', s' := ResponseCanFail(from, s0, events', s', j);
    }
    if s'.jobs[j].main.Awaiting? {
      assert S.JobInv(s', j);
      S.CountLiveBounds(s'.jobs, j);
      events', s' := FinishingThen(from, s0, events', s', S.Sent(j));
    }
  }

  // A continuation after which nobody has the mutex and the first n jobs are
  // finished.
  ghost predicate Ended(events: seq<S.Event>, s: S.State, events': seq<S.Event>, s': S.State, n: nat) {
    && GoesOn(events, s, events', s') && StayFinished(s, s') && s'.lock.Free? && n <= |s.jobs|
    && (forall k: nat :: k < n ==> s'.jobs[k].main.Finished?)
  }

  lemma EndedNext(events: seq<S.Event>, s: S.State, events': seq<S.Event>, s': S.State, n: nat,
                  more: seq<S.Event>, t: S.State)
    requires Ended(events, s, events', s', n) && n < |s.jobs|
    requires GoesOn(events', s', more, t) && StayFinished(s', t) && t.lock.Free? && t.jobs[n].main.Finished?
    ensures Ended(events, s, more, t, n + 1)
  {
  }

  lemma NextCanFinish(events: seq<S.Event>, s: S.State, events': seq<S.Event>, s': S.State, n: nat)
    returns (more: seq<S.Event>, t: S.State)
    requires Ended(events, s, events', s', n) && n < |s.jobs| && S.Inv(s')
    ensures Ended(events, s, more, t, n + 1) && S.Inv(t)
  {
    more, t := JobCanFinish(events', s', events', s', n);
    EndedNext(events, s, events', s', n, more, t);
  }

  lemma JobsCanFinish(events: seq<S.Event>, s: S.State) returns (events': seq<S.Event>, s': S.State)
    requires S.Run(events) == Some(s) && S.Inv(s) && s.lock.Free?
    ensures Ended(events, s, events', s', |s.jobs|) && S.Inv(s')
  {
    events', s' := events, s;
    var n := 0;
    while n < |s.jobs|
      invariant n <= |s.jobs| && Ended(events, s, events', s', n) && S.Inv(s')
    {
      events', s' := NextCanFinish(events, s, events', s', n);
      n := n + 1;
    }
  }

  lemma {:induction false} NobodyIsLive(jobs: seq<S.Job>)
    requires forall k: nat :: k < |jobs| ==> jobs[k].main.Finished?
    ensures S.CountLive(jobs) == 0
  {
    if jobs != [] {
      NobodyIsLive(jobs[..|jobs| - 1]);
    }
  }

  // From every reachable state the server can deal with every request it has
  // read, and close the connection.
  lemma ConnectionCanBeClosed(events: seq<S.Event>, s: S.State) returns (events': seq<S.Event>, s': S.State)
    requires S.Run(events) == Some(s)
    ensures events <= events' && S.Run(events') == Some(s') && s'.reader.Closed? && |s'.jobs| == |s.jobs|
  {
    S.RunInv(events, s);
    events', s' := events, s;
    if s.lock.Held? {
      events', s' := ServerThen(events, s, events', s', S.WriteFailed);
    }
    var more, t := JobsCanFinish(events', s');
    events', s' := more, t;
    NobodyIsLive(s'.jobs);
    if s'.reader.Reading? {
      events', s' := ServerThen(events, s, events', s', S.ReadFailed);
    }
    if s'.reader.Waiting? {
      events', s' := ServerThen(events, s, events', s', S.Close);
    }
  }
}
