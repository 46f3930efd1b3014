// The RPC client as a transition system, one step per critical section.
//
// Senders take the mutex `sending` for the whole of a send; the receiver runs
// alone but needs `sending` to terminate the calls; every access to the table
// is one step, and is excluded while the terminating receiver holds `mu`. The
// network is unconstrained: any response may arrive at any time.
module RpcClient {
  import opened Wrappers
  import opened RpcTable

  type CallId = nat

  // Where a call's own `send` is, and what its caller does with the result.
  datatype Stage = Queued | InSend | Returned
  datatype Waiter = Waiting | Took | GivingUp | GaveUp

  // `signals` lists everything ever sent on the call's completion channel.
  datatype Call = Call(service: string, args: seq<byte>, seqNo: nat, stage: Stage,
                         signals: seq<Outcome>, waiter: Waiter)

  // The mutex `sending` with the program counter of its holder.
  datatype Lock =
    | Free
    | Entering(call: CallId)
    | Writing(call: CallId)
    | Retracting(call: CallId)
    | Notifying(call: CallId, target: CallId)
    | Terminating(todo: set<nat>)

  datatype Receiver =
    | Reading
    | Dispatching(response: Response)
    | ReadingBody(target: Option<CallId>, response: Response)
    | Signalling(call: CallId, outcome: Outcome, more: bool)
    | Failing
    | Draining
    | Exited

  // `issued` counts the registrations; it is a history variable.
  datatype State = State(table: Table<CallId>, calls: seq<Call>, lock: Lock, receiver: Receiver, issued: nat)

  const INITIAL: State := State(EmptyTable(), [], Free, Reading, 0)

  datatype Event =
    | Invoke(service: string, args: seq<byte>)
    | LockSending(call: CallId)
    | RegisterCall
    | WriteOk
    | WriteFailed
    | Retract
    | Notify
    | ReadHeader(response: Response)
    | ReadHeaderFailed
    | Dispatch
    | ReadBody(ok: bool)
    | Signal
    | StartTerminate
    | TerminateOne(seqNo: nat)
    | EndTerminate
    | Take(call: CallId)
    | GiveUp(call: CallId)
    | Withdraw(call: CallId)
    | Close

  predicate Enabled(s: State, e: Event) {
    match e
    case Invoke(_, _) => true
    case LockSending(c) => c < |s.calls| && s.lock.Free? && s.calls[c].stage.Queued?
    case RegisterCall => s.lock.Entering? && s.lock.call < |s.calls|
    case WriteOk => s.lock.Writing? && s.lock.call < |s.calls|
    case WriteFailed => s.lock.Writing?
    case Retract => s.lock.Retracting? && s.lock.call < |s.calls|
    case Notify => s.lock.Notifying? && s.lock.call < |s.calls| && s.lock.target < |s.calls|
    case ReadHeader(_) => s.receiver.Reading?
    case ReadHeaderFailed => s.receiver.Reading?
    case Dispatch => s.receiver.Dispatching? && !s.lock.Terminating?
    case ReadBody(_) => s.receiver.ReadingBody?
    case Signal => s.receiver.Signalling? && s.receiver.call < |s.calls|
    case StartTerminate => s.receiver.Failing? && s.lock.Free?
    case TerminateOne(q) => s.lock.Terminating? && q in s.lock.todo && q in s.table.pending
      && s.table.pending[q] < |s.calls|
    case EndTerminate => s.lock.Terminating? && s.lock.todo == {}
    case Take(c) => c < |s.calls| && s.calls[c].waiter.Waiting? && s.calls[c].signals != []
    case GiveUp(c) => c < |s.calls| && s.calls[c].waiter.Waiting? && s.calls[c].stage.Returned?
    case Withdraw(c) => c < |s.calls| && s.calls[c].waiter.GivingUp? && !s.lock.Terminating?
    case Close => !s.lock.Terminating?
  }

  function WithSignal(s: State, c: CallId, o: Outcome): State
    requires c < |s.calls|
  {
    s.(calls := s.calls[c := s.calls[c].(signals := s.calls[c].signals + [o])])
  }

  function WithStage(s: State, c: CallId, stage: Stage): State
    requires c < |s.calls|
  {
    s.(calls := s.calls[c := s.calls[c].(stage := stage)])
  }

  function WithWaiter(s: State, c: CallId, waiter: Waiter): State
    requires c < |s.calls|
  {
    s.(calls := s.calls[c := s.calls[c].(waiter := waiter)])
  }

  function DoRegister(s: State): State
    requires Enabled(s, RegisterCall)
  {
    var c := s.lock.call;
    match Register(s.table, c)
    case None => s.(lock := Notifying(c, c))
    case Some((q, t)) =>
      State(t, s.calls[c := s.calls[c].(seqNo := q)], Writing(c), s.receiver, s.issued + 1)
  }

  function DoRetract(s: State): State
    requires Enabled(s, Retract)
  {
    var c := s.lock.call;
    var (removed, t) := Remove(s.table, s.calls[c].seqNo);
    match removed
    case None => WithStage(s, c, Returned).(table := t, lock := Free)
    case Some(d) => s.(table := t, lock := Notifying(c, d))
  }

  function DoDispatch(s: State): State
    requires Enabled(s, Dispatch)
  {
    var (removed, t) := Remove(s.table, s.receiver.response.seqNo);
    s.(table := t, receiver := ReadingBody(removed, s.receiver.response))
  }

  // An error text in the header wins; otherwise the body is decoded into the reply.
  function OutcomeOf(r: Response, ok: bool): Outcome {
    if r.error != "" then RemoteError(r.error) else if ok then Reply(r.body) else LocalError
  }

  function DoReadBody(s: State, ok: bool): State
    requires Enabled(s, ReadBody(ok))
  {
    match s.receiver.target
    case None => s.(receiver := if ok then Reading else Failing)
    case Some(c) => s.(receiver := Signalling(c, OutcomeOf(s.receiver.response, ok), ok))
  }

  function Step(s: State, e: Event): State
    requires Enabled(s, e)
  {
    match e
    case Invoke(m, a) => s.(calls := s.calls + [Call(m, a, 0, Queued, [], Waiting)])
    case LockSending(c) => WithStage(s, c, InSend).(lock := Entering(c))
    case RegisterCall => DoRegister(s)
    case WriteOk => WithStage(s, s.lock.call, Returned).(lock := Free)
    case WriteFailed => s.(lock := Retracting(s.lock.call))
    case Retract => DoRetract(s)
    case Notify => WithStage(WithSignal(s, s.lock.target, LocalError), s.lock.call, Returned).(lock := Free)
    case ReadHeader(r) => s.(receiver := Dispatching(r))
    case ReadHeaderFailed => s.(receiver := Failing)
    case Dispatch => DoDispatch(s)
    case ReadBody(ok) => DoReadBody(s, ok)
    case Signal =>
      WithSignal(s, s.receiver.call, s.receiver.outcome).(receiver := if s.receiver.more then Reading else Failing)
    case StartTerminate =>
      s.(table := s.table.(shutdown := true), lock := Terminating(s.table.pending.Keys), receiver := Draining)
    case TerminateOne(q) => WithSignal(s, s.table.pending[q], LocalError).(lock := Terminating(s.lock.todo - {q}))
    case EndTerminate => s.(lock := Free, receiver := Exited)
    case Take(c) => WithWaiter(s, c, Took)
    case GiveUp(c) => WithWaiter(s, c, GivingUp)
    case Withdraw(c) => WithWaiter(s, c, GaveUp).(table := Remove(s.table, s.calls[c].seqNo).1)
    case Close => s.(table := s.table.(closing := true))
  }

  // --- The inductive invariant -------------------------------------------------

  ghost predicate InReceiverHand(s: State, c: CallId) {
    || (s.receiver.ReadingBody? && s.receiver.target == Some(c))
    || (s.receiver.Signalling? && s.receiver.call == c)
  }

  ghost predicate InSenderHand(s: State, c: CallId) {
    || s.lock == Entering(c)
    || (s.lock.Notifying? && s.lock.target == c)
  }

  ghost predicate IsPending(s: State, c: CallId)
    requires c < |s.calls|
  {
    s.calls[c].seqNo in s.table.pending
  }

  ghost predicate InSendLock(lock: Lock, c: CallId) {
    (lock.Entering? || lock.Writing? || lock.Retracting? || lock.Notifying?) && lock.call == c
  }

  // A call that somebody is about to complete is not yet completed, not in
  // the table any more, and in one hand only.
  ghost predicate Unsignalled(s: State, c: CallId) {
    c < |s.calls| && s.calls[c].signals == [] && !IsPending(s, c)
  }

  ghost predicate LockInv(s: State) {
    && (s.lock.Entering? ==> Unsignalled(s, s.lock.call) && s.calls[s.lock.call].seqNo == 0)
    && (s.lock.Writing? || s.lock.Retracting? ==>
          s.lock.call < |s.calls| && s.calls[s.lock.call].seqNo != 0 && !s.table.shutdown)
    && (s.lock.Notifying? ==> s.lock.target == s.lock.call && Unsignalled(s, s.lock.call))
    && (s.lock.Terminating? <==> s.receiver.Draining?)
    && (s.lock.Terminating? ==> s.lock.todo <= s.table.pending.Keys)
    && (s.table.shutdown <==> s.receiver.Draining? || s.receiver.Exited?)
  }

  ghost predicate ReceiverInv(s: State) {
    forall c: CallId :: InReceiverHand(s, c) ==> Unsignalled(s, c) && s.calls[c].seqNo != 0 && !InSenderHand(s, c)
  }

  // The table maps each number to the one call that carries it. Numbers start
  // at one, so a removal under number zero finds nothing.
  ghost predicate TableInv(s: State) {
    && s.table.nextSeq == (s.issued + 1) % SEQ_MODULUS
    && (forall q <- s.table.pending ::
          q != 0 && s.table.pending[q] < |s.calls| && s.calls[s.table.pending[q]].seqNo == q)
  }

  ghost predicate DistinctNumbers(s: State, c: CallId, d: CallId)
    requires c < |s.calls| && d < |s.calls|
  {
    s.calls[c].seqNo == s.calls[d].seqNo != 0 ==> c == d
  }

  ghost predicate Accounted(s: State, c: CallId)
    requires c < |s.calls|
  {
    || s.calls[c].stage.Queued?
    || s.calls[c].signals != []
    || IsPending(s, c)
    || InReceiverHand(s, c)
    || InSenderHand(s, c)
    || s.calls[c].waiter.GaveUp?
  }

  ghost predicate CallInv(s: State, c: CallId)
    requires c < |s.calls|
  {
    var call := s.calls[c];
    && call.seqNo <= s.issued
    && (call.stage.Queued? ==> call.seqNo == 0 && call.signals == [] && call.waiter.Waiting?)
    && (call.stage.InSend? <==> InSendLock(s.lock, c))
    && (call.stage.InSend? ==> !call.waiter.GivingUp? && !call.waiter.GaveUp?)
    && |call.signals| <= 1
    && (call.waiter.Took? ==> call.signals != [])
    // A call in the table is unsignalled until termination has reached it.
    && (IsPending(s, c) && !s.table.shutdown ==> call.signals == [])
    && (IsPending(s, c) && s.table.shutdown ==>
          (call.signals == [] <==> s.lock.Terminating? && call.seqNo in s.lock.todo))
    && Accounted(s, c)
  }

  ghost predicate Inv(s: State) {
    && LockInv(s) && ReceiverInv(s) && TableInv(s)
    && (forall c: CallId :: c < |s.calls| ==> CallInv(s, c))
    && (forall c: CallId, d: CallId :: c < |s.calls| && d < |s.calls| ==> DistinctNumbers(s, c, d))
  }

  lemma InvInitially()
    ensures Inv(INITIAL)
  {
  }

  ghost predicate CanStep(s: State, e: Event) {
    Inv(s) && Enabled(s, e) && Step(s, e).issued < SEQ_MODULUS
  }

  // Distinctness, instantiated: the table entry under a call's number is that call.
  lemma PendingIsSelf(s: State, c: CallId)
    requires Inv(s) && c < |s.calls| && IsPending(s, c)
    ensures s.table.pending[s.calls[c].seqNo] == c
  {
    assert DistinctNumbers(s, c, s.table.pending[s.calls[c].seqNo]);
  }

  lemma DistinctPreserved(s: State, e: Event, c: CallId, d: CallId)
    requires CanStep(s, e)
    requires c < |Step(s, e).calls| && d < |Step(s, e).calls|
    ensures DistinctNumbers(Step(s, e), c, d)
  {
    if c < |s.calls| && d < |s.calls| {
      assert DistinctNumbers(s, c, d) && CallInv(s, c) && CallInv(s, d);
    }
  }

  predicate SenderEvent(e: Event) {
    e.LockSending? || e.RegisterCall? || e.WriteOk? || e.WriteFailed? || e.Retract? || e.Notify?
  }

  lemma CallPreservedBySender(s: State, e: Event, c: CallId)
    requires CanStep(s, e) && SenderEvent(e) && c < |s.calls|
    ensures CallInv(Step(s, e), c)
  {
    assert CallInv(s, c);
    if IsPending(s, c) {
      PendingIsSelf(s, c);
    }
    if e.Retract? {
      assert DistinctNumbers(s, c, s.lock.call);
    }
  }

  predicate CallerEvent(e: Event) {
    e.Invoke? || e.Take? || e.GiveUp? || e.Withdraw? || e.Close?
  }

  lemma CallPreservedByCaller(s: State, e: Event, c: CallId)
    requires CanStep(s, e) && CallerEvent(e) && c < |Step(s, e).calls|
    ensures CallInv(Step(s, e), c)
  {
    if c < |s.calls| {
      assert CallInv(s, c);
      if e.Withdraw? {
        assert DistinctNumbers(s, c, e.call);
      }
    }
  }

  lemma CallPreservedByReceiver(s: State, e: Event, c: CallId)
    requires CanStep(s, e) && !SenderEvent(e) && !CallerEvent(e) && c < |s.calls|
    ensures CallInv(Step(s, e), c)
  {
    assert CallInv(s, c);
    if IsPending(s, c) {
      PendingIsSelf(s, c);
    }
  }

  lemma LockPreserved(s: State, e: Event)
    requires CanStep(s, e)
    ensures LockInv(Step(s, e))
  {
    if e.LockSending? {
      assert CallInv(s, e.call);
    } else if s.lock.Entering? || s.lock.Writing? || s.lock.Retracting? || s.lock.Notifying? {
      assert CallInv(s, s.lock.call);
      if IsPending(s, s.lock.call) {
        PendingIsSelf(s, s.lock.call);
      }
    }
  }

  lemma TableBySender(s: State, e: Event)
    requires TableInv(s) && Enabled(s, e) && SenderEvent(e) && Step(s, e).issued < SEQ_MODULUS
    requires e.RegisterCall? ==> s.calls[s.lock.call].seqNo == 0
    ensures TableInv(Step(s, e))
  {
  }

  lemma TableByOthers(s: State, e: Event)
    requires TableInv(s) && Enabled(s, e) && !SenderEvent(e)
    ensures TableInv(Step(s, e))
  {
    assert Step(s, e).issued == s.issued && Step(s, e).table.nextSeq == s.table.nextSeq;
    assert Step(s, e).table.pending.Keys <= s.table.pending.Keys;
  }

  lemma TablePreserved(s: State, e: Event)
    requires CanStep(s, e)
    ensures TableInv(Step(s, e))
  {
    if SenderEvent(e) {
      TableBySender(s, e);
    } else {
      TableByOthers(s, e);
    }
  }

  lemma ReceiverPreserved(s: State, e: Event)
    requires CanStep(s, e)
    ensures ReceiverInv(Step(s, e))
  {
    var s' := Step(s, e);
    forall c: CallId | InReceiverHand(s', c)
      ensures Unsignalled(s', c) && s'.calls[c].seqNo != 0 && !InSenderHand(s', c)
    {
      assert c < |s.calls| && CallInv(s, c);
      if IsPending(s, c) {
        PendingIsSelf(s, c);
      }
      if e.Retract? && IsPending(s, s.lock.call) {
        PendingIsSelf(s, s.lock.call);
      }
    }
  }

  lemma InvPreserved(s: State, e: Event)
    requires CanStep(s, e)
    ensures Inv(Step(s, e))
  {
    var s' := Step(s, e);
    LockPreserved(s, e);
    TablePreserved(s, e);
    ReceiverPreserved(s, e);
    forall c: CallId | c < |s'.calls| ensures CallInv(s', c) {
      if SenderEvent(e) {
        CallPreservedBySender(s, e, c);
      } else if CallerEvent(e) {
        CallPreservedByCaller(s, e, c);
      } else {
        CallPreservedByReceiver(s, e, c);
      }
    }
    forall c: CallId, d: CallId | c < |s'.calls| && d < |s'.calls| ensures DistinctNumbers(s', c, d) {
      DistinctPreserved(s, e, c, d);
    }
  }

  // --- Runs --------------------------------------------------------------------

  function Run(events: seq<Event>): Option<State> {
    if events == [] then Some(INITIAL)
    else
      var before := Run(events[..|events| - 1]);
      var e := events[|events| - 1];
      if before.Some? && Enabled(before.value, e) then Some(Step(before.value, e)) else None
  }

  // The hypothesis of every theorem below: the events are a run in which fewer
  // than 2^64 calls have been registered, so that no number was reused.
  ghost predicate Reaches(events: seq<Event>, s: State) {
    Run(events) == Some(s) && s.issued < SEQ_MODULUS
  }

  lemma {:induction false} RunInv(events: seq<Event>, s: State)
    requires Reaches(events, s)
    ensures Inv(s)
  {
    if events != [] {
      var before := Run(events[..|events| - 1]).value;
      assert before.issued <= s.issued;
      RunInv(events[..|events| - 1], before);
      InvPreserved(before, events[|events| - 1]);
    }
  }

  ghost predicate AboutToSignal(s: State, c: CallId) {
    || (s.lock.Notifying? && s.lock.target == c)
    || (s.receiver.Signalling? && s.receiver.call == c)
    || (s.lock.Terminating? && exists q <- s.lock.todo :: q in s.table.pending && s.table.pending[q] == c)
  }

  // What is left in the completion channel once the caller may have read it.
  function Buffered(call: Call): int {
    |call.signals| - (if call.waiter.Took? then 1 else 0)
  }

  // Each call is completed at most once, in every interleaving.
  lemma CompletedAtMostOnce(events: seq<Event>, s: State, c: CallId)
    requires Reaches(events, s) && c < |s.calls|
    ensures |s.calls[c].signals| <= 1
  {
    RunInv(events, s);
    assert CallInv(s, c);
  }

  // Whoever is about to complete a call finds its channel empty, even at
  // capacity one; so nobody blocks there while holding a mutex.
  lemma CompletionNeverBlocks(events: seq<Event>, s: State, c: CallId)
    requires Reaches(events, s) && AboutToSignal(s, c)
    ensures c < |s.calls| && s.calls[c].signals == [] && Buffered(s.calls[c]) == 0
  {
    RunInv(events, s);
    if s.receiver.Signalling? && s.receiver.call == c {
      assert InReceiverHand(s, c);
    } else if s.lock.Terminating? {
      var q :| q in s.lock.todo && q in s.table.pending && s.table.pending[q] == c;
    }
    assert CallInv(s, c);
  }

  // --- Channels shared by several calls ----------------------------------------

  // The caller may give several calls one channel. How many of the first n calls
  // on channel h have not been received from it, and how many are in it.
  function Outstanding(calls: seq<Call>, chan: CallId -> nat, h: nat, n: nat): nat
    requires n <= |calls|
  {
    if n == 0 then 0
    else Outstanding(calls, chan, h, n - 1) + if chan(n - 1) == h && !calls[n - 1].waiter.Took? then 1 else 0
  }

  function Held(calls: seq<Call>, chan: CallId -> nat, h: nat, n: nat): int
    requires n <= |calls|
  {
    if n == 0 then 0
    else Held(calls, chan, h, n - 1) + if chan(n - 1) == h then Buffered(calls[n - 1]) else 0
  }

  lemma {:induction false} HeldBelowOutstanding(calls: seq<Call>, chan: CallId -> nat, h: nat, n: nat, c: CallId)
    requires n <= |calls| && c < |calls| && chan(c) == h
    requires forall d :: 0 <= d < |calls| ==> Buffered(calls[d]) <= if calls[d].waiter.Took? then 0 else 1
    requires calls[c].signals == [] && !calls[c].waiter.Took?
    ensures Held(calls, chan, h, n) + (if c < n then 1 else 0) <= Outstanding(calls, chan, h, n)
  {
    if n > 0 {
      HeldBelowOutstanding(calls, chan, h, n - 1, c);
    }
  }

  // Whoever shares channels how: a completion does not block as long as the
  // channel has room for every call outstanding on it.
  lemma SharedCompletionNeverBlocks(events: seq<Event>, s: State, c: CallId, chan: CallId -> nat, room: nat)
    requires Reaches(events, s) && AboutToSignal(s, c)
    requires c < |s.calls| && Outstanding(s.calls, chan, chan(c), |s.calls|) <= room
    ensures Held(s.calls, chan, chan(c), |s.calls|) < room
  {
    CompletionNeverBlocks(events, s, c);
    RunInv(events, s);
    forall d | 0 <= d < |s.calls| ensures Buffered(s.calls[d]) <= if s.calls[d].waiter.Took? then 0 else 1 {
      assert CallInv(s, d);
    }
    assert CallInv(s, c);
    HeldBelowOutstanding(s.calls, chan, chan(c), |s.calls|, c);
  }

  // A submitted call that is neither completed nor cancelled is in exactly one
  // place: in the table under its own number, or in the receiver's hand.
  lemma NoCallIsLost(events: seq<Event>, s: State, c: CallId)
    requires Reaches(events, s) && c < |s.calls|
    requires s.calls[c].stage.Returned? && s.calls[c].signals == [] && !s.calls[c].waiter.GaveUp?
    ensures IsPending(s, c) <==> !InReceiverHand(s, c)
    ensures IsPending(s, c) ==> s.table.pending[s.calls[c].seqNo] == c
  {
    RunInv(events, s);
    assert CallInv(s, c);
    if IsPending(s, c) {
      PendingIsSelf(s, c);
    }
  }

  // Once the receiver has exited, every submitted call has been completed
  // exactly once, unless its caller gave it up.
  lemma ShutdownCompletesEveryCall(events: seq<Event>, s: State, c: CallId)
    requires Reaches(events, s) && s.receiver.Exited?
    requires c < |s.calls| && s.calls[c].stage.Returned? && !s.calls[c].waiter.GaveUp?
    ensures |s.calls[c].signals| == 1
  {
    RunInv(events, s);
    assert CallInv(s, c);
  }

  // --- The bound on registrations is needed ------------------------------------

  lemma Then(events: seq<Event>, s: State, e: Event) returns (events': seq<Event>, s': State)
    requires Run(events) == Some(s) && Enabled(s, e)
    ensures events' == events + [e] && Run(events') == Some(s') && s' == Step(s, e)
  {
    events', s' := events + [e], Step(s, e);
    assert events'[..|events'| - 1] == events;
  }

  // The client with `n` calls sent and none answered, the first one still waiting.
  ghost predicate Backlog(s: State, n: nat) {
    && |s.calls| == n == s.issued && s.lock.Free? && s.receiver.Reading?
    && !s.table.closing && !s.table.shutdown
    && s.table.nextSeq == (n + 1) % SEQ_MODULUS
    && (n > 0 ==> s.calls[0] == Call("m", [], 1, Returned, [], Waiting))
    && (forall q <- s.table.pending :: s.table.pending[q] == 0 ==> q == 1)
  }

  // The backlog and one more call, which has just taken the mutex.
  function Submitted(s: State, n: nat): State {
    s.(calls := s.calls + [Call("m", [], 0, InSend, [], Waiting)], lock := Entering(n))
  }

  lemma SubmitEffect(s: State, n: nat)
    requires Backlog(s, n)
    ensures var s1 := Step(s, Invoke("m", []));
            Enabled(s1, LockSending(n)) && Step(s1, LockSending(n)) == Submitted(s, n)
  {
  }

  lemma WriteEffect(s: State, n: nat)
    requires Backlog(s, n)
    ensures var s2 := Submitted(s, n);
            && Enabled(s2, RegisterCall) && Enabled(Step(s2, RegisterCall), WriteOk)
            && var s' := Step(Step(s2, RegisterCall), WriteOk);
               Backlog(s', n + 1) && s'.table.pending == s.table.pending[s.table.nextSeq := n]
  {
  }

  lemma SendOne(events: seq<Event>, s: State, n: nat) returns (events': seq<Event>, s': State)
    requires Run(events) == Some(s) && Backlog(s, n)
    ensures Run(events') == Some(s') && Backlog(s', n + 1)
    ensures s'.table.pending == s.table.pending[s.table.nextSeq := n]
  {
    SubmitEffect(s, n);
    WriteEffect(s, n);
    events', s' := Then(events, s, Invoke("m", []));
    events', s' := Then(events', s', LockSending(n));
    events', s' := Then(events', s', RegisterCall);
    events', s' := Then(events', s', WriteOk);
  }

  lemma {:induction false} BacklogIsReachable(n: nat) returns (events: seq<Event>, s: State)
    ensures Run(events) == Some(s) && Backlog(s, n)
  {
    if n == 0 {
      events, s := [], INITIAL;
    } else {
      events, s := BacklogIsReachable(n - 1);
      events, s := SendOne(events, s, n - 1);
    }
  }

  // After 2^64 registrations the numbers start again. A first call that is still
  // unanswered then loses its place in the table to a new one: it is in nobody's
  // hand and its caller waits for ever.
  lemma WrapAroundLosesACall() returns (events: seq<Event>, s: State)
    ensures Run(events) == Some(s) && s.issued == SEQ_MODULUS + 1
    ensures s.calls != [] && s.calls[0] == Call("m", [], 1, Returned, [], Waiting)
    ensures !InReceiverHand(s, 0) && !InSenderHand(s, 0)
    ensures 0 !in s.table.pending.Values
  {
    events, s := BacklogIsReachable(SEQ_MODULUS);
    events, s := SendOne(events, s, SEQ_MODULUS);
  }

  // --- When a termination blocks -----------------------------------------------

  lemma TwoAreSent() returns (events: seq<Event>, s: State)
    ensures Run(events) == Some(s) && Backlog(s, 2) && s.table.pending == map[1 := 0, 2 := 1]
  {
    events, s := SendOne([], INITIAL, 0);
    events, s := SendOne(events, s, 1);
  }

  // Two calls that share one channel of capacity one: a run on which the
  // receiver, with both mutexes in its hands, is about to complete the second
  // one, and finds the first one still in the channel.
  lemma SharedChannelCanBlock() returns (events: seq<Event>, s: State)
    ensures Reaches(events, s) && s.lock.Terminating? && AboutToSignal(s, 1)
    ensures |s.calls| == 2 && Held(s.calls, _ => 0, 0, 2) == 1
  {
    events, s := TwoAreSent();
    events, s := Then(events, s, ReadHeaderFailed);
    events, s := Then(events, s, StartTerminate);
    events, s := FirstIsTerminated(events, s);
    CompletionNeverBlocks(events, s, 1);
    OneIsHeld(s.calls);
  }

  lemma FirstIsTerminated(before: seq<Event>, s: State) returns (events: seq<Event>, s': State)
    requires Reaches(before, s) && |s.calls| == 2 && s.table.pending == map[1 := 0, 2 := 1]
    requires s.lock == Terminating({1, 2}) && s.calls[0] == Call("m", [], 1, Returned, [], Waiting)
    ensures Reaches(events, s') && s'.lock.Terminating? && AboutToSignal(s', 1) && |s'.calls| == 2
    ensures s'.calls[0] == Call("m", [], 1, Returned, [LocalError], Waiting)
  {
    events, s' := Then(before, s, TerminateOne(1));
    assert 2 in s'.lock.todo && s'.table.pending[2] == 1;
  }

  lemma {:induction false} OneIsHeld(calls: seq<Call>)
    requires |calls| == 2 && calls[0] == Call("m", [], 1, Returned, [LocalError], Waiting)
    requires Buffered(calls[1]) == 0
    ensures Held(calls, _ => 0, 0, 2) == 1
  {
    assert Held(calls, _ => 0, 0, 1) == 1;
  }

  // How many of the completions that these numbers stand for go to channel h.
  function SendsOn(pending: map<nat, CallId>, order: seq<nat>, chan: CallId -> nat, h: nat): nat
    requires forall q <- order :: q in pending
  {
    if order == [] then 0
    else
      var last := order[|order| - 1];
      SendsOn(pending, order[..|order| - 1], chan, h) + if chan(pending[last]) == h then 1 else 0
  }

  // The order in which the receiver goes through what is still to be terminated.
  ghost predicate Enumerates(s: State, order: seq<nat>) {
    && s.lock.Terminating? && (forall q <- order :: q in s.lock.todo)
    && (forall i, j :: 0 <= i < j < |order| ==> order[i] != order[j])
    && (forall q <- s.lock.todo :: q in order)
  }

  // The state after the first k completions, with nobody receiving.
  function After(s: State, order: seq<nat>, k: nat): State
    requires k <= |order|
  {
    if k == 0 then s
    else
      var before := After(s, order, k - 1);
      if Enabled(before, TerminateOne(order[k - 1])) then Step(before, TerminateOne(order[k - 1])) else before
  }

  lemma {:induction false} HeldAfterSignal(calls: seq<Call>, chan: CallId -> nat, h: nat, n: nat, c: CallId, call: Call)
    requires n <= |calls| && c < |calls| && Buffered(call) == Buffered(calls[c]) + 1
    ensures Held(calls[c := call], chan, h, n) == Held(calls, chan, h, n) + if c < n && chan(c) == h then 1 else 0
  {
    if n > 0 {
      HeldAfterSignal(calls, chan, h, n - 1, c, call);
    }
  }

  // What does not change while the receiver goes through the table, and which
  // numbers are left.
  ghost predicate Reached(s: State, order: seq<nat>, k: nat, s': State)
    requires k <= |order|
  {
    && s'.table == s.table && |s'.calls| == |s.calls| && s'.issued == s.issued && s'.lock.Terminating?
    && forall j :: k <= j < |order| ==> order[j] in s'.lock.todo
  }

  lemma {:induction false} TerminationGoesOn(s: State, order: seq<nat>, k: nat)
    requires Inv(s) && Enumerates(s, order) && k <= |order|
    ensures Reached(s, order, k, After(s, order, k))
    ensures k > 0 ==> Enabled(After(s, order, k - 1), TerminateOne(order[k - 1]))
  {
    if k > 0 {
      TerminationGoesOn(s, order, k - 1);
      assert order[k - 1] in s.lock.todo && order[k - 1] in s.table.pending;
    }
  }

  lemma InTable(s: State, order: seq<nat>)
    requires Inv(s) && Enumerates(s, order)
    ensures forall q <- order :: q in s.table.pending && s.table.pending[q] < |s.calls|
  {
  }

  // One completion adds one to its channel.
  lemma {:induction false} HeldStep(s: State, q: nat, chan: CallId -> nat, h: nat)
    requires Enabled(s, TerminateOne(q)) && s.table.pending[q] < |s.calls|
    ensures |Step(s, TerminateOne(q)).calls| == |s.calls|
    ensures Held(Step(s, TerminateOne(q)).calls, chan, h, |s.calls|)
         == Held(s.calls, chan, h, |s.calls|) + if chan(s.table.pending[q]) == h then 1 else 0
  {
    var c := s.table.pending[q];
    HeldAfterSignal(s.calls, chan, h, |s.calls|, c, s.calls[c].(signals := s.calls[c].signals + [LocalError]));
  }

  lemma {:induction false} SendsOnStep(pending: map<nat, CallId>, order: seq<nat>, chan: CallId -> nat, h: nat, k: nat)
    requires 0 < k <= |order| && forall q <- order :: q in pending
    ensures SendsOn(pending, order[..k], chan, h)
         == SendsOn(pending, order[..k - 1], chan, h) + if chan(pending[order[k - 1]]) == h then 1 else 0
  {
    assert order[..k][..k - 1] == order[..k - 1];
  }

  lemma {:induction false} HeldGrows(s: State, order: seq<nat>, chan: CallId -> nat, h: nat, k: nat)
    requires Inv(s) && Enumerates(s, order) && k <= |order|
    ensures forall q <- order :: q in s.table.pending
    ensures |After(s, order, k).calls| == |s.calls|
    ensures Held(After(s, order, k).calls, chan, h, |s.calls|)
         == Held(s.calls, chan, h, |s.calls|) + SendsOn(s.table.pending, order[..k], chan, h)
  {
    InTable(s, order);
    if k > 0 {
      HeldGrows(s, order, chan, h, k - 1);
      TerminationGoesOn(s, order, k);
      TerminationGoesOn(s, order, k - 1);
      HeldStep(After(s, order, k - 1), order[k - 1], chan, h);
      SendsOnStep(s.table.pending, order, chan, h, k);
    }
  }

  // The k-th completion finds room in its channel.
  ghost predicate FindsRoom(s: State, order: seq<nat>, chan: CallId -> nat, room: nat -> int, k: nat)
    requires k < |order| && order[k] in s.table.pending && |After(s, order, k).calls| == |s.calls|
  {
    var h := chan(s.table.pending[order[k]]);
    Held(After(s, order, k).calls, chan, h, |s.calls|) < room(h)
  }

  lemma {:induction false} SendsOnPrefix(pending: map<nat, CallId>, order: seq<nat>, chan: CallId -> nat,
                                         h: nat, k: nat)
    requires k <= |order| && forall q <- order :: q in pending
    ensures SendsOn(pending, order[..k], chan, h) <= SendsOn(pending, order, chan, h)
  {
    if k < |order| {
      assert order[..|order| - 1][..k] == order[..k];
      SendsOnPrefix(pending, order[..|order| - 1], chan, h, k);
    } else {
      assert order[..k] == order;
    }
  }

  // The last completion that goes to a channel.
  lemma {:induction false} LastSendOn(pending: map<nat, CallId>, order: seq<nat>, chan: CallId -> nat, h: nat)
    returns (k: nat)
    requires (forall q <- order :: q in pending) && SendsOn(pending, order, chan, h) > 0
    ensures k < |order| && chan(pending[order[k]]) == h
    ensures SendsOn(pending, order[..k], chan, h) + 1 == SendsOn(pending, order, chan, h)
  {
    var n := |order| - 1;
    if chan(pending[order[n]]) == h {
      k := n;
    } else {
      k := LastSendOn(pending, order[..n], chan, h);
      assert order[..n][..k] == order[..k];
    }
  }

  // A termination in progress, in whatever order it goes through the table and
  // however the calls share channels: with nobody receiving, every completion
  // finds room if and only if every channel has room for what it holds and for
  // all the completions still to go to it.
  lemma {:induction false} TerminationFinishesIff(
      events: seq<Event>, s: State, order: seq<nat>, chan: CallId -> nat, room: nat -> int)
    requires Reaches(events, s) && Enumerates(s, order)
    requires forall h :: Held(s.calls, chan, h, |s.calls|) <= room(h)
    ensures forall k: nat :: k < |order| ==>
              order[k] in s.table.pending && |After(s, order, k).calls| == |s.calls|
    ensures forall q <- order :: q in s.table.pending
    ensures (forall k: nat :: k < |order| ==> FindsRoom(s, order, chan, room, k))
            <==> forall h: nat ::
                   Held(s.calls, chan, h, |s.calls|) + SendsOn(s.table.pending, order, chan, h) <= room(h)
  {
    RunInv(events, s);
    InTable(s, order);
    forall k: nat | k < |order| ensures |After(s, order, k).calls| == |s.calls| {
      TerminationGoesOn(s, order, k);
    }
    if forall k: nat :: k < |order| ==> FindsRoom(s, order, chan, room, k) {
      forall h: nat
        ensures Held(s.calls, chan, h, |s.calls|) + SendsOn(s.table.pending, order, chan, h) <= room(h)
      {
        RoomIsEnough(s, order, chan, room, h);
      }
    } else {
      var k: nat :| k < |order| && !FindsRoom(s, order, chan, room, k);
      RoomIsShort(s, order, chan, room, k);
    }
  }

  lemma {:induction false} RoomIsEnough(s: State, order: seq<nat>, chan: CallId -> nat, room: nat -> int, h: nat)
    requires Inv(s) && Enumerates(s, order) && Held(s.calls, chan, h, |s.calls|) <= room(h)
    requires forall k: nat :: k < |order| ==>
               && order[k] in s.table.pending && |After(s, order, k).calls| == |s.calls|
               && FindsRoom(s, order, chan, room, k)
    ensures forall q <- order :: q in s.table.pending
    ensures Held(s.calls, chan, h, |s.calls|) + SendsOn(s.table.pending, order, chan, h) <= room(h)
  {
    InTable(s, order);
    if SendsOn(s.table.pending, order, chan, h) > 0 {
      var k := LastSendOn(s.table.pending, order, chan, h);
      HeldGrows(s, order, chan, h, k);
      assert FindsRoom(s, order, chan, room, k);
    }
  }

  lemma {:induction false} RoomIsShort(s: State, order: seq<nat>, chan: CallId -> nat, room: nat -> int, k: nat)
    requires Inv(s) && Enumerates(s, order) && k < |order|
    requires order[k] in s.table.pending && |After(s, order, k).calls| == |s.calls|
    requires !FindsRoom(s, order, chan, room, k)
    ensures forall q <- order :: q in s.table.pending
    ensures var h := chan(s.table.pending[order[k]]);
            Held(s.calls, chan, h, |s.calls|) + SendsOn(s.table.pending, order, chan, h) > room(h)
  {
    InTable(s, order);
    var h := chan(s.table.pending[order[k]]);
    HeldGrows(s, order, chan, h, k);
    SendsOnPrefix(s.table.pending, order, chan, h, k + 1);
    assert order[..k + 1][..k] == order[..k];
  }
}
