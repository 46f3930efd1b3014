// What a call of the RPC client is completed with, and why: told from the events
// of a run alone. And what closing the client does to the calls that follow.
module RpcOutcomes {
  import opened Wrappers
  import opened RpcTable
  import opened RpcClient

  // The last response header that was read.
  function LastHeader(events: seq<Event>): Option<Response> {
    if events == [] then None
    else
      match events[|events| - 1]
      case ReadHeader(r) => Some(r)
      case _ => LastHeader(events[..|events| - 1])
  }

  // Refused: the client was closed or shut down when the call was to be
  // registered. NotWritten: its request could not be written. Answered: a
  // response came for it, and its body could be read or not.
  datatype Cause = Refused | NotWritten | Terminated | Answered(response: Response, ok: bool)

  // What event e, in state s, decides about call c.
  function Decision(s: State, header: Option<Response>, e: Event, c: CallId): Option<Cause> {
    match e
    case RegisterCall => if s.lock == Entering(c) && (s.table.closing || s.table.shutdown) then Some(Refused) else None
    case Retract =>
      if s.lock == Retracting(c) && c < |s.calls| && s.calls[c].seqNo in s.table.pending then Some(NotWritten) else None
    case TerminateOne(q) => if q in s.table.pending && s.table.pending[q] == c then Some(Terminated) else None
    case ReadBody(ok) =>
      if s.receiver.ReadingBody? && s.receiver.target == Some(c) && header.Some? then Some(Answered(header.value, ok))
      else None
    case _ => None
  }

  // The last decision about call c.
  function CauseOf(events: seq<Event>, c: CallId): Option<Cause> {
    if events == [] then None
    else
      var before, e := events[..|events| - 1], events[|events| - 1];
      var now := if Run(before).Some? then Decision(Run(before).value, LastHeader(before), e, c) else None;
      if now.Some? then now else CauseOf(before, c)
  }

  // An error text in the response's header wins; otherwise the body decides.
  ghost predicate Completes(cause: Cause, o: Outcome) {
    match cause
    case Answered(r, ok) =>
      && (r.error != "" ==> o == RemoteError(r.error))
      && (r.error == "" && ok ==> o == Reply(r.body))
      && (r.error == "" && !ok ==> o == LocalError)
    case _ => o == LocalError
  }

  // The call is completed accordingly, or somebody is about to do so.
  ghost predicate Decided(s: State, c: CallId, cause: Cause)
    requires c < |s.calls|
  {
    && (cause.Answered? ==> s.calls[c].seqNo == cause.response.seqNo)
    && if s.calls[c].signals == [] then
         || (s.lock.Notifying? && s.lock.target == c && Completes(cause, LocalError))
         || (s.receiver.Signalling? && s.receiver.call == c && Completes(cause, s.receiver.outcome))
       else |s.calls[c].signals| == 1 && Completes(cause, s.calls[c].signals[0])
  }

  ghost predicate Undecided(s: State, c: CallId)
    requires c < |s.calls|
  {
    && s.calls[c].signals == []
    && !(s.lock.Notifying? && s.lock.target == c) && !(s.receiver.Signalling? && s.receiver.call == c)
  }

  ghost predicate CauseInv(s: State, c: CallId, cause: Option<Cause>)
    requires c < |s.calls|
  {
    if cause.Some? then Decided(s, c, cause.value) else Undecided(s, c)
  }

  // The receiver works on the last response, and on the call that it names.
  ghost predicate HeaderInv(s: State, header: Option<Response>) {
    match s.receiver
    case Dispatching(r) => header == Some(r)
    case ReadingBody(target, r) =>
      header == Some(r) && (target.Some? ==> target.value < |s.calls| && s.calls[target.value].seqNo == r.seqNo)
    case _ => true
  }

  function NextHeader(header: Option<Response>, e: Event): Option<Response> {
    match e
    case ReadHeader(r) => Some(r)
    case _ => header
  }

  lemma HeaderKept(s: State, e: Event, header: Option<Response>)
    requires CanStep(s, e) && HeaderInv(s, header)
    ensures HeaderInv(Step(s, e), NextHeader(header, e))
  {
    if s.receiver.ReadingBody? && s.receiver.target.Some? {
      assert InReceiverHand(s, s.receiver.target.value);
    }
  }

  lemma CauseBySender(s: State, e: Event, header: Option<Response>, c: CallId, cause: Option<Cause>)
    requires CanStep(s, e) && SenderEvent(e) && c < |s.calls| && CauseInv(s, c, cause)
    ensures var now := Decision(s, header, e, c); CauseInv(Step(s, e), c, if now.Some? then now else cause)
  {
    assert CallInv(s, c);
    if s.receiver.Signalling? && s.receiver.call == c {
      assert InReceiverHand(s, c);
    }
    if e.Retract? && IsPending(s, s.lock.call) {
      PendingIsSelf(s, s.lock.call);
    }
  }

  lemma CauseByReceiver(s: State, e: Event, header: Option<Response>, c: CallId, cause: Option<Cause>)
    requires CanStep(s, e) && !SenderEvent(e) && !CallerEvent(e) && c < |s.calls|
    requires CauseInv(s, c, cause) && HeaderInv(s, header)
    ensures var now := Decision(s, header, e, c); CauseInv(Step(s, e), c, if now.Some? then now else cause)
  {
    assert CallInv(s, c);
    if InReceiverHand(s, c) {
      assert Unsignalled(s, c);
    }
  }

  lemma CauseByCaller(s: State, e: Event, header: Option<Response>, c: CallId, cause: Option<Cause>)
    requires CanStep(s, e) && CallerEvent(e) && c < |s.calls| && CauseInv(s, c, cause)
    ensures Decision(s, header, e, c) == None && CauseInv(Step(s, e), c, cause)
  {
  }

  lemma CauseOfNewCall(s: State, e: Event, c: CallId)
    requires CanStep(s, e) && |s.calls| <= c < |Step(s, e).calls|
    ensures Undecided(Step(s, e), c)
  {
    assert s.receiver.Signalling? ==> InReceiverHand(s, s.receiver.call);
  }

  // Nothing is decided about a call that does not exist yet.
  lemma NothingDecided(s: State, e: Event, header: Option<Response>, c: CallId)
    requires Inv(s) && Enabled(s, e) && |s.calls| <= c
    ensures Decision(s, header, e, c) == None
  {
    assert s.receiver.ReadingBody? && s.receiver.target.Some? ==> InReceiverHand(s, s.receiver.target.value);
  }

  ghost predicate CausesKnown(events: seq<Event>, s: State, c: CallId) {
    && HeaderInv(s, LastHeader(events))
    && if c < |s.calls| then CauseInv(s, c, CauseOf(events, c)) else CauseOf(events, c) == None
  }

  lemma {:induction false} CausesKnownStep(events: seq<Event>, s: State, e: Event, c: CallId)
    requires Run(events) == Some(s) && CanStep(s, e) && CausesKnown(events, s, c)
    ensures CausesKnown(events + [e], Step(s, e), c)
  {
    assert (events + [e])[..|events|] == events;
    var header, cause := LastHeader(events), CauseOf(events, c);
    HeaderKept(s, e, header);
    if c >= |s.calls| {
      NothingDecided(s, e, header, c);
      if c < |Step(s, e).calls| {
        CauseOfNewCall(s, e, c);
      }
    } else if SenderEvent(e) {
      CauseBySender(s, e, header, c, cause);
    } else if CallerEvent(e) {
      CauseByCaller(s, e, header, c, cause);
    } else {
      CauseByReceiver(s, e, header, c, cause);
    }
  }

  lemma {:induction false} RunKnowsCauses(events: seq<Event>, s: State, c: CallId)
    requires Reaches(events, s)
    ensures CausesKnown(events, s, c)
  {
    if events != [] {
      var before := Run(events[..|events| - 1]).value;
      assert before.issued <= s.issued;
      RunInv(events[..|events| - 1], before);
      RunKnowsCauses(events[..|events| - 1], before, c);
      CausesKnownStep(events[..|events| - 1], before, events[|events| - 1], c);
      assert events == events[..|events| - 1] + [events[|events| - 1]];
    }
  }

  // In every interleaving: whatever a call was completed with has a cause, and
  // follows from it. A response that came for the call bears its number.
  lemma {:induction false} CompletionHasItsCause(events: seq<Event>, s: State, c: CallId)
    requires Reaches(events, s) && c < |s.calls| && s.calls[c].signals != []
    ensures CauseOf(events, c).Some?
    ensures match CauseOf(events, c).value
            case Answered(r, ok) =>
              && s.calls[c].seqNo == r.seqNo
              && (r.error != "" ==> s.calls[c].signals == [RemoteError(r.error)])
              && (r.error == "" && ok ==> s.calls[c].signals == [Reply(r.body)])
              && (r.error == "" && !ok ==> s.calls[c].signals == [LocalError])
            case _ => s.calls[c].signals == [LocalError]
  {
    RunKnowsCauses(events, s, c);
  }

  // A call fails on the client's own side if and only if it was refused, could
  // not be written, was terminated, or its body could not be read after an empty
  // error text.
  lemma {:induction false} LocalErrorIff(events: seq<Event>, s: State, c: CallId)
    requires Reaches(events, s) && c < |s.calls| && s.calls[c].signals != []
    ensures CauseOf(events, c).Some?
    ensures s.calls[c].signals == [LocalError]
            <==> var cause := CauseOf(events, c).value;
                 cause.Refused? || cause.NotWritten? || cause.Terminated?
                 || (cause.response.error == "" && !cause.ok)
  {
    CompletionHasItsCause(events, s, c);
  }

  // --- When the receiver stops -------------------------------------------------

  predicate Stopping(r: Receiver) {
    r.Failing? || r.Draining? || r.Exited? || (r.Signalling? && !r.more)
  }

  // The receiver is going to terminate all calls, or has done so, if and only if
  // a header or a body could not be read.
  lemma {:induction false} ReceiverStopsIff(events: seq<Event>, s: State)
    requires Run(events) == Some(s)
    ensures Stopping(s.receiver) <==> ReadHeaderFailed in events || ReadBody(false) in events
    ensures s.lock.Terminating? ==> s.receiver.Draining?
  {
    if events != [] {
      ReceiverStopsIff(events[..|events| - 1], Run(events[..|events| - 1]).value);
      assert events == events[..|events| - 1] + [events[|events| - 1]];
    }
  }

  // --- After Close -------------------------------------------------------------

  lemma ClosingStep(s: State, e: Event)
    requires Enabled(s, e)
    ensures Step(s, e).table.closing <==> s.table.closing || e == Close
  {
  }

  lemma {:induction false} ClosingIff(events: seq<Event>, s: State)
    requires Run(events) == Some(s)
    ensures s.table.closing <==> Close in events
  {
    if events != [] {
      ClosingIff(events[..|events| - 1], Run(events[..|events| - 1]).value);
      ClosingStep(Run(events[..|events| - 1]).value, events[|events| - 1]);
      assert events == events[..|events| - 1] + [events[|events| - 1]];
    }
  }

  predicate Sealed(s: State) {
    s.table.closing || s.table.shutdown
  }

  // Nothing is added to the table, and no number is issued.
  predicate NothingAdded(s: State, s': State) {
    && s'.issued == s.issued && s'.table.nextSeq == s.table.nextSeq
    && s'.table.pending.Keys <= s.table.pending.Keys
    && (forall q <- s'.table.pending :: s'.table.pending[q] == s.table.pending[q])
  }

  // A call that is not registered yet: it never is, and fails when its turn comes.
  ghost predicate Late(s: State, c: CallId) {
    c < |s.calls| ==>
      && s.calls[c].seqNo == 0
      && (s.calls[c].stage.Queued? || s.calls[c].signals == [LocalError]
          || (s.calls[c].signals == [] && (s.lock == Entering(c) || s.lock == Notifying(c, c))))
      && (s.calls[c].stage.Returned? ==> s.calls[c].signals == [LocalError])
  }

  lemma SealedStep(s: State, e: Event)
    requires Enabled(s, e) && Sealed(s)
    ensures Sealed(Step(s, e)) && NothingAdded(s, Step(s, e))
  {
  }

  lemma LateStep(s: State, e: Event, c: CallId)
    requires CanStep(s, e) && Sealed(s) && Late(s, c)
    ensures Late(Step(s, e), c)
  {
    if c < |s.calls| {
      assert CallInv(s, c);
    }
  }

  lemma {:induction false} NothingIsAddedAfterClose(events: seq<Event>, s: State, more: seq<Event>, s': State)
    requires Run(events) == Some(s) && Sealed(s) && Run(events + more) == Some(s')
    ensures Sealed(s') && NothingAdded(s, s')
  {
    if more == [] {
      assert events + more == events;
    } else {
      var front := more[..|more| - 1];
      assert (events + more)[..|events + more| - 1] == events + front;
      var before := Run(events + front).value;
      NothingIsAddedAfterClose(events, s, front, before);
      SealedStep(before, more[|more| - 1]);
    }
  }

  // A call that had not yet taken the mutex when the client was closed or shut
  // down, or was not even made, never gets a number. Its sender, when it is done,
  // has completed it with an error.
  lemma {:induction false} LateCallsAreRefused(
      events: seq<Event>, s: State, more: seq<Event>, s': State, c: CallId)
    requires Reaches(events, s) && Sealed(s) && Run(events + more) == Some(s')
    requires c < |s.calls| ==> s.calls[c].stage.Queued? || s.lock == Entering(c)
    ensures s'.issued == s.issued && Late(s', c)
  {
    RunInv(events, s);
    NothingIsAddedAfterClose(events, s, more, s');
    if more == [] {
      assert events + more == events;
      if c < |s.calls| {
        assert CallInv(s, c);
      }
    } else {
      var front := more[..|more| - 1];
      assert (events + more)[..|events + more| - 1] == events + front;
      var before := Run(events + front).value;
      LateCallsAreRefused(events, s, front, before, c);
      RunInv(events + front, before);
      NothingIsAddedAfterClose(events, s, front, before);
      LateStep(before, more[|more| - 1], c);
    }
  }
}
