// The outgoing side of one WebSocket client: a bounded channel that many
// goroutines fill, one writer that drains it, and a close that runs once.
module Outbox {
  import opened Wrappers

  const CAPACITY: nat := 1024

  // --- The client object -------------------------------------------------------

  class Client {
    const uid: int
    var sendChan: seq<string>
    var closed: bool
    var connOpen: bool

    ghost predicate Valid()
      reads this
    {
      |sendChan| <= CAPACITY && (connOpen || closed)
    }

    constructor (uid: int)
      ensures Valid() && this.uid == uid && sendChan == [] && !closed && connOpen
    {
      this.uid := uid;
      sendChan, closed, connOpen := [], false, true;
    }

    // sync.Once: only the first call has an effect.
    method Close()
      requires Valid()
      modifies this`closed, this`connOpen
      ensures Valid() && closed
      ensures connOpen == (old(closed) && old(connOpen))
    {
      if !closed {
        closed := true;
        connOpen := false;
      }
    }

    // When there is room and the client is closed, select may take either branch.
    method SendMessage(msg: string, takeClosed: bool)
      requires Valid()
      modifies this
      ensures Valid()
      ensures if |old(sendChan)| < CAPACITY && !(old(closed) && takeClosed)
              then sendChan == old(sendChan) + [msg] && closed == old(closed) && connOpen == old(connOpen)
              else sendChan == old(sendChan) && closed && connOpen == (old(closed) && old(connOpen))
    {
      if |sendChan| < CAPACITY && !(closed && takeClosed) {
        sendChan := sendChan + [msg];
      } else if !closed {
        Close();
      }
    }
  }

  // --- The interleavings -------------------------------------------------------

  // Messages are named by the order in which their sends took effect. The
  // overflow of the channel and the close it triggers are separate steps here,
  // and so are the two halves of a close. `firstDrop` and `late` are history:
  // the first message not accepted, and whether one was accepted after it while
  // the connection was still open.
  datatype State = State(
    attempts: nat, firstDrop: Option<nat>, late: bool, queue: seq<nat>, writing: Option<nat>, written: seq<nat>,
    closed: bool, closes: nat, connOpen: bool, writerAlive: bool)

  const INITIAL: State := State(0, None, false, [], None, [], false, 0, true, true)

  datatype Event =
    | Send(takeClosed: bool)
    | CloseFlag
    | CloseConn
    | Pop
    | WriteOk
    | WriteFailed
    | WriterExits

  predicate Accepts(s: State, takeClosed: bool) {
    |s.queue| < CAPACITY && !(s.closed && takeClosed)
  }

  // CloseFlag may come from an overflowing sender, a newer login, the reader or
  // the writer; the Once lets the first of them through.
  predicate Enabled(s: State, e: Event) {
    match e
    case Send(_) => true
    case CloseFlag => !s.closed
    case CloseConn => s.closed && s.connOpen
    case Pop => s.writerAlive && s.writing == None && s.queue != []
    case WriteOk => s.writerAlive && s.writing.Some? && s.connOpen
    case WriteFailed => s.writerAlive && s.writing.Some?
    case WriterExits => s.writerAlive && s.writing == None && s.closed
  }

  function Step(s: State, e: Event): State
    requires Enabled(s, e)
  {
    match e
    case Send(takeClosed) =>
      if Accepts(s, takeClosed) then
        s.(attempts := s.attempts + 1, queue := s.queue + [s.attempts],
           late := s.late || (s.firstDrop.Some? && s.connOpen))
      else s.(attempts := s.attempts + 1, firstDrop := if s.firstDrop.Some? then s.firstDrop else Some(s.attempts))
    case CloseFlag => s.(closed := true, closes := s.closes + 1)
    case CloseConn => s.(connOpen := false)
    case Pop => s.(writing := Some(s.queue[0]), queue := s.queue[1..])
    case WriteOk => s.(written := s.written + [s.writing.value], writing := None)
    case WriteFailed => s.(writing := None, writerAlive := false)
    case WriterExits => s.(writerAlive := false)
  }

  // Everything accepted, in order, while the writer lives.
  function Pipeline(s: State): seq<nat> {
    s.written + ((if s.writing.Some? then [s.writing.value] else []) + s.queue)
  }

  // What a connection has been sent is a prefix of what was attempted.
  ghost predicate IsPrefix(written: seq<nat>) {
    forall i: nat :: i < |written| ==> written[i] == i
  }

  ghost predicate ChannelInv(s: State) {
    && |s.queue| <= CAPACITY
    && s.closes == (if s.closed then 1 else 0)
    && (s.connOpen || s.closed)
    && (s.firstDrop.Some? ==> s.firstDrop.value < s.attempts && (s.closed || s.attempts > CAPACITY))
    && |Pipeline(s)| <= s.attempts
  }

  // Only what was attempted is in the pipeline.
  ghost predicate AttemptedInv(s: State) {
    forall k <- Pipeline(s) :: k < s.attempts
  }

  // Without a late acceptance, only messages that can no longer be written are out of step.
  ghost predicate PipelineInv(s: State) {
    var p := Pipeline(s);
    && (s.firstDrop == None ==> |p| == s.attempts)
    && (forall i: nat :: i < |p| ==> p[i] == i || (i >= |s.written| && !s.connOpen))
  }

  ghost predicate Inv(s: State) {
    && ChannelInv(s) && AttemptedInv(s)
    && (!s.late ==> IsPrefix(s.written))
    && (!s.late && s.writerAlive ==> PipelineInv(s))
    // A message out of step was accepted after a drop.
    && (s.firstDrop == None ==> !s.late)
  }

  lemma InvInitially()
    ensures Inv(INITIAL)
  {
  }

  lemma PopKeepsPipeline(s: State)
    requires Enabled(s, Pop)
    ensures Pipeline(Step(s, Pop)) == Pipeline(s)
  {
    assert [s.queue[0]] + s.queue[1..] == s.queue;
  }

  lemma WriteKeepsPipeline(s: State)
    requires Enabled(s, WriteOk)
    ensures Pipeline(Step(s, WriteOk)) == Pipeline(s)
  {
    assert (s.written + [s.writing.value]) + s.queue == s.written + ([s.writing.value] + s.queue);
  }

  lemma SendExtendsPipeline(s: State, takeClosed: bool)
    ensures Pipeline(Step(s, Send(takeClosed))) ==
            Pipeline(s) + if Accepts(s, takeClosed) then [s.attempts] else []
  {
  }

  lemma SendPreserves(s: State, takeClosed: bool)
    requires Inv(s)
    ensures Inv(Step(s, Send(takeClosed)))
  {
    SendExtendsPipeline(s, takeClosed);
  }

  lemma WriteOkPreserves(s: State)
    requires Inv(s) && Enabled(s, WriteOk)
    ensures Inv(Step(s, WriteOk))
  {
    WriteKeepsPipeline(s);
    assert Pipeline(s)[|s.written|] == s.writing.value;
  }

  lemma PopPreserves(s: State)
    requires Inv(s) && Enabled(s, Pop)
    ensures Inv(Step(s, Pop))
  {
    PopKeepsPipeline(s);
  }

  lemma OthersPreserve(s: State, e: Event)
    requires Inv(s) && Enabled(s, e) && !e.Send? && !e.Pop? && !e.WriteOk?
    ensures Inv(Step(s, e))
  {
    var s' := Step(s, e);
    forall k <- Pipeline(s') ensures k in Pipeline(s) {
    }
  }

  lemma InvPreserved(s: State, e: Event)
    requires Inv(s) && Enabled(s, e)
    ensures Inv(Step(s, e))
  {
    match e
    case Send(takeClosed) => SendPreserves(s, takeClosed);
    case Pop => PopPreserves(s);
    case WriteOk => WriteOkPreserves(s);
    case _ => OthersPreserve(s, e);
  }

  // --- Runs --------------------------------------------------------------------

  function Run(events: seq<Event>): Option<State> {
    if events == [] then Some(INITIAL)
    else
      var before := Run(events[..|events| - 1]);
      var e := events[|events| - 1];
      if before.Some? && Enabled(before.value, e) then Some(Step(before.value, e)) else None
  }

  lemma {:induction false} RunInv(events: seq<Event>, s: State)
    requires Run(events) == Some(s)
    ensures Inv(s)
  {
    if events != [] {
      RunInv(events[..|events| - 1], Run(events[..|events| - 1]).value);
      InvPreserved(Run(events[..|events| - 1]).value, events[|events| - 1]);
    }
  }

  // Nothing is dropped as long as the client is open and no more was sent than
  // the channel holds, however slow the writer is.
  lemma {:induction false} NoDropWithinRoom(events: seq<Event>, s: State)
    requires Run(events) == Some(s) && !s.closed && s.attempts <= CAPACITY
    ensures s.firstDrop == None && (s.writerAlive ==> |Pipeline(s)| == s.attempts)
  {
    RunInv(events, s);
  }

  // The channel stays within its capacity, the close body runs at most once,
  // and the connection has no gap unless a message was accepted after a drop
  // while the connection was still open.
  lemma {:induction false} NoGapWithoutLateAcceptance(events: seq<Event>, s: State)
    requires Run(events) == Some(s)
    ensures |s.queue| <= CAPACITY && s.closes <= 1
    ensures !s.late ==> IsPrefix(s.written)
  {
    RunInv(events, s);
  }

  lemma Then(events: seq<Event>, s: State, e: Event) returns (events': seq<Event>, s': State)
    requires Run(events) == Some(s) && Enabled(s, e)
    ensures Run(events') == Some(s') && s' == Step(s, e)
  {
    events', s' := events + [e], Step(s, e);
    assert events'[..|events'| - 1] == events;
  }

  // How many messages the events have sent, and the first of them that found the
  // channel full, or the client closed and noticed that first.
  function Sends(events: seq<Event>): nat {
    if events == [] then 0
    else Sends(events[..|events| - 1]) + if events[|events| - 1].Send? then 1 else 0
  }

  function FirstRefused(events: seq<Event>): Option<nat> {
    if events == [] then None
    else
      var before, e := events[..|events| - 1], events[|events| - 1];
      var s := Run(before);
      if FirstRefused(before).None? && s.Some? && e.Send?
         && (|s.value.queue| >= CAPACITY || (s.value.closed && e.takeClosed))
      then Some(Sends(before)) else FirstRefused(before)
  }

  lemma {:induction false} SendsAreCounted(events: seq<Event>, s: State)
    requires Run(events) == Some(s)
    ensures s.attempts == Sends(events) && s.firstDrop == FirstRefused(events)
  {
    if events != [] {
      SendsAreCounted(events[..|events| - 1], Run(events[..|events| - 1]).value);
    }
  }

  lemma WriterStep(s: State, e: Event)
    requires Inv(s) && Enabled(s, e) && (!s.writerAlive ==> s.writing == None)
    ensures var s' := Step(s, e);
            && (!s'.writerAlive <==> !s.writerAlive || e == WriteFailed || e == WriterExits)
            && (!s'.writerAlive ==> s'.writing == None)
            && (e == WriterExits || s.closed ==> s'.closed)
            && (e == WriteFailed || |Pipeline(s)| < s.attempts ==> |Pipeline(s')| < s'.attempts)
  {
  }

  // The writer stops if and only if a write has failed, which loses a message, or
  // it has noticed the close; then it holds nothing.
  lemma {:induction false} WriterStopsIff(events: seq<Event>, s: State)
    requires Run(events) == Some(s)
    ensures !s.writerAlive <==> WriteFailed in events || WriterExits in events
    ensures !s.writerAlive ==> s.writing == None
    ensures WriterExits in events ==> s.closed
    ensures WriteFailed in events ==> |Pipeline(s)| < s.attempts
  {
    if events != [] {
      var before, e := events[..|events| - 1], events[|events| - 1];
      WriterStopsIff(before, Run(before).value);
      RunInv(before, Run(before).value);
      WriterStep(Run(before).value, e);
      assert events == before + [e];
    }
  }

  lemma NothingIsWrittenAfterwards(s: State, e: Event)
    requires Enabled(s, e) && !s.writerAlive && s.writing == None
    ensures var s' := Step(s, e); !s'.writerAlive && s'.writing == None && s'.written == s.written
  {
  }

  // Yet it can stop wherever it could write, or once the client is closed, and
  // by the above nothing more is written then.
  lemma WriterCanStop(events: seq<Event>, s: State) returns (events': seq<Event>, s': State)
    requires Run(events) == Some(s) && s.writerAlive && (Pipeline(s) != s.written || s.closed)
    ensures Run(events') == Some(s') && !s'.writerAlive && s'.writing == None
    ensures s'.written == s.written && s'.connOpen == s.connOpen && s'.attempts == s.attempts
  {
    events', s' := events, s;
    if s.writing == None && s.closed {
      events', s' := Then(events', s', WriterExits);
      return;
    } else if s.writing == None {
      assert s.written + ([] + []) == s.written;
      events', s' := Then(events', s', Pop);
    }
    events', s' := Then(events', s', WriteFailed);
  }

  // A living writer on an open connection can write out everything accepted.
  lemma {:induction false} Drain(events: seq<Event>, s: State) returns (events': seq<Event>, s': State)
    requires Run(events) == Some(s) && s.writerAlive && s.connOpen
    ensures Run(events') == Some(s') && s'.written == Pipeline(s)
    decreases |s.queue|, if s.writing.Some? then 1 else 0
  {
    if s.writing.Some? {
      WriteKeepsPipeline(s);
      events', s' := Then(events, s, WriteOk);
      events', s' := Drain(events', s');
    } else if s.queue != [] {
      PopKeepsPipeline(s);
      events', s' := Then(events, s, Pop);
      events', s' := Drain(events', s');
    } else {
      events', s' := events, s;
    }
  }

  // Once a message has been dropped, fewer are in the pipeline than were attempted.
  ghost predicate Short(s: State) {
    s.firstDrop.Some? && s.writerAlive ==> |Pipeline(s)| < s.attempts
  }

  lemma {:induction false} DropsShorten(events: seq<Event>, s: State)
    requires Run(events) == Some(s)
    ensures Short(s)
  {
    if events != [] {
      var before, e := Run(events[..|events| - 1]).value, events[|events| - 1];
      DropsShorten(events[..|events| - 1], before);
      RunInv(events[..|events| - 1], before);
      match e
      case Send(takeClosed) => SendExtendsPipeline(before, takeClosed);
      case Pop => PopKeepsPipeline(before);
      case WriteOk => WriteKeepsPipeline(before);
      case _ =>
    }
  }

  // The condition is exact: from any point at which a message has been dropped,
  // the connection and the writer still live and another message would be
  // accepted, the run can go on to a gap.
  lemma LateAcceptanceCanReachAGap(events: seq<Event>, s: State, takeClosed: bool)
    returns (events': seq<Event>, s': State)
    requires Run(events) == Some(s) && s.firstDrop.Some? && s.writerAlive && s.connOpen && Accepts(s, takeClosed)
    ensures Run(events') == Some(s') && !IsPrefix(s'.written)
  {
    DropsShorten(events, s);
    SendExtendsPipeline(s, takeClosed);
    events', s' := Then(events, s, Send(takeClosed));
    events', s' := Drain(events', s');
    assert s'.written[|Pipeline(s)|] == s.attempts;
  }

  // Such a point is reached without any overflow: a newer login has begun to
  // close this client, one message gave way to the close and the next did not.
  lemma GapAfterKick() returns (events: seq<Event>, s: State)
    ensures Run(events) == Some(s) && s.written == [1] && !IsPrefix(s.written)
  {
    events, s := Then([], INITIAL, CloseFlag);
    events, s := Then(events, s, Send(true));
    events, s := Then(events, s, Send(false));
    events, s := Then(events, s, Pop);
    events, s := Then(events, s, WriteOk);
    assert s.written[0] == 1;
  }
}
