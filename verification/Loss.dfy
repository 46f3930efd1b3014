// Which stored messages can still reach a connection, and which are lost.
//
// A message is shown when the gateway has written it to some connection, as an
// unread message of a login or as a delivery. It is lost when no continuation
// whatever shows it.
module Loss {
  import opened Wrappers
  import opened Messages
  import opened Delivery
  import U = Uploads
  import G = Sessions
  import Outbox

  // --- What is shown and what may be -------------------------------------------

  predicate CanWrite(p: G.Pipe) {
    p.out.connOpen && p.out.writerAlive
  }

  // In the channel, or in the writer's hand.
  ghost predicate Holds(p: G.Pipe, id: MsgId) {
    exists k: nat :: G.Carries(p, k, id) && (p.out.writing == Some(k) || k in p.out.queue)
  }

  ghost predicate Shows(p: G.Pipe, id: MsgId) {
    exists k: nat :: G.Carries(p, k, id) && k in p.out.written
  }

  // The pipe may still write the message without being sent it again: it holds
  // it, or its login is still to offer it and need not close the client first.
  ghost predicate MayShow(p: G.Pipe, id: MsgId) {
    CanWrite(p) && (Holds(p, id) || (id in p.todo && !p.blocked))
  }

  ghost predicate Shown(s: State, id: MsgId) {
    exists c: G.ConnId :: c < |s.gate.pipes| && Shows(s.gate.pipes[c], id)
  }

  // No worker is still to publish the row down.
  predicate Settled(u: U.State, id: MsgId) {
    id in u.store.fate ==> !u.store.fate[id].Undecided? && !u.store.fate[id].Routed?
  }

  ghost predicate OnItsWay(s: State, id: MsgId) {
    || id in s.uploads.store.down || !Settled(s.uploads, id)
    || exists c: G.ConnId :: c < |s.gate.pipes| && MayShow(s.gate.pipes[c], id)
  }

  // Read, never shown, and nobody is going to show it any more.
  ghost predicate LostInSilence(s: State, id: MsgId) {
    id in Rows(s) && Rows(s)[id].isRead && !Shown(s, id) && !OnItsWay(s, id)
  }

  // --- Loss is final -----------------------------------------------------------

  ghost predicate Hopeless(p: G.Pipe, id: MsgId) {
    !Shows(p, id) && !MayShow(p, id)
  }

  lemma SentStaysHopeless(p: G.Pipe, what: Option<MsgId>, takeClosed: bool, id: MsgId)
    requires G.PipeInv(p) && Hopeless(p, id) && what != Some(id)
    ensures Hopeless(G.Sent(p, what, takeClosed), id)
  {
    var p' := G.Sent(p, what, takeClosed);
    forall k: nat | G.Carries(p', k, id) ensures G.Carries(p, k, id) {
    }
  }

  lemma OfferedStaysHopeless(p: G.Pipe, d: MsgId, takeClosed: bool, id: MsgId)
    requires G.PipeInv(p) && Hopeless(p, id) && d in p.todo && G.MayGoOn(p)
    ensures Hopeless(G.Offered(p, d, takeClosed), id)
  {
    if d != id {
      SentStaysHopeless(p, Some(d), takeClosed, id);
    } else {
      assert !CanWrite(p);
      var p' := G.Offered(p, d, takeClosed);
      forall k: nat | G.Carries(p', k, id) && k in p'.out.written ensures G.Carries(p, k, id) {
        WrittenWasSent(p, k);
      }
    }
  }

  lemma WrittenWasSent(p: G.Pipe, k: nat)
    requires G.PipeInv(p) && k in p.out.written
    ensures k < |p.carried|
  {
    assert k in Outbox.Pipeline(p.out);
  }

  lemma ChannelStaysHopeless(p: G.Pipe, oe: Outbox.Event, id: MsgId)
    requires Hopeless(p, id) && Outbox.Enabled(p.out, oe) && !oe.Send?
    ensures Hopeless(G.PipeStep(p, oe), id)
  {
    var p' := G.PipeStep(p, oe);
    forall k: nat ensures G.Carries(p', k, id) <==> G.Carries(p, k, id) {
    }
    if oe.Pop? {
      assert p.out.queue[0] in p.out.queue;
    }
  }

  lemma PipeStaysHopeless(s: G.State, e: G.Event, c: G.ConnId, id: MsgId)
    requires G.Inv(s) && G.Enabled(s, e) && c < |G.Step(s, e).pipes|
    requires c < |s.pipes| ==> Hopeless(s.pipes[c], id)
    requires e.Sync? ==> id !in e.unread
    requires e.HandTo? ==> e.id != id
    ensures Hopeless(G.Step(s, e).pipes[c], id)
  {
    if c < |s.pipes| && G.PipeEvent(e) && !e.Accept? && e.c == c {
      var p := s.pipes[c];
      assert G.PipeInv(p);
      match e
      case Offer(_, what, takeClosed) => OfferedStaysHopeless(p, what, takeClosed, id);
      case HandTo(_, what, takeClosed) => SentStaysHopeless(p, Some(what), takeClosed, id);
      case Chatter(_, takeClosed) => SentStaysHopeless(p, None, takeClosed, id);
      case Channel(_, oe) => ChannelStaysHopeless(p, oe, id);
      case Sync(_, unread) => SyncStaysHopeless(p, unread, id);
    }
  }

  lemma SyncStaysHopeless(p: G.Pipe, unread: set<MsgId>, id: MsgId)
    requires Hopeless(p, id) && id !in unread
    ensures Hopeless(p.(todo := unread), id)
  {
    forall k: nat | G.Carries(p.(todo := unread), k, id) ensures G.Carries(p, k, id) {
    }
  }

  lemma SettledStaysSettled(u: U.State, e: U.Event, id: MsgId)
    requires U.Inv(u) && U.Enabled(u, e) && id in u.store.rows && Settled(u, id) && id !in u.store.down
    ensures Settled(U.Step(u, e), id) && id !in U.Step(u, e).store.down
  {
    if U.WorkEvent(e) {
      assert U.WorkerInv(u, e.w);
    }
  }

  lemma LossIsFinal(s: State, e: Event, id: MsgId)
    requires Inv(s) && Enabled(s, e) && LostInSilence(s, id)
    ensures LostInSilence(Step(s, e), id)
  {
    var s' := Step(s, e);
    RowKept(s, e, id);
    if UploadsEvent(s, e).Some? {
      SettledStaysSettled(s.uploads, UploadsEvent(s, e).value, id);
    }
    forall c: G.ConnId | c < |s'.gate.pipes| ensures Hopeless(s'.gate.pipes[c], id) {
      GateStaysHopeless(s, e, c, id);
    }
  }

  lemma GateStaysHopeless(s: State, e: Event, c: G.ConnId, id: MsgId)
    requires Inv(s) && Enabled(s, e) && LostInSilence(s, id) && c < |Step(s, e).gate.pipes|
    ensures Hopeless(Step(s, e).gate.pipes[c], id)
  {
    if c < |s.gate.pipes| {
      assert Hopeless(s.gate.pipes[c], id);
    }
    if GateEvent(s, e).Some? {
      PipeStaysHopeless(s.gate, GateEvent(s, e).value, c, id);
    }
  }

  lemma {:induction false} LossIsForEver(s: State, more: seq<Event>, s': State, id: MsgId)
    requires Inv(s) && LostInSilence(s, id) && RunFrom(s, more) == Some(s')
    ensures Inv(s') && LostInSilence(s', id)
  {
    if more != [] {
      var before := RunFrom(s, more[..|more| - 1]).value;
      LossIsForEver(s, more[..|more| - 1], before, id);
      InvPreserved(before, more[|more| - 1]);
      LossIsFinal(before, more[|more| - 1], id);
    }
  }

  // --- What is on its way can be shown -----------------------------------------

  lemma Then(start: State, events: seq<Event>, s: State, e: Event) returns (events': seq<Event>, s': State)
    requires RunFrom(start, events) == Some(s) && Enabled(s, e)
    ensures RunFrom(start, events') == Some(s') && s' == Step(s, e)
  {
    events', s' := events + [e], Step(s, e);
    assert events'[..|events'| - 1] == events;
  }

  // The states differ in one pipe only.
  predicate DifferInPipe(s: State, s': State, c: G.ConnId) {
    && c < |s.gate.pipes| && |s'.gate.pipes| == |s.gate.pipes|
    && s' == s.(gate := s.gate.(pipes := s.gate.pipes[c := s'.gate.pipes[c]]))
  }

  // Everything the pipe held is written.
  predicate Drained(p: G.Pipe, p': G.Pipe) {
    && CanWrite(p') && p' == p.(out := p'.out) && p'.out.attempts == p.out.attempts
    && p'.out.queue == [] && p'.out.writing == None && p'.out.written == Outbox.Pipeline(p.out)
  }

  lemma {:induction false} CanDrain(start: State, events: seq<Event>, s: State, c: G.ConnId)
    returns (more: seq<Event>, s': State)
    requires RunFrom(start, events) == Some(s) && c < |s.gate.pipes| && CanWrite(s.gate.pipes[c])
    ensures RunFrom(start, more) == Some(s') && DifferInPipe(s, s', c) && Drained(s.gate.pipes[c], s'.gate.pipes[c])
    decreases if c < |s.gate.pipes| then |s.gate.pipes[c].out.queue| else 0,
              if c < |s.gate.pipes| && s.gate.pipes[c].out.writing.Some? then 1 else 0
  {
    var out := s.gate.pipes[c].out;
    if out.writing.Some? {
      Outbox.WriteKeepsPipeline(out);
      more, s' := Then(start, events, s, Gate(G.Channel(c, Outbox.WriteOk)));
      more, s' := CanDrain(start, more, s', c);
    } else if out.queue != [] {
      Outbox.PopKeepsPipeline(out);
      more, s' := Then(start, events, s, Gate(G.Channel(c, Outbox.Pop)));
      more, s' := CanDrain(start, more, s', c);
    } else {
      more, s' := events, s;
      assert s'.gate.pipes[c := s'.gate.pipes[c]] == s.gate.pipes;
    }
  }

  // What a live pipe holds can be written.
  lemma HeldCanBeShown(start: State, events: seq<Event>, s: State, c: G.ConnId, id: MsgId)
    returns (more: seq<Event>, s': State)
    requires RunFrom(start, events) == Some(s) && c < |s.gate.pipes|
    requires CanWrite(s.gate.pipes[c]) && Holds(s.gate.pipes[c], id)
    ensures RunFrom(start, more) == Some(s') && Shown(s', id)
  {
    var p := s.gate.pipes[c];
    var k: nat :| G.Carries(p, k, id) && (p.out.writing == Some(k) || k in p.out.queue);
    more, s' := CanDrain(start, events, s, c);
    assert k in Outbox.Pipeline(p.out);
    assert G.Carries(s'.gate.pipes[c], k, id);
    assert Shows(s'.gate.pipes[c], id);
  }

  // What the login is still to offer can be offered, and then written.
  lemma TodoCanBeShown(start: State, events: seq<Event>, s: State, c: G.ConnId, id: MsgId)
    returns (more: seq<Event>, s': State)
    requires RunFrom(start, events) == Some(s) && c < |s.gate.pipes| && G.PipeInv(s.gate.pipes[c])
    requires CanWrite(s.gate.pipes[c]) && id in s.gate.pipes[c].todo && !s.gate.pipes[c].blocked
    ensures RunFrom(start, more) == Some(s') && Shown(s', id)
  {
    more, s' := CanDrain(start, events, s, c);
    more, s' := OfferIsHeld(start, more, s', c, id);
    more, s' := HeldCanBeShown(start, more, s', c, id);
  }

  lemma OfferIsHeld(start: State, events: seq<Event>, s: State, c: G.ConnId, id: MsgId)
    returns (more: seq<Event>, s': State)
    requires RunFrom(start, events) == Some(s) && c < |s.gate.pipes|
    requires CanWrite(s.gate.pipes[c]) && s.gate.pipes[c].out.queue == []
    requires |s.gate.pipes[c].carried| == s.gate.pipes[c].out.attempts
    requires id in s.gate.pipes[c].todo && !s.gate.pipes[c].blocked
    ensures RunFrom(start, more) == Some(s') && c < |s'.gate.pipes|
    ensures CanWrite(s'.gate.pipes[c]) && Holds(s'.gate.pipes[c], id)
  {
    var p := s.gate.pipes[c];
    more, s' := Then(start, events, s, Gate(G.Offer(c, id, false)));
    var p' := s'.gate.pipes[c];
    assert p'.out.queue == [p.out.attempts] && p'.carried == p.carried + [Some(id)];
    assert p.out.attempts in p'.out.queue && G.Carries(p', p.out.attempts, id);
  }

  lemma CanCloseFormer(start: State, events: seq<Event>, s: State, user: User) returns (more: seq<Event>, s': State)
    requires RunFrom(start, events) == Some(s) && G.Inv(s.gate)
    ensures RunFrom(start, more) == Some(s') && G.FormerIsClosed(s'.gate, user)
    ensures s'.uploads == s.uploads && |s'.gate.pipes| == |s.gate.pipes|
    ensures s'.gate == s.gate.(pipes := s'.gate.pipes)
    ensures forall c: G.ConnId :: c < |s.gate.pipes| && (user in s.gate.sessions ==> c != s.gate.sessions[user])
              ==> s'.gate.pipes[c] == s.gate.pipes[c]
  {
    more, s' := events, s;
    if user in s.gate.sessions {
      var f := s.gate.sessions[user];
      assert G.PipeInv(s.gate.pipes[f]);
      if !s.gate.pipes[f].out.closed {
        more, s' := Then(start, more, s', Gate(G.Channel(f, Outbox.CloseFlag)));
      }
      if s'.gate.pipes[f].out.connOpen {
        more, s' := Then(start, more, s', Gate(G.Channel(f, Outbox.CloseConn)));
      }
    }
  }

  // Connection c has just been routed, and nothing has been sent to it.
  predicate JustRouted(s: State, c: G.ConnId, user: User) {
    && c < |s.gate.conns| && c < |s.gate.pipes| && s.gate.pipes[c] == G.FRESH_PIPE
    && s.gate.conns[c].user == user && s.gate.conns[c].phase.RouteDone?
    && user in s.gate.sessions && s.gate.sessions[user] == c && user in s.gate.routes
  }

  // Any user can log in again, whoever is connected.
  lemma CanLogIn(s: State, user: User) returns (more: seq<Event>, s': State)
    requires Inv(s)
    ensures RunFrom(s, more) == Some(s') && s'.uploads == s.uploads && JustRouted(s', |s.gate.conns|, user)
  {
    var c := |s.gate.conns|;
    more, s' := Then(s, [], s, Gate(G.Accept(user)));
    G.InvPreserved(s.gate, G.Accept(user));
    more, s' := CanCloseFormer(s, more, s', user);
    more, s' := Then(s, more, s', Gate(G.Register(c)));
    more, s' := Then(s, more, s', Gate(G.SetRoute(c, true)));
  }

  lemma UnreadCanBeShown(s: State, id: MsgId) returns (more: seq<Event>, s': State)
    requires Inv(s) && id in Rows(s) && !Rows(s)[id].isRead
    ensures RunFrom(s, more) == Some(s') && Shown(s', id)
  {
    var c := |s.gate.conns|;
    more, s' := CanLogIn(s, Receiver(s, id));
    more, s' := Then(s, more, s', Sync(c));
    more, s' := OfferIsHeld(s, more, s', c, id);
    more, s' := HeldCanBeShown(s, more, s', c, id);
  }

  lemma DownCanBeShown(start: State, events: seq<Event>, s: State, c: G.ConnId, id: MsgId)
    returns (more: seq<Event>, s': State)
    requires RunFrom(start, events) == Some(s) && id in Rows(s) && id in s.uploads.store.down
    requires JustRouted(s, c, Receiver(s, id))
    ensures RunFrom(start, more) == Some(s') && Shown(s', id)
  {
    more, s' := Then(start, events, s, HandOver(id, false, false));
    var p := s'.gate.pipes[c];
    assert p.out.queue == [0] && p.carried == [Some(id)];
    assert 0 in p.out.queue && G.Carries(p, 0, id);
    more, s' := HeldCanBeShown(start, more, s', c, id);
  }

  lemma CanBePublished(start: State, events: seq<Event>, s: State, id: MsgId) returns (more: seq<Event>, s': State)
    requires U.Inv(s.uploads) && RunFrom(start, events) == Some(s)
    requires id in s.uploads.store.fate && s.uploads.store.fate[id].Routed?
    ensures RunFrom(start, more) == Some(s') && id in s'.uploads.store.down
    ensures Rows(s') == Rows(s) && s'.gate == s.gate
  {
    var w := s.uploads.store.fate[id].w;
    assert U.FateInv(s.uploads, id) && U.WorkerInv(s.uploads, w);
    more, s' := Then(start, events, s, Upload(U.Push(w, true)));
  }

  lemma CanBeRouted(start: State, events: seq<Event>, s: State, id: MsgId) returns (more: seq<Event>, s': State)
    requires U.Inv(s.uploads) && RunFrom(start, events) == Some(s)
    requires id in s.uploads.store.fate && s.uploads.store.fate[id].Undecided?
    requires id in Rows(s) && Receiver(s, id) in s.gate.routes
    ensures RunFrom(start, more) == Some(s') && U.Inv(s'.uploads)
    ensures id in s'.uploads.store.fate && s'.uploads.store.fate[id].Routed?
    ensures Rows(s') == Rows(s) && s'.gate == s.gate
  {
    var w := s.uploads.store.fate[id].w;
    assert U.FateInv(s.uploads, id) && U.WorkerInv(s.uploads, w);
    U.InvPreserved(s.uploads, U.LookUp(w, true));
    more, s' := Then(start, events, s, LookUp(w));
  }

  lemma UnsettledCanBeShown(s: State, id: MsgId) returns (more: seq<Event>, s': State)
    requires Inv(s) && id in Rows(s) && (id in s.uploads.store.down || !Settled(s.uploads, id))
    ensures RunFrom(s, more) == Some(s') && Shown(s', id)
  {
    more, s' := CanLogIn(s, Receiver(s, id));
    if id !in s.uploads.store.down {
      if s.uploads.store.fate[id].Undecided? {
        more, s' := CanBeRouted(s, more, s', id);
      }
      more, s' := CanBePublished(s, more, s', id);
    }
    more, s' := DownCanBeShown(s, more, s', |s.gate.conns|, id);
  }

  lemma CanStillBeShown(s: State, id: MsgId) returns (more: seq<Event>, s': State)
    requires Inv(s) && id in Rows(s) && (!Rows(s)[id].isRead || OnItsWay(s, id))
    ensures RunFrom(s, more) == Some(s') && Shown(s', id)
  {
    if !Rows(s)[id].isRead {
      more, s' := UnreadCanBeShown(s, id);
    } else if id in s.uploads.store.down || !Settled(s.uploads, id) {
      more, s' := UnsettledCanBeShown(s, id);
    } else {
      var c: G.ConnId :| c < |s.gate.pipes| && MayShow(s.gate.pipes[c], id);
      assert G.PipeInv(s.gate.pipes[c]) && RunFrom(s, []) == Some(s);
      if Holds(s.gate.pipes[c], id) {
        more, s' := HeldCanBeShown(s, [], s, c, id);
      } else {
        more, s' := TodoCanBeShown(s, [], s, c, id);
      }
    }
  }

  // In any reachable state, a stored message that was never shown can still be
  // shown if and only if it is unread, or on its way down, or a worker is still
  // to publish it, or an open connection with a living writer holds it or is
  // still to be offered it by its login. Otherwise no continuation shows it.
  lemma {:induction false} MessageCanBeShownIff(events: seq<Event>, s: State, id: MsgId)
    requires RunFrom(INITIAL, events) == Some(s) && id in Rows(s) && !Shown(s, id)
    ensures (exists more: seq<Event>, s': State :: RunFrom(s, more) == Some(s') && Shown(s', id))
            <==> !Rows(s)[id].isRead || OnItsWay(s, id)
  {
    RunInv(events, s);
    if !Rows(s)[id].isRead || OnItsWay(s, id) {
      var more, s' := CanStillBeShown(s, id);
    } else {
      forall more: seq<Event>, s': State | RunFrom(s, more) == Some(s') ensures !Shown(s', id) {
        LossIsForEver(s, more, s', id);
      }
    }
  }

  // --- A delivery that is dropped ----------------------------------------------

  // A delivery to a user with a client is notified as delivered in any case; the
  // client's channel does not take it if and only if it is full, or the client
  // is closed and the sender notices that first.
  lemma NotifiedThoughDroppedIff(s: State, id: MsgId, takeClosed: bool, again: bool)
    requires Inv(s) && Enabled(s, HandOver(id, takeClosed, again))
    ensures var s' := Step(s, HandOver(id, takeClosed, again));
            if Receiver(s, id) in s.gate.sessions then
              var c := s.gate.sessions[Receiver(s, id)];
              && Enabled(s', NotifyDelivered(id))
              && (s'.gate.pipes[c].out.queue == s.gate.pipes[c].out.queue
                  <==> |s.gate.pipes[c].out.queue| == Outbox.CAPACITY || (s.gate.pipes[c].out.closed && takeClosed))
            else s'.handed == s.handed && s'.gate == s.gate
  {
    if Receiver(s, id) in s.gate.sessions {
      var c := s.gate.sessions[Receiver(s, id)];
      assert G.PipeInv(s.gate.pipes[c]);
      if Outbox.Accepts(s.gate.pipes[c].out, takeClosed) {
        assert |Step(s, HandOver(id, takeClosed, again)).gate.pipes[c].out.queue| == |s.gate.pipes[c].out.queue| + 1;
      }
    }
  }
}
