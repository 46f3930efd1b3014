// Uploads and logins together, over one message table and one table of routes.
//
// A worker stores a message and then looks up the receiver's route. A login
// writes the route and then reads the unread messages, and afterwards marks all
// of the user's messages as read, whether it has read them or not.
module Delivery {
  import opened Wrappers
  import opened Messages
  import U = Uploads
  import G = Sessions

  // `marked` and `handed` are history: which connection's bulk update marked a
  // row, and which rows the gateway sent to a client, whose channel may have
  // dropped them.
  datatype State = State(uploads: U.State, gate: G.State, marked: map<MsgId, G.ConnId>, handed: set<MsgId>)

  const INITIAL: State := State(U.INITIAL, G.INITIAL, map[], {})

  datatype Event =
    | Upload(u: U.Event)
    | LookUp(w: U.WorkerId)
    | Gate(g: G.Event)
    | Sync(c: G.ConnId)
    // The bulk update may fail before or after it took effect.
    | Mark(c: G.ConnId, applied: bool, ok: bool)
    | HandOver(id: MsgId, takeClosed: bool, again: bool)
    | NotifyDelivered(id: MsgId)
    | AckMessage(id: MsgId)

  function Rows(s: State): Table {
    s.uploads.store.rows
  }

  function Receiver(s: State, id: MsgId): User
    requires id in Rows(s)
  {
    Rows(s)[id].receiver
  }

  predicate Online(s: State, w: U.WorkerId)
    requires U.Handles(s.uploads, w)
  {
    Rows(s)[s.uploads.workers[w].at.row].receiver in s.gate.routes
  }

  predicate Enabled(s: State, e: Event) {
    match e
    case Upload(u) => !u.LookUp? && !u.Consume? && !u.Receive? && U.Enabled(s.uploads, u)
    case LookUp(w) => U.Handles(s.uploads, w) && U.Enabled(s.uploads, U.LookUp(w, Online(s, w)))
    case Gate(g) => !g.Sync? && !g.Mark? && !g.HandTo? && G.Enabled(s.gate, g)
    case Sync(c) => c < |s.gate.conns| && G.Enabled(s.gate, G.Sync(c, Unread(Rows(s), s.gate.conns[c].user)))
    case Mark(c, applied, ok) => (ok ==> applied) && G.Enabled(s.gate, G.Mark(c, ok))
    case HandOver(id, takeClosed, _) =>
      && id in s.uploads.store.down && id in Rows(s)
      && (Receiver(s, id) in s.gate.sessions ==> s.gate.sessions[Receiver(s, id)] < |s.gate.pipes|)
    case NotifyDelivered(id) => id in s.handed
    case AckMessage(_) => true
  }

  function DoMark(s: State, c: G.ConnId, applied: bool, ok: bool): State
    requires Enabled(s, Mark(c, applied, ok))
  {
    var user := s.gate.conns[c].user;
    var s1 := s.(gate := G.Step(s.gate, G.Mark(c, ok)));
    if applied then
      s1.(uploads := U.Step(s.uploads, U.Receive(ReadAll(user))),
          marked := s.marked + (map id | id in Unread(Rows(s), user) :: c))
    else s1
  }

  // Acknowledged even when the receiver is gone; without an acknowledgement it
  // comes again.
  function DoHandOver(s: State, id: MsgId, takeClosed: bool, again: bool): State
    requires Enabled(s, HandOver(id, takeClosed, again))
  {
    var s1 := s.(uploads := if again then s.uploads else U.Step(s.uploads, U.Consume(id)));
    if Receiver(s, id) in s.gate.sessions then
      s1.(gate := G.Step(s.gate, G.HandTo(s.gate.sessions[Receiver(s, id)], id, takeClosed)), handed := s.handed + {id})
    else s1
  }

  function Step(s: State, e: Event): State
    requires Enabled(s, e)
  {
    match e
    case Upload(u) => s.(uploads := U.Step(s.uploads, u))
    case LookUp(w) => s.(uploads := U.Step(s.uploads, U.LookUp(w, Online(s, w))))
    case Gate(g) => s.(gate := G.Step(s.gate, g))
    case Sync(c) => s.(gate := G.Step(s.gate, G.Sync(c, Unread(Rows(s), s.gate.conns[c].user))))
    case Mark(c, applied, ok) => DoMark(s, c, applied, ok)
    case HandOver(id, takeClosed, again) => DoHandOver(s, id, takeClosed, again)
    case NotifyDelivered(id) => s.(uploads := U.Step(s.uploads, U.Receive(Delivered(id))))
    case AckMessage(id) => s.(uploads := U.Step(s.uploads, U.Receive(ReadOne(id))))
  }

  function UploadsEvent(s: State, e: Event): Option<U.Event>
    requires Enabled(s, e)
  {
    match e
    case Upload(u) => Some(u)
    case LookUp(w) => Some(U.LookUp(w, Online(s, w)))
    case Mark(c, applied, _) => if applied then Some(U.Receive(ReadAll(s.gate.conns[c].user))) else None
    case HandOver(id, _, again) => if again then None else Some(U.Consume(id))
    case NotifyDelivered(id) => Some(U.Receive(Delivered(id)))
    case AckMessage(id) => Some(U.Receive(ReadOne(id)))
    case _ => None
  }

  function GateEvent(s: State, e: Event): Option<G.Event>
    requires Enabled(s, e)
  {
    match e
    case Gate(g) => Some(g)
    case Sync(c) => Some(G.Sync(c, Unread(Rows(s), s.gate.conns[c].user)))
    case Mark(c, _, ok) => Some(G.Mark(c, ok))
    case HandOver(id, takeClosed, _) =>
      if Receiver(s, id) in s.gate.sessions then Some(G.HandTo(s.gate.sessions[Receiver(s, id)], id, takeClosed))
      else None
    case _ => None
  }

  // --- The inductive invariant -------------------------------------------------

  // The row's worker has not found its receiver offline.
  ghost predicate NotFoundOffline(s: State, id: MsgId) {
    id in s.uploads.store.fate && !s.uploads.store.fate[id].Offline?
  }

  ghost predicate CurrentAndRouted(s: State, c: G.ConnId) {
    G.Current(s.gate, c) && s.gate.conns[c].routed
  }

  // Between the snapshot and the bulk update of a current, routed session: an
  // unread row outside the snapshot was stored after the route was written.
  ghost predicate SnapshotInv(s: State, c: G.ConnId, id: MsgId)
    requires c < |s.gate.conns| && id in Rows(s)
  {
    var conn := s.gate.conns[c];
    (CurrentAndRouted(s, c) && conn.phase.Synced? && Rows(s)[id].receiver == conn.user
     && !Rows(s)[id].isRead && id !in conn.snapshot)
    ==> NotFoundOffline(s, id)
  }

  ghost predicate MarkedInv(s: State, id: MsgId)
    requires id in s.marked
  {
    var c := s.marked[id];
    && c < |s.gate.conns| && id in Rows(s)
    && Rows(s)[id].receiver == s.gate.conns[c].user && Rows(s)[id].isRead
    && !s.gate.conns[c].phase.Accepted? && !s.gate.conns[c].phase.Registered? && !s.gate.conns[c].phase.RouteDone?
    && (id in s.gate.conns[c].snapshot || !CurrentAndRouted(s, c) || NotFoundOffline(s, id))
  }

  ghost predicate HandedInv(s: State) {
    && (forall id <- s.handed :: id in s.uploads.store.pushes)
    && (forall id <- Rows(s) :: Rows(s)[id].status == SENT_UNCONFIRMED ==> id in s.handed)
  }

  ghost predicate Inv(s: State) {
    && U.Inv(s.uploads) && G.Inv(s.gate) && HandedInv(s)
    && (forall c: G.ConnId, id <- Rows(s) :: c < |s.gate.conns| ==> SnapshotInv(s, c, id))
    && (forall id <- s.marked :: MarkedInv(s, id))
  }

  lemma InvInitially()
    ensures Inv(INITIAL)
  {
  }

  lemma PartsPreserved(s: State, e: Event)
    requires Inv(s) && Enabled(s, e)
    ensures U.Inv(Step(s, e).uploads) && G.Inv(Step(s, e).gate)
  {
    if UploadsEvent(s, e).Some? {
      U.InvPreserved(s.uploads, UploadsEvent(s, e).value);
    }
    if GateEvent(s, e).Some? {
      G.InvPreserved(s.gate, GateEvent(s, e).value);
    }
  }

  // What a step of the uploads does to one row that exists: its message stays,
  // reading is for ever, and its fate turns to Offline only in a look-up.
  predicate KeepsRow(u: U.State, e: U.Event, u': U.State, id: MsgId)
    requires id in u.store.rows
  {
    && id in u'.store.rows
    && u'.store.rows[id].receiver == u.store.rows[id].receiver
    && (u.store.rows[id].isRead ==> u'.store.rows[id].isRead)
    && (id in u.store.fate && !u.store.fate[id].Offline? ==>
          && id in u'.store.fate
          && (u'.store.fate[id].Offline? ==>
                e.LookUp? && !e.online && e.w < |u.workers| && u.workers[e.w].at.Handling?
                    && u.workers[e.w].at.row == id))
  }

  lemma NotifyKeepsRow(u: U.State, e: U.Event, id: MsgId)
    requires U.Enabled(u, e) && U.NotifyEvent(e) && id in u.store.rows
    ensures KeepsRow(u, e, U.Step(u, e), id)
  {
  }

  lemma OthersKeepRow(u: U.State, e: U.Event, id: MsgId)
    requires U.Enabled(u, e) && !U.NotifyEvent(e) && id in u.store.rows
    requires U.MoveEvent(e) || U.InsertEvent(e) ==> U.WorkerInv(u, e.w)
    ensures KeepsRow(u, e, U.Step(u, e), id)
  {
  }

  lemma UploadsKeepRow(u: U.State, e: U.Event, id: MsgId)
    requires U.Inv(u) && U.Enabled(u, e) && id in u.store.rows
    ensures KeepsRow(u, e, U.Step(u, e), id)
  {
    if U.NotifyEvent(e) {
      NotifyKeepsRow(u, e, id);
    } else {
      OthersKeepRow(u, e, id);
    }
  }

  // A row that a step stores is stored as read, or undecided, or lost to an
  // error that its worker saw.
  lemma UploadsNewRow(u: U.State, e: U.Event, id: MsgId)
    requires U.Inv(u) && U.Enabled(u, e) && id !in u.store.rows && id in U.Step(u, e).store.rows
    ensures var u' := U.Step(u, e);
            && u'.store.rows[id].status == UNSENT
            && (u'.store.rows[id].isRead
                || (id in u'.store.fate && (u'.store.fate[id].Undecided? || u'.store.fate[id].Lost?)))
  {
  }

  // Nobody who has a current, routed session is found offline.
  lemma SessionIsOnline(s: State, w: U.WorkerId, c: G.ConnId)
    requires G.Inv(s.gate) && CurrentAndRouted(s, c)
    requires U.Handles(s.uploads, w) && Rows(s)[s.uploads.workers[w].at.row].receiver == s.gate.conns[c].user
    ensures Online(s, w)
  {
    assert G.ConnInv(s.gate, c);
  }

  lemma FateKept(s: State, e: Event, c: G.ConnId, id: MsgId)
    requires U.Inv(s.uploads) && G.Inv(s.gate) && Enabled(s, e) && id in Rows(s) && NotFoundOffline(s, id)
    requires CurrentAndRouted(s, c) && s.gate.conns[c].user == Rows(s)[id].receiver
    ensures NotFoundOffline(Step(s, e), id)
  {
    if UploadsEvent(s, e).Some? {
      UploadsKeepRow(s.uploads, UploadsEvent(s, e).value, id);
    }
    if e.LookUp? && s.uploads.workers[e.w].at.row == id {
      SessionIsOnline(s, e.w, c);
    }
  }

  lemma GateKeepsConn(g: G.State, e: G.Event, c: G.ConnId)
    requires G.Inv(g) && G.Enabled(g, e) && c < |g.conns|
    ensures var g' := G.Step(g, e);
            && c < |g'.conns| && g'.conns[c].user == g.conns[c].user
            && (!e.Sync? ==> g'.conns[c].snapshot == g.conns[c].snapshot)
            && (!e.SetRoute? && !e.Register? && G.Current(g', c) ==> G.Current(g, c))
            && (!e.SetRoute? ==> g'.conns[c].routed == g.conns[c].routed)
            && (!e.Sync? && g'.conns[c].phase.Synced? ==> g.conns[c].phase.Synced?)
            && (!g.conns[c].phase.Accepted? && !g.conns[c].phase.Registered? && !g.conns[c].phase.RouteDone? ==>
                  && !g'.conns[c].phase.Accepted? && !g'.conns[c].phase.Registered? && !g'.conns[c].phase.RouteDone?
                  && g'.conns[c].snapshot == g.conns[c].snapshot && g'.conns[c].routed == g.conns[c].routed
                  && (G.Current(g', c) ==> G.Current(g, c)))
  {
  }

  lemma RowKept(s: State, e: Event, id: MsgId)
    requires U.Inv(s.uploads) && Enabled(s, e) && id in Rows(s)
    ensures id in Rows(Step(s, e)) && Rows(Step(s, e))[id].receiver == Rows(s)[id].receiver
    ensures Rows(s)[id].isRead ==> Rows(Step(s, e))[id].isRead
  {
    if UploadsEvent(s, e).Some? {
      UploadsKeepRow(s.uploads, UploadsEvent(s, e).value, id);
    }
  }

  lemma SnapshotAtSync(s: State, c: G.ConnId, id: MsgId)
    requires Enabled(s, Sync(c)) && id in Rows(s)
    ensures SnapshotInv(Step(s, Sync(c)), c, id)
  {
  }

  lemma SnapshotOfNewRow(s: State, e: Event, c: G.ConnId, id: MsgId)
    requires U.Inv(s.uploads) && Enabled(s, e) && c < |Step(s, e).gate.conns|
    requires id !in Rows(s) && id in Rows(Step(s, e))
    ensures SnapshotInv(Step(s, e), c, id)
  {
    UploadsNewRow(s.uploads, UploadsEvent(s, e).value, id);
  }

  lemma SnapshotOfNewConn(s: State, e: Event, c: G.ConnId, id: MsgId)
    requires Enabled(s, e) && |s.gate.conns| <= c < |Step(s, e).gate.conns| && id in Rows(Step(s, e))
    ensures SnapshotInv(Step(s, e), c, id)
  {
  }

  lemma SnapshotPreserved(s: State, e: Event, c: G.ConnId, id: MsgId)
    requires Inv(s) && Enabled(s, e) && c < |Step(s, e).gate.conns| && id in Rows(Step(s, e))
    ensures SnapshotInv(Step(s, e), c, id)
  {
    if id !in Rows(s) {
      SnapshotOfNewRow(s, e, c, id);
    } else if c >= |s.gate.conns| {
      SnapshotOfNewConn(s, e, c, id);
    } else if e == Sync(c) {
      SnapshotAtSync(s, c, id);
    } else {
      assert SnapshotInv(s, c, id);
      SnapshotKept(s, e, c, id);
    }
  }

  // Such a session was current, routed and synced before.
  lemma StillSynced(g: G.State, e: G.Event, c: G.ConnId)
    requires G.Inv(g) && G.Enabled(g, e) && c < |g.conns| && !(e.Sync? && e.c == c)
    requires G.Current(G.Step(g, e), c) && G.Step(g, e).conns[c].routed && G.Step(g, e).conns[c].phase.Synced?
    ensures G.Current(g, c) && g.conns[c].routed && g.conns[c].phase.Synced?
    ensures G.Step(g, e).conns[c] == g.conns[c]
  {
  }

  lemma SnapshotKept(s: State, e: Event, c: G.ConnId, id: MsgId)
    requires U.Inv(s.uploads) && G.Inv(s.gate) && Enabled(s, e) && c < |s.gate.conns| && id in Rows(s)
    requires SnapshotInv(s, c, id) && e != Sync(c)
    ensures c < |Step(s, e).gate.conns| && id in Rows(Step(s, e)) && SnapshotInv(Step(s, e), c, id)
  {
    RowKept(s, e, id);
    if GateEvent(s, e).Some? {
      GateKeepsConn(s.gate, GateEvent(s, e).value, c);
    }
    if CurrentAndRouted(Step(s, e), c) && Step(s, e).gate.conns[c].phase.Synced? {
      if GateEvent(s, e).Some? {
        StillSynced(s.gate, GateEvent(s, e).value, c);
      }
      if NotFoundOffline(s, id) && s.gate.conns[c].user == Rows(s)[id].receiver {
        FateKept(s, e, c, id);
      }
    }
  }

  lemma MarkedKept(s: State, e: Event, id: MsgId)
    requires Inv(s) && Enabled(s, e) && id in s.marked && Step(s, e).marked[id] == s.marked[id]
    ensures MarkedInv(Step(s, e), id)
  {
    var c := s.marked[id];
    assert MarkedInv(s, id);
    RowKept(s, e, id);
    if GateEvent(s, e).Some? {
      GateKeepsConn(s.gate, GateEvent(s, e).value, c);
    }
    if NotFoundOffline(s, id) && CurrentAndRouted(s, c) {
      FateKept(s, e, c, id);
    }
  }

  lemma MarkMarks(s: State, c: G.ConnId, ok: bool, id: MsgId)
    requires Enabled(s, Mark(c, true, ok)) && id in Unread(Rows(s), s.gate.conns[c].user) && SnapshotInv(s, c, id)
    ensures id in Step(s, Mark(c, true, ok)).marked && MarkedInv(Step(s, Mark(c, true, ok)), id)
  {
  }

  lemma MarkedPreserved(s: State, e: Event, id: MsgId)
    requires Inv(s) && Enabled(s, e) && id in Step(s, e).marked
    ensures MarkedInv(Step(s, e), id)
  {
    if e.Mark? && e.applied && id in Unread(Rows(s), s.gate.conns[e.c].user) {
      assert SnapshotInv(s, e.c, id);
      MarkMarks(s, e.c, e.ok, id);
    } else {
      MarkedKept(s, e, id);
    }
  }

  lemma PushesGrow(u: U.State, e: U.Event)
    requires U.Enabled(u, e)
    ensures u.store.pushes <= U.Step(u, e).store.pushes
  {
  }

  // Only a Delivered receipt makes a row handed on but unconfirmed.
  lemma StatusOrigin(u: U.State, e: U.Event, id: MsgId)
    requires U.Inv(u) && U.Enabled(u, e) && id in U.Step(u, e).store.rows
    requires U.Step(u, e).store.rows[id].status == SENT_UNCONFIRMED
    ensures e == U.Receive(Delivered(id)) || (id in u.store.rows && u.store.rows[id].status == SENT_UNCONFIRMED)
  {
  }

  lemma HandedPreserved(s: State, e: Event)
    requires Inv(s) && Enabled(s, e)
    ensures HandedInv(Step(s, e))
  {
    var s' := Step(s, e);
    var ue := UploadsEvent(s, e);
    if ue.Some? {
      PushesGrow(s.uploads, ue.value);
    }
    forall id <- Rows(s') | Rows(s')[id].status == SENT_UNCONFIRMED ensures id in s'.handed {
      if ue.Some? {
        StatusOrigin(s.uploads, ue.value, id);
      }
    }
  }

  lemma InvPreserved(s: State, e: Event)
    requires Inv(s) && Enabled(s, e)
    ensures Inv(Step(s, e))
  {
    var s' := Step(s, e);
    PartsPreserved(s, e);
    HandedPreserved(s, e);
    forall c: G.ConnId, id <- Rows(s') | c < |s'.gate.conns| ensures SnapshotInv(s', c, id) {
      SnapshotPreserved(s, e, c, id);
    }
    forall id <- s'.marked ensures MarkedInv(s', id) {
      MarkedPreserved(s, e, id);
    }
  }

  // --- Runs --------------------------------------------------------------------

  function RunFrom(start: State, events: seq<Event>): Option<State> {
    if events == [] then Some(start)
    else
      var before := RunFrom(start, events[..|events| - 1]);
      var e := events[|events| - 1];
      if before.Some? && Enabled(before.value, e) then Some(Step(before.value, e)) else None
  }

  lemma {:induction false} RunInv(events: seq<Event>, s: State)
    requires RunFrom(INITIAL, events) == Some(s)
    ensures Inv(s)
  {
    if events != [] {
      RunInv(events[..|events| - 1], RunFrom(INITIAL, events[..|events| - 1]).value);
      InvPreserved(RunFrom(INITIAL, events[..|events| - 1]).value, events[|events| - 1]);
    }
  }

  // The login handoff. A row that a login marked as read without having read
  // it, while that session is current and its route written, has a worker that
  // is about to look up the route and will find it, or has found it and is
  // about to publish, or has published; or a worker that failed in between.
  lemma {:induction false} LoginHandoff(events: seq<Event>, s: State, id: MsgId)
    requires RunFrom(INITIAL, events) == Some(s) && id in s.marked
    ensures s.marked[id] < |s.gate.conns| && id in Rows(s)
    ensures var c := s.marked[id];
            && Rows(s)[id].receiver == s.gate.conns[c].user && Rows(s)[id].isRead
            && (id !in s.gate.conns[c].snapshot && CurrentAndRouted(s, c) ==>
                  && id in s.uploads.store.fate
                  && match s.uploads.store.fate[id]
                     case Undecided(w) => U.Handles(s.uploads, w) && s.uploads.workers[w].at.row == id && Online(s, w)
                     case Routed(w) => U.Enabled(s.uploads, U.Push(w, true)) && s.uploads.workers[w].at.row == id
                     case Pushed => true
                     case Lost => true
                     case Offline => false)
  {
    RunInv(events, s);
    var c := s.marked[id];
    assert MarkedInv(s, id);
    if id !in s.gate.conns[c].snapshot && CurrentAndRouted(s, c) {
      var fate := s.uploads.store.fate[id];
      assert U.FateInv(s.uploads, id);
      if fate.Undecided? || fate.Routed? {
        assert U.WorkerInv(s.uploads, fate.w);
        assert U.Handles(s.uploads, fate.w);
        if fate.Undecided? {
          SessionIsOnline(s, fate.w, c);
        }
      }
    }
  }

  // The status "handed on, not confirmed" is set only for messages that were
  // published down and handed to some connection.
  lemma {:induction false} DeliveredMeansHandedOver(events: seq<Event>, s: State, id: MsgId)
    requires RunFrom(INITIAL, events) == Some(s) && id in Rows(s) && Rows(s)[id].status == SENT_UNCONFIRMED
    ensures id in s.handed && id in s.uploads.store.pushes
  {
    RunInv(events, s);
  }

  // --- What a served login has read --------------------------------------------

  // A login's snapshot is of its user's messages, and they are read once it is
  // served.
  ghost predicate ServedInv(s: State, c: G.ConnId, id: MsgId)
    requires c < |s.gate.conns|
  {
    id in s.gate.conns[c].snapshot ==>
      && id in Rows(s) && Rows(s)[id].receiver == s.gate.conns[c].user
      && (s.gate.conns[c].phase.Serving? || s.gate.conns[c].phase.Closed? ==> Rows(s)[id].isRead)
  }

  lemma ServedByMark(s: State, c: G.ConnId, applied: bool, ok: bool, id: MsgId)
    requires Enabled(s, Mark(c, applied, ok)) && c < |s.gate.conns| && ServedInv(s, c, id)
    ensures ServedInv(Step(s, Mark(c, applied, ok)), c, id)
  {
  }

  // No other step of the gateway lets a login be served that has messages to read.
  lemma ServedByGate(g: G.State, e: G.Event, c: G.ConnId)
    requires G.Enabled(g, e) && c < |g.conns| && !e.Mark? && !e.Sync?
    ensures var conn, conn' := g.conns[c], G.Step(g, e).conns[c];
            && conn'.user == conn.user && conn'.snapshot == conn.snapshot
            && (conn'.phase.Serving? ==> conn.phase.Serving?)
            && (conn'.phase.Closed? ==> conn.phase.Serving? || conn.phase.Closed?)
  {
  }

  lemma ServedPreserved(s: State, e: Event, c: G.ConnId, id: MsgId)
    requires U.Inv(s.uploads) && Enabled(s, e) && c < |s.gate.conns| && ServedInv(s, c, id)
    ensures c < |Step(s, e).gate.conns| && ServedInv(Step(s, e), c, id)
  {
    if e.Mark? && e.c == c {
      ServedByMark(s, c, e.applied, e.ok, id);
    } else {
      if id in Rows(s) {
        RowKept(s, e, id);
      }
      var ge := GateEvent(s, e);
      if ge.Some? && !ge.value.Mark? && !ge.value.Sync? {
        ServedByGate(s.gate, ge.value, c);
      }
    }
  }

  lemma ServedStep(s: State, e: Event, c: G.ConnId, id: MsgId)
    requires U.Inv(s.uploads) && Enabled(s, e) && c < |Step(s, e).gate.conns|
    requires c < |s.gate.conns| ==> ServedInv(s, c, id)
    ensures ServedInv(Step(s, e), c, id)
  {
    if c < |s.gate.conns| {
      ServedPreserved(s, e, c, id);
    }
  }

  // Once a login is served, all the unread messages that it found are read.
  lemma {:induction false} ServedMeansRead(events: seq<Event>, s: State, c: G.ConnId, id: MsgId)
    requires RunFrom(INITIAL, events) == Some(s) && c < |s.gate.conns|
    ensures ServedInv(s, c, id)
  {
    if events != [] {
      var front := events[..|events| - 1];
      var before := RunFrom(INITIAL, front).value;
      RunInv(front, before);
      if c < |before.gate.conns| {
        ServedMeansRead(front, before, c, id);
      }
      ServedStep(before, events[|events| - 1], c, id);
    }
  }

  predicate TakenOver(events: seq<Event>, id: MsgId) {
    HandOver(id, true, false) in events || HandOver(id, false, false) in events
  }

  lemma DownStep(s: State, e: Event, id: MsgId)
    requires Enabled(s, e) && id in s.uploads.store.down
    ensures id in Step(s, e).uploads.store.down || TakenOver([e], id)
  {
  }

  // A message on its way down stays so until the gateway has taken it.
  lemma {:induction false} StaysOnItsWay(s: State, more: seq<Event>, s': State, id: MsgId)
    requires RunFrom(s, more) == Some(s') && id in s.uploads.store.down
    ensures id in s'.uploads.store.down || TakenOver(more, id)
  {
    if more != [] {
      var before, e := more[..|more| - 1], more[|more| - 1];
      StaysOnItsWay(s, before, RunFrom(s, before).value, id);
      if id in RunFrom(s, before).value.uploads.store.down {
        DownStep(RunFrom(s, before).value, e, id);
      }
      assert more == before + [e];
    }
  }
}
