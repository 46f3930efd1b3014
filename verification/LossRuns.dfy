// Runs that lose a message: two logins at once, and a failed publish; and a run
// that notes a message as delivered although it was dropped. Each is put
// together from steps of the uploads and of the gateway, worked out beforehand.
module LossRuns {
  import opened Wrappers
  import opened Messages
  import opened Delivery
  import opened Loss
  import U = Uploads
  import G = Sessions
  import Outbox

  const FIRST: U.Upload := U.Upload(U.Single, 1, 5, 7, 0, "one")
  const SECOND: U.Upload := U.Upload(U.Single, 2, 5, 7, 0, "two")

  const NO_TRAIL: U.Trail := U.Trail(map[], map[])

  // The first message finds user 7 offline.
  const AFTER_FIRST: U.State :=
    U.State(U.Broker({1}, map[1 := FIRST], map[], {1}, {}, map[]), [U.Worker(1, U.Gone)],
            U.Store(map[1 := U.RowFor(FIRST, 7)], map[1 := U.Offline], [], {}), NO_TRAIL)

  function FirstAt(at: U.Point, fate: U.Fate): U.State {
    U.State(U.Broker({1}, map[1 := FIRST], map[], {1}, {}, map[1 := 0]), [U.Worker(1, at)],
            U.Store(map[1 := U.RowFor(FIRST, 7)], map[1 := fate], [], {}), NO_TRAIL)
  }

  // A step of the uploads alone.
  lemma UploadThen(before: seq<Event>, s: State, e: U.Event, u: U.State) returns (events: seq<Event>, s': State)
    requires RunFrom(INITIAL, before) == Some(s) && Enabled(s, Upload(e)) && U.Step(s.uploads, e) == u
    ensures RunFrom(INITIAL, events) == Some(s') && s' == s.(uploads := u)
  {
    events, s' := Then(INITIAL, before, s, Upload(e));
  }

  // A look-up finds the receiver of the row online or not.
  lemma LookUpThen(before: seq<Event>, s: State, w: U.WorkerId, online: bool, u: U.State)
    returns (events: seq<Event>, s': State)
    requires RunFrom(INITIAL, before) == Some(s) && U.Handles(s.uploads, w) && Online(s, w) == online
    requires U.Enabled(s.uploads, U.LookUp(w, online)) && U.Step(s.uploads, U.LookUp(w, online)) == u
    ensures RunFrom(INITIAL, events) == Some(s') && s' == s.(uploads := u)
  {
    events, s' := Then(INITIAL, before, s, LookUp(w));
  }

  const PUBLISHED: U.State := U.INITIAL.(broker := U.Broker({1}, map[1 := FIRST], map[], {1}, {1}, map[]))
  const DELIVERED: U.State :=
    U.INITIAL.(broker := U.Broker({1}, map[1 := FIRST], map[], {1}, {}, map[1 := 0]), workers := [U.Worker(1, U.Start)])

  lemma FirstSteps()
    ensures U.Step(U.INITIAL, U.Publish(1, FIRST, true, true)) == PUBLISHED
    ensures U.Enabled(PUBLISHED, U.Deliver(1)) && U.Step(PUBLISHED, U.Deliver(1)) == DELIVERED
    ensures U.Enabled(DELIVERED, U.InsertUpload(0, true))
    ensures U.Step(DELIVERED, U.InsertUpload(0, true)) == FirstAt(U.Handling(1, []), U.Undecided(0))
  {
    assert U.Step(PUBLISHED, U.Deliver(1)).workers == [U.Worker(1, U.Start)];
    assert U.Step(DELIVERED, U.InsertUpload(0, true)).workers == [U.Worker(1, U.Handling(1, []))];
  }

  lemma FirstIsStored(before: seq<Event>, s: State) returns (events: seq<Event>, s': State)
    requires RunFrom(INITIAL, before) == Some(s) && s.uploads == U.INITIAL
    ensures RunFrom(INITIAL, events) == Some(s')
    ensures s' == s.(uploads := FirstAt(U.Handling(1, []), U.Undecided(0)))
  {
    FirstSteps();
    events, s' := UploadThen(before, s, U.Publish(1, FIRST, true, true), PUBLISHED);
    events, s' := UploadThen(events, s', U.Deliver(1), DELIVERED);
    events, s' := UploadThen(events, s', U.InsertUpload(0, true), FirstAt(U.Handling(1, []), U.Undecided(0)));
  }

  lemma FirstEnds()
    ensures var u := FirstAt(U.Handling(1, []), U.Undecided(0));
            && U.Handles(u, 0) && U.Enabled(u, U.LookUp(0, false))
            && U.Step(u, U.LookUp(0, false)) == FirstAt(U.Done, U.Offline)
            && U.Enabled(FirstAt(U.Done, U.Offline), U.Ack(0))
            && U.Step(FirstAt(U.Done, U.Offline), U.Ack(0)) == AFTER_FIRST
  {
    assert U.Step(FirstAt(U.Handling(1, []), U.Undecided(0)), U.LookUp(0, false)).workers == [U.Worker(1, U.Done)];
    assert U.Step(FirstAt(U.Done, U.Offline), U.Ack(0)).workers == [U.Worker(1, U.Gone)];
  }

  lemma FirstIsSettled() returns (events: seq<Event>, s: State)
    ensures RunFrom(INITIAL, events) == Some(s) && s == INITIAL.(uploads := AFTER_FIRST)
  {
    FirstEnds();
    events, s := FirstIsStored([], INITIAL);
    events, s := LookUpThen(events, s, 0, false, FirstAt(U.Done, U.Offline));
    events, s := UploadThen(events, s, U.Ack(0), AFTER_FIRST);
  }

  // A step of the gateway alone.
  lemma GateThen(before: seq<Event>, s: State, e: G.Event, g: G.State) returns (events: seq<Event>, s': State)
    requires RunFrom(INITIAL, before) == Some(s) && Enabled(s, Gate(e)) && G.Step(s.gate, e) == g
    ensures RunFrom(INITIAL, events) == Some(s') && s' == s.(gate := g)
  {
    events, s' := Then(INITIAL, before, s, Gate(e));
  }

  function GateWith(conn: G.Conn, pipe: G.Pipe): G.State {
    G.State([conn], [pipe], map[7 := 0], {7})
  }

  const ACCEPTED: G.Conn := G.Conn(7, G.Accepted, false, {})
  const REGISTERED: G.Conn := G.Conn(7, G.Registered, false, {})
  const ROUTED: G.Conn := G.Conn(7, G.RouteDone, true, {})
  const SERVING: G.Conn := G.Conn(7, G.Serving, true, {})

  lemma LoginSteps()
    ensures var g := G.State([ACCEPTED], [G.FRESH_PIPE], map[], {});
            var g1 := G.State([REGISTERED], [G.FRESH_PIPE], map[7 := 0], {});
            && G.Step(G.INITIAL, G.Accept(7)) == g
            && G.Enabled(g, G.Register(0)) && G.Step(g, G.Register(0)) == g1
            && G.Enabled(g1, G.SetRoute(0, true)) && G.Step(g1, G.SetRoute(0, true)) == GateWith(ROUTED, G.FRESH_PIPE)
  {
    assert G.Step(G.INITIAL, G.Accept(7)).pipes == [G.FRESH_PIPE];
    assert G.Step(G.INITIAL, G.Accept(7)).conns == [ACCEPTED];
  }

  lemma UserLogsIn(before: seq<Event>, s: State) returns (events: seq<Event>, s': State)
    requires RunFrom(INITIAL, before) == Some(s) && s.gate == G.INITIAL
    ensures RunFrom(INITIAL, events) == Some(s') && s' == s.(gate := GateWith(ROUTED, G.FRESH_PIPE))
  {
    LoginSteps();
    events, s' := GateThen(before, s, G.Accept(7), G.State([ACCEPTED], [G.FRESH_PIPE], map[], {}));
    events, s' := GateThen(events, s', G.Register(0), G.State([REGISTERED], [G.FRESH_PIPE], map[7 := 0], {}));
    events, s' := GateThen(events, s', G.SetRoute(0, true), GateWith(ROUTED, G.FRESH_PIPE));
  }

  // User 7 logs in and is about to be sent the first message.
  const TO_SEND: G.State := GateWith(G.Conn(7, G.Synced, true, {1}), G.FRESH_PIPE.(todo := {1}))

  lemma UserHasSnapshot() returns (events: seq<Event>, s: State)
    ensures RunFrom(INITIAL, events) == Some(s) && s == State(AFTER_FIRST, TO_SEND, map[], {})
  {
    FirstIsUnread();
    events, s := FirstIsSettled();
    events, s := UserLogsIn(events, s);
    events, s := SyncThen(events, s, 0, TO_SEND);
  }

  // A login takes its snapshot.
  lemma SyncThen(before: seq<Event>, s: State, c: G.ConnId, g: G.State) returns (events: seq<Event>, s': State)
    requires RunFrom(INITIAL, before) == Some(s) && c < |s.gate.conns|
    requires var sync := G.Sync(c, Unread(Rows(s), s.gate.conns[c].user));
             G.Enabled(s.gate, sync) && G.Step(s.gate, sync) == g
    ensures RunFrom(INITIAL, events) == Some(s') && s' == s.(gate := g)
  {
    events, s' := Then(INITIAL, before, s, Sync(c));
  }

  lemma FirstIsUnread()
    ensures Unread(AFTER_FIRST.store.rows, 7) == {1}
    ensures G.Enabled(GateWith(ROUTED, G.FRESH_PIPE), G.Sync(0, {1}))
    ensures G.Step(GateWith(ROUTED, G.FRESH_PIPE), G.Sync(0, {1})) == TO_SEND
  {
  }

  // A bulk update takes effect and succeeds.
  lemma MarkThen(before: seq<Event>, s: State, c: G.ConnId, rows: Table, g: G.State)
    returns (events: seq<Event>, s': State)
    requires RunFrom(INITIAL, before) == Some(s) && G.Enabled(s.gate, G.Mark(c, true))
             && G.Step(s.gate, G.Mark(c, true)) == g
    requires Update(Rows(s), ReadAll(s.gate.conns[c].user)) == rows
    ensures RunFrom(INITIAL, events) == Some(s')
    ensures s'.uploads == s.uploads.(store := s.uploads.store.(rows := rows)) && s'.gate == g
  {
    MarkStep(s, c, rows, g);
    events, s' := Then(INITIAL, before, s, Mark(c, true, true));
  }

  lemma MarkStep(s: State, c: G.ConnId, rows: Table, g: G.State)
    requires G.Enabled(s.gate, G.Mark(c, true)) && G.Step(s.gate, G.Mark(c, true)) == g
    requires Update(Rows(s), ReadAll(s.gate.conns[c].user)) == rows
    ensures var s' := Step(s, Mark(c, true, true));
            s'.uploads == s.uploads.(store := s.uploads.store.(rows := rows)) && s'.gate == g
  {
  }

  // --- Two logins --------------------------------------------------------------

  // The gateway after both logins have connected: how far they are, what the
  // first one's channel looks like, and whose entry the table holds.
  function Both(phase: G.Phase, p: G.Pipe, second: G.Conn, current: G.ConnId): G.State {
    G.State([G.Conn(7, phase, true, {1}), second], [p, G.FRESH_PIPE], map[7 := current], {7})
  }

  const CLOSING_OUT: Outbox.State := Outbox.INITIAL.(closed := true, closes := 1)
  const CLOSED_OUT: Outbox.State := CLOSING_OUT.(connOpen := false)

  const TODO_PIPE: G.Pipe := G.FRESH_PIPE.(todo := {1})
  const REFUSED_PIPE: G.Pipe := G.Pipe({}, {1}, false, CLOSED_OUT.(attempts := 1, firstDrop := Some(0)), [Some(1)])

  // The second login closes the first one's client.
  lemma FirstIsClosed()
    ensures var g := Both(G.Synced, TODO_PIPE, ACCEPTED, 0);
            && G.Step(TO_SEND, G.Accept(7)) == g
            && G.Enabled(g, G.Channel(0, Outbox.CloseFlag))
            && var g1 := Both(G.Synced, TODO_PIPE.(out := CLOSING_OUT), ACCEPTED, 0);
               && G.Step(g, G.Channel(0, Outbox.CloseFlag)) == g1
               && G.Enabled(g1, G.Channel(0, Outbox.CloseConn))
               && G.Step(g1, G.Channel(0, Outbox.CloseConn))
                  == Both(G.Synced, TODO_PIPE.(out := CLOSED_OUT), ACCEPTED, 0)
  {
  }

  // It replaces it; then the first login's offer is refused.
  lemma FirstIsRefused()
    ensures var g := Both(G.Synced, TODO_PIPE.(out := CLOSED_OUT), ACCEPTED, 0);
            var g1 := Both(G.Synced, TODO_PIPE.(out := CLOSED_OUT), REGISTERED, 1);
            && G.Enabled(g, G.Register(1)) && G.Step(g, G.Register(1)) == g1
            && G.Enabled(g1, G.Offer(0, 1, true))
            && G.Step(g1, G.Offer(0, 1, true)) == Both(G.Synced, REFUSED_PIPE, REGISTERED, 1)
  {
    assert G.Offered(TODO_PIPE.(out := CLOSED_OUT), 1, true).carried == [Some(1)];
    assert G.Offered(TODO_PIPE.(out := CLOSED_OUT), 1, true) == REFUSED_PIPE;
  }

  lemma SecondLoginReplacesFirst() returns (events: seq<Event>, s: State)
    ensures RunFrom(INITIAL, events) == Some(s)
    ensures s == State(AFTER_FIRST, Both(G.Synced, REFUSED_PIPE, REGISTERED, 1), map[], {})
  {
    FirstIsClosed();
    FirstIsRefused();
    events, s := UserHasSnapshot();
    events, s := GateThen(events, s, G.Accept(7), Both(G.Synced, TODO_PIPE, ACCEPTED, 0));
    events, s := GateThen(events, s, G.Channel(0, Outbox.CloseFlag),
                          Both(G.Synced, TODO_PIPE.(out := CLOSING_OUT), ACCEPTED, 0));
    events, s := GateThen(events, s, G.Channel(0, Outbox.CloseConn),
                          Both(G.Synced, TODO_PIPE.(out := CLOSED_OUT), ACCEPTED, 0));
    events, s := GateThen(events, s, G.Register(1), Both(G.Synced, TODO_PIPE.(out := CLOSED_OUT), REGISTERED, 1));
    events, s := GateThen(events, s, G.Offer(0, 1, true), Both(G.Synced, REFUSED_PIPE, REGISTERED, 1));
  }

  function FirstRead(): Table {
    map[1 := U.RowFor(FIRST, 7).(isRead := true, status := SENT_CONFIRMED)]
  }

  lemma MarkReadsFirst()
    ensures Update(AFTER_FIRST.store.rows, ReadAll(7)) == FirstRead()
    ensures Unread(FirstRead(), 7) == {}
    ensures G.Enabled(Both(G.Synced, REFUSED_PIPE, REGISTERED, 1), G.Mark(0, true))
    ensures G.Step(Both(G.Synced, REFUSED_PIPE, REGISTERED, 1), G.Mark(0, true))
         == Both(G.Serving, REFUSED_PIPE, REGISTERED, 1)
  {
    assert 1 in AFTER_FIRST.store.rows;
  }

  lemma FirstLoginMarks() returns (events: seq<Event>, s: State)
    ensures RunFrom(INITIAL, events) == Some(s)
    ensures s.uploads == AFTER_FIRST.(store := AFTER_FIRST.store.(rows := FirstRead()))
    ensures s.gate == Both(G.Serving, REFUSED_PIPE, REGISTERED, 1)
  {
    MarkReadsFirst();
    events, s := SecondLoginReplacesFirst();
    events, s := MarkThen(events, s, 0, FirstRead(), Both(G.Serving, REFUSED_PIPE, REGISTERED, 1));
  }

  // The second login finds nothing unread.
  lemma SecondSeesNothing()
    ensures var g := Both(G.Serving, REFUSED_PIPE, REGISTERED, 1);
            var g1 := Both(G.Serving, REFUSED_PIPE, ROUTED, 1);
            && G.Enabled(g, G.SetRoute(1, true)) && G.Step(g, G.SetRoute(1, true)) == g1
            && G.Enabled(g1, G.Sync(1, {})) && G.Step(g1, G.Sync(1, {})) == Both(G.Serving, REFUSED_PIPE, SERVING, 1)
  {
  }

  lemma NothingIsLeft(s: State)
    requires s.uploads == AFTER_FIRST.(store := AFTER_FIRST.store.(rows := FirstRead()))
    requires s.gate == Both(G.Serving, REFUSED_PIPE, SERVING, 1)
    ensures LostInSilence(s, 1) && CurrentAndRouted(s, 1)
  {
  }

  lemma SecondLoginSeesNothing() returns (events: seq<Event>, s: State)
    ensures RunFrom(INITIAL, events) == Some(s) && 1 in s.uploads.broker.acked
    ensures CurrentAndRouted(s, 1) && s.gate.conns[1] == SERVING && LostInSilence(s, 1)
  {
    SecondSeesNothing();
    MarkReadsFirst();
    events, s := FirstLoginMarks();
    events, s := GateThen(events, s, G.SetRoute(1, true), Both(G.Serving, REFUSED_PIPE, ROUTED, 1));
    events, s := SyncThen(events, s, 1, Both(G.Serving, REFUSED_PIPE, SERVING, 1));
    NothingIsLeft(s);
  }

  // One unread message and two logins of its receiver suffice. The second login
  // closes the first one's client before the message is offered to it; the first
  // login marks it as read all the same, and the second finds nothing unread.
  lemma TwoLoginsLoseAMessage() returns (events: seq<Event>, s: State)
    ensures RunFrom(INITIAL, events) == Some(s) && 1 in s.uploads.broker.acked
    ensures CurrentAndRouted(s, 1) && s.gate.conns[1] == SERVING
    ensures forall more: seq<Event>, s': State :: RunFrom(s, more) == Some(s') ==> LostInSilence(s', 1)
  {
    events, s := SecondLoginSeesNothing();
    RunInv(events, s);
    forall more: seq<Event>, s': State | RunFrom(s, more) == Some(s') ensures LostInSilence(s', 1) {
      LossIsForEver(s, more, s', 1);
    }
  }

  // --- A failed publish --------------------------------------------------------

  // The first message has been offered to user 7, and is not marked yet.
  const LOGGED_IN: G.State :=
    GateWith(G.Conn(7, G.Synced, true, {1}),
             G.Pipe({}, {}, false, Outbox.INITIAL.(attempts := 1, queue := [0]), [Some(1)]))

  lemma OfferIsAccepted()
    ensures G.Enabled(TO_SEND, G.Offer(0, 1, false)) && G.Step(TO_SEND, G.Offer(0, 1, false)) == LOGGED_IN
  {
    assert G.Offered(TODO_PIPE, 1, false).carried == [Some(1)] && G.Offered(TODO_PIPE, 1, false).out.queue == [0];
    assert G.Offered(TODO_PIPE, 1, false) == LOGGED_IN.pipes[0];
  }

  lemma UserIsSynced() returns (events: seq<Event>, s: State)
    ensures RunFrom(INITIAL, events) == Some(s) && s == State(AFTER_FIRST, LOGGED_IN, map[], {})
  {
    OfferIsAccepted();
    events, s := UserHasSnapshot();
    events, s := GateThen(events, s, G.Offer(0, 1, false), LOGGED_IN);
  }

  // The second message is stored, finds the route, and cannot be published down.
  function SecondAt(at: U.Point, fate: map<MsgId, U.Fate>, pushes: seq<MsgId>): U.State {
    U.State(U.Broker({1, 2}, map[1 := FIRST, 2 := SECOND], map[], {1, 2}, {}, map[2 := 1]),
            [U.Worker(1, U.Gone), U.Worker(2, at)],
            U.Store(map[1 := U.RowFor(FIRST, 7), 2 := U.RowFor(SECOND, 7)], map[1 := U.Offline] + fate, pushes, {}),
            NO_TRAIL)
  }

  const BEFORE_SECOND: U.State :=
    AFTER_FIRST.(broker := SecondAt(U.Start, map[], []).broker, workers := SecondAt(U.Start, map[], []).workers)
  const SECOND_QUEUED: U.State :=
    AFTER_FIRST.(broker := SecondAt(U.Start, map[], []).broker.(queue := {2}, holder := map[]))

  lemma SecondArrives()
    ensures U.Enabled(AFTER_FIRST, U.Publish(2, SECOND, true, true))
    ensures U.Step(AFTER_FIRST, U.Publish(2, SECOND, true, true)) == SECOND_QUEUED
    ensures U.Enabled(SECOND_QUEUED, U.Deliver(2)) && U.Step(SECOND_QUEUED, U.Deliver(2)) == BEFORE_SECOND
  {
    assert U.Step(SECOND_QUEUED, U.Deliver(2)).workers == [U.Worker(1, U.Gone), U.Worker(2, U.Start)];
  }

  lemma SecondIsInserted()
    ensures U.Enabled(BEFORE_SECOND, U.InsertUpload(1, true))
    ensures U.Step(BEFORE_SECOND, U.InsertUpload(1, true)) == SecondAt(U.Handling(2, []), map[2 := U.Undecided(1)], [])
  {
    assert U.Step(BEFORE_SECOND, U.InsertUpload(1, true)).workers
        == [U.Worker(1, U.Gone), U.Worker(2, U.Handling(2, []))];
  }

  lemma SecondIsLookedUp()
    ensures var u := SecondAt(U.Handling(2, []), map[2 := U.Undecided(1)], []);
            && U.Handles(u, 1) && U.Enabled(u, U.LookUp(1, true))
            && U.Step(u, U.LookUp(1, true)) == SecondAt(U.Handling(2, []), map[2 := U.Routed(1)], [])
  {
  }

  lemma SecondIsPushed()
    ensures var u1 := SecondAt(U.Handling(2, []), map[2 := U.Routed(1)], []);
            && U.Enabled(u1, U.Push(1, false))
            && U.Step(u1, U.Push(1, false)) == SecondAt(U.Done, map[2 := U.Pushed], [2])
  {
    var u1 := SecondAt(U.Handling(2, []), map[2 := U.Routed(1)], []);
    assert U.Step(u1, U.Push(1, false)).workers == [U.Worker(1, U.Gone), U.Worker(2, U.Done)];
  }

  lemma SecondIsNotPublished() returns (events: seq<Event>, s: State)
    ensures RunFrom(INITIAL, events) == Some(s)
    ensures s == State(SecondAt(U.Done, map[2 := U.Pushed], [2]), LOGGED_IN, map[], {})
  {
    SecondArrives();
    SecondIsInserted();
    SecondIsLookedUp();
    SecondIsPushed();
    events, s := UserIsSynced();
    events, s := UploadThen(events, s, U.Publish(2, SECOND, true, true), SECOND_QUEUED);
    events, s := UploadThen(events, s, U.Deliver(2), BEFORE_SECOND);
    events, s := UploadThen(events, s, U.InsertUpload(1, true),
                            SecondAt(U.Handling(2, []), map[2 := U.Undecided(1)], []));
    events, s := LookUpThen(events, s, 1, true, SecondAt(U.Handling(2, []), map[2 := U.Routed(1)], []));
    events, s := UploadThen(events, s, U.Push(1, false), SecondAt(U.Done, map[2 := U.Pushed], [2]));
  }

  function BothRead(): Table {
    map[1 := U.RowFor(FIRST, 7).(isRead := true, status := SENT_CONFIRMED),
        2 := U.RowFor(SECOND, 7).(isRead := true, status := SENT_CONFIRMED)]
  }

  lemma MarkReadsBoth()
    ensures Update(SecondAt(U.Done, map[], []).store.rows, ReadAll(7)) == BothRead()
    ensures G.Enabled(LOGGED_IN, G.Mark(0, true))
    ensures G.Step(LOGGED_IN, G.Mark(0, true)) == GateWith(G.Conn(7, G.Serving, true, {1}), LOGGED_IN.pipes[0])
  {
    assert 1 in SecondAt(U.Done, map[], []).store.rows && 2 in SecondAt(U.Done, map[], []).store.rows;
  }

  lemma SecondIsNowhere(s: State)
    requires s.gate == GateWith(G.Conn(7, G.Serving, true, {1}), LOGGED_IN.pipes[0])
    requires Rows(s) == BothRead() && s.uploads.store.down == {}
    requires s.uploads.store.fate == map[1 := U.Offline, 2 := U.Pushed]
    ensures LostInSilence(s, 2) && CurrentAndRouted(s, 0)
  {
  }

  lemma SecondIsMarkedRead() returns (events: seq<Event>, s: State)
    ensures RunFrom(INITIAL, events) == Some(s)
    ensures 2 in s.uploads.broker.acked && CurrentAndRouted(s, 0) && s.gate.conns[0].user == SECOND.receiver
    ensures LostInSilence(s, 2)
  {
    MarkReadsBoth();
    events, s := SecondIsNotPublished();
    events, s := MarkThen(events, s, 0, BothRead(), GateWith(G.Conn(7, G.Serving, true, {1}), LOGGED_IN.pipes[0]));
    SecondIsNowhere(s);
  }

  // The login's bulk update marks the second message as read. It was
  // acknowledged to its sender and is stored, its receiver has been online all
  // along, and no continuation whatever shows it to anybody: the unread
  // synchronisation does not make up for a failed publish.
  lemma MessageLostInSilence() returns (events: seq<Event>, s: State)
    ensures RunFrom(INITIAL, events) == Some(s)
    ensures 2 in s.uploads.broker.acked && CurrentAndRouted(s, 0) && s.gate.conns[0].user == SECOND.receiver
    ensures forall more: seq<Event>, s': State :: RunFrom(s, more) == Some(s') ==> LostInSilence(s', 2)
  {
    events, s := SecondIsMarkedRead();
    RunInv(events, s);
    forall more: seq<Event>, s': State | RunFrom(s, more) == Some(s') ensures LostInSilence(s', 2) {
      LossIsForEver(s, more, s', 2);
    }
  }

  // --- Notified, and dropped ---------------------------------------------------

  // User 7 is served, and something has begun to close the client.
  const OPEN: G.State := GateWith(SERVING, G.FRESH_PIPE)
  const CLOSING: G.State := GateWith(SERVING, G.FRESH_PIPE.(out := CLOSING_OUT))
  const DROPPED: G.State :=
    GateWith(SERVING, G.FRESH_PIPE.(out := CLOSING_OUT.(attempts := 1, firstDrop := Some(0)), carried := [Some(1)]))

  lemma ClientCloses()
    ensures var g := GateWith(ROUTED, G.FRESH_PIPE);
            && G.Enabled(g, G.Sync(0, {})) && G.Step(g, G.Sync(0, {})) == OPEN
            && G.Enabled(OPEN, G.Channel(0, Outbox.CloseFlag))
            && G.Step(OPEN, G.Channel(0, Outbox.CloseFlag)) == CLOSING
            && G.Enabled(CLOSING, G.HandTo(0, 1, true)) && G.Step(CLOSING, G.HandTo(0, 1, true)) == DROPPED
  {
    assert G.Sent(CLOSING.pipes[0], Some(1), true).carried == [Some(1)];
    assert G.Sent(CLOSING.pipes[0], Some(1), true) == DROPPED.pipes[0];
  }

  lemma UserIsClosing() returns (events: seq<Event>, s: State)
    ensures RunFrom(INITIAL, events) == Some(s) && s == INITIAL.(gate := CLOSING)
  {
    ClientCloses();
    events, s := UserLogsIn([], INITIAL);
    assert Unread(Rows(s), 7) == {};
    events, s := SyncThen(events, s, 0, OPEN);
    events, s := GateThen(events, s, G.Channel(0, Outbox.CloseFlag), CLOSING);
  }

  function FirstPushed(): U.State {
    var u := FirstAt(U.Done, U.Pushed);
    u.(store := u.store.(pushes := [1], down := {1}))
  }

  lemma FirstGoesDown()
    ensures var u := FirstAt(U.Handling(1, []), U.Undecided(0));
            var u1 := FirstAt(U.Handling(1, []), U.Routed(0));
            && U.Handles(u, 0) && U.Enabled(u, U.LookUp(0, true)) && U.Step(u, U.LookUp(0, true)) == u1
            && U.Enabled(u1, U.Push(0, true)) && U.Step(u1, U.Push(0, true)) == FirstPushed()
  {
    assert U.Step(FirstAt(U.Handling(1, []), U.Routed(0)), U.Push(0, true)).workers == [U.Worker(1, U.Done)];
  }

  lemma FirstIsPublishedDown() returns (events: seq<Event>, s: State)
    ensures RunFrom(INITIAL, events) == Some(s) && s == INITIAL.(gate := CLOSING, uploads := FirstPushed())
  {
    FirstGoesDown();
    events, s := UserIsClosing();
    events, s := FirstIsStored(events, s);
    events, s := LookUpThen(events, s, 0, true, FirstAt(U.Handling(1, []), U.Routed(0)));
    events, s := UploadThen(events, s, U.Push(0, true), FirstPushed());
  }

  lemma FirstIsDropped() returns (events: seq<Event>, s: State)
    ensures RunFrom(INITIAL, events) == Some(s) && s.gate == DROPPED && 1 in s.handed
    ensures s.uploads == U.Step(FirstPushed(), U.Consume(1))
  {
    ClientCloses();
    events, s := FirstIsPublishedDown();
    events, s := Then(INITIAL, events, s, HandOver(1, true, false));
  }

  lemma NoteFirst()
    ensures var u := U.Step(U.Step(FirstPushed(), U.Consume(1)), U.Receive(Delivered(1)));
            && 1 in u.store.rows && u.store.rows[1].status == SENT_UNCONFIRMED
            && u.store.down == {} && u.store.fate == map[1 := U.Pushed]
  {
  }

  lemma DroppedIsNotOnItsWay(s: State)
    requires s.gate == DROPPED && s.uploads.store.down == {} && s.uploads.store.fate == map[1 := U.Pushed]
    ensures !Shown(s, 1) && !OnItsWay(s, 1)
  {
  }

  // A run that ends with a message noted as delivered to its receiver, although
  // no connection was ever sent it nor has it in its channel.
  lemma DeliveredButDropped() returns (events: seq<Event>, s: State)
    ensures RunFrom(INITIAL, events) == Some(s) && 1 in Rows(s) && Rows(s)[1].status == SENT_UNCONFIRMED
    ensures !Shown(s, 1) && !OnItsWay(s, 1)
  {
    NoteFirst();
    events, s := FirstIsDropped();
    events, s := Then(INITIAL, events, s, NotifyDelivered(1));
    DroppedIsNotOnItsWay(s);
  }
}
