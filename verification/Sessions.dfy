// Who is connected to the gateway: the table of sessions, the routes in the
// shared cache, and the login and logout of connections.
module Sessions {
  import opened Wrappers
  import opened Messages
  import Outbox

  // Only the instance that is registered takes its entry and its route away.
  function Removed<C(==)>(sessions: map<User, C>, routes: set<User>, user: User, c: C, routeDeleted: bool)
    : (map<User, C>, set<User>)
  {
    if user in sessions && sessions[user] == c then
      (sessions - {user}, if routeDeleted then routes - {user} else routes)
    else (sessions, routes)
  }

  // --- The session table -------------------------------------------------------

  const KICK: string := "{\"action\": \"kick\", \"reason\": \"logged_in_elsewhere\"}"

  class CliMap {
    var clients: map<User, Outbox.Client>
    var routes: set<User>

    constructor ()
      ensures clients == map[] && routes == {}
    {
      clients, routes := map[], {};
    }

    // The older client is told, as far as its channel has room, and closed.
    method Register(user: User, client: Outbox.Client, takeClosed: bool)
      requires user in clients ==> clients[user].Valid()
      modifies this`clients, if user in clients then {clients[user]} else {}
      ensures clients == old(clients)[user := client]
      ensures user in old(clients) ==>
                var former := old(clients)[user];
                && former.Valid() && former.closed
                && former.connOpen == (old(former.closed) && old(former.connOpen))
                && former.sendChan == if |old(former.sendChan)| < Outbox.CAPACITY && !(old(former.closed) && takeClosed)
                                      then old(former.sendChan) + [KICK] else old(former.sendChan)
    {
      if user in clients {
        var former := clients[user];
        former.SendMessage(KICK, takeClosed);
        former.Close();
      }
      clients := clients[user := client];
    }

    method Get(user: User) returns (client: Option<Outbox.Client>)
      ensures client == if user in clients then Some(clients[user]) else None
    {
      client := if user in clients then Some(clients[user]) else None;
    }

    method Remove(user: User, client: Outbox.Client, routeDeleted: bool)
      modifies this
      ensures var mine := user in old(clients) && old(clients)[user] == client;
              && clients == (if mine then old(clients) - {user} else old(clients))
              && routes == (if mine && routeDeleted then old(routes) - {user} else old(routes))
      ensures (clients, routes) == Removed(old(clients), old(routes), user, client, routeDeleted)
    {
      if user in clients && clients[user] == client {
        clients := clients - {user};
        if routeDeleted {
          routes := routes - {user};
        }
      }
    }
  }

  // --- Logins and logouts ------------------------------------------------------

  type ConnId = nat

  // Stuck: the synchronisation failed, so no reader was ever started.
  datatype Phase = Accepted | Registered | RouteDone | Synced | Serving | Stuck | Closed

  // `routed`: the route was written; `snapshot`: the unread messages it was sent.
  datatype Conn = Conn(user: User, phase: Phase, routed: bool, snapshot: set<MsgId>)

  // A connection's outgoing side, and the part of a login that feeds it: the
  // unread messages still to be offered, those that the channel refused, and
  // whether the login has caused an overflow, so that it must close the client
  // before it goes on. `carried` says which stored message, if any, each send
  // was for; it and `refused` are history.
  datatype Pipe = Pipe(todo: set<MsgId>, refused: set<MsgId>, blocked: bool, out: Outbox.State,
                         carried: seq<Option<MsgId>>)

  const FRESH_PIPE: Pipe := Pipe({}, {}, false, Outbox.INITIAL, [])

  // There is one gateway, so a route either names it or is absent.
  datatype State = State(conns: seq<Conn>, pipes: seq<Pipe>, sessions: map<User, ConnId>, routes: set<User>)

  const INITIAL: State := State([], [], map[], {})

  // Channel: the writer's steps and the two halves of a close, which may come
  // from anybody. Chatter: a send of anything but a stored message.
  datatype Event =
    | Accept(user: User)
    | Register(c: ConnId)
    | SetRoute(c: ConnId, ok: bool)
    | Sync(c: ConnId, unread: set<MsgId>)
    | SyncError(c: ConnId)
    | Offer(c: ConnId, id: MsgId, takeClosed: bool)
    | Mark(c: ConnId, ok: bool)
    | Teardown(c: ConnId, routeDeleted: bool)
    | HandTo(c: ConnId, id: MsgId, takeClosed: bool)
    | Chatter(c: ConnId, takeClosed: bool)
    | Channel(c: ConnId, oe: Outbox.Event)

  predicate IsClosed(p: Pipe) {
    p.out.closed && !p.out.connOpen
  }

  // The login's next step is not held up by an unfinished close.
  predicate MayGoOn(p: Pipe) {
    p.blocked ==> IsClosed(p)
  }

  // Register closes the user's former client before it replaces it.
  predicate FormerIsClosed(s: State, user: User) {
    user in s.sessions ==> s.sessions[user] < |s.pipes| && IsClosed(s.pipes[s.sessions[user]])
  }

  predicate Enabled(s: State, e: Event) {
    match e
    case Accept(_) => true
    case Register(c) => c < |s.conns| && s.conns[c].phase.Accepted? && FormerIsClosed(s, s.conns[c].user)
    case SetRoute(c, _) => c < |s.conns| && s.conns[c].phase.Registered?
    case Sync(c, _) => c < |s.conns| && c < |s.pipes| && s.conns[c].phase.RouteDone?
    case SyncError(c) => c < |s.conns| && s.conns[c].phase.RouteDone?
    case Offer(c, id, _) => c < |s.pipes| && id in s.pipes[c].todo && MayGoOn(s.pipes[c])
    case Mark(c, _) =>
      c < |s.conns| && c < |s.pipes| && s.conns[c].phase.Synced? && s.pipes[c].todo == {} && MayGoOn(s.pipes[c])
    case Teardown(c, _) => c < |s.conns| && s.conns[c].phase.Serving?
    case HandTo(c, _, _) => c < |s.pipes|
    case Chatter(c, _) => c < |s.pipes|
    case Channel(c, oe) => c < |s.pipes| && !oe.Send? && Outbox.Enabled(s.pipes[c].out, oe)
  }

  function WithConn(s: State, c: ConnId, conn: Conn): State
    requires c < |s.conns|
  {
    s.(conns := s.conns[c := conn])
  }

  function WithPipe(s: State, c: ConnId, p: Pipe): State
    requires c < |s.pipes|
  {
    s.(pipes := s.pipes[c := p])
  }

  function Sent(p: Pipe, what: Option<MsgId>, takeClosed: bool): Pipe {
    p.(out := Outbox.Step(p.out, Outbox.Send(takeClosed)), carried := p.carried + [what])
  }

  // A refusal by an open channel is an overflow.
  function Offered(p: Pipe, id: MsgId, takeClosed: bool): Pipe {
    var p1 := Sent(p, Some(id), takeClosed).(todo := p.todo - {id});
    if Outbox.Accepts(p.out, takeClosed) then p1
    else p1.(refused := p.refused + {id}, blocked := p.blocked || !p.out.closed)
  }

  function PipeStep(p: Pipe, oe: Outbox.Event): Pipe
    requires Outbox.Enabled(p.out, oe)
  {
    p.(out := Outbox.Step(p.out, oe))
  }

  function Step(s: State, e: Event): State
    requires Enabled(s, e)
  {
    match e
    case Accept(u) => s.(conns := s.conns + [Conn(u, Accepted, false, {})], pipes := s.pipes + [FRESH_PIPE])
    case Register(c) =>
      WithConn(s, c, s.conns[c].(phase := Registered)).(sessions := s.sessions[s.conns[c].user := c])
    case SetRoute(c, ok) =>
      WithConn(s, c, s.conns[c].(phase := RouteDone, routed := ok)).(
        routes := if ok then s.routes + {s.conns[c].user} else s.routes)
    case Sync(c, unread) =>
      // The bulk update is asked for only when there was something to send.
      WithPipe(WithConn(s, c, s.conns[c].(phase := if unread == {} then Serving else Synced, snapshot := unread)),
               c, s.pipes[c].(todo := unread))
    case SyncError(c) => WithConn(s, c, s.conns[c].(phase := Stuck))
    case Offer(c, id, takeClosed) => WithPipe(s, c, Offered(s.pipes[c], id, takeClosed))
    case Mark(c, ok) => WithConn(s, c, s.conns[c].(phase := if ok then Serving else Stuck))
    case Teardown(c, routeDeleted) =>
      var (sessions, routes) := Removed(s.sessions, s.routes, s.conns[c].user, c, routeDeleted);
      State(s.conns[c := s.conns[c].(phase := Closed)], s.pipes, sessions, routes)
    case HandTo(c, id, takeClosed) => WithPipe(s, c, Sent(s.pipes[c], Some(id), takeClosed))
    case Chatter(c, takeClosed) => WithPipe(s, c, Sent(s.pipes[c], None, takeClosed))
    case Channel(c, oe) => WithPipe(s, c, PipeStep(s.pipes[c], oe))
  }

  // Everything but these leaves the pipes alone.
  predicate PipeEvent(e: Event) {
    e.Accept? || e.Sync? || e.Offer? || e.HandTo? || e.Chatter? || e.Channel?
  }

  ghost predicate Current(s: State, c: ConnId) {
    c < |s.conns| && s.conns[c].user in s.sessions && s.sessions[s.conns[c].user] == c
  }

  ghost predicate ConnInv(s: State, c: ConnId)
    requires c < |s.conns|
  {
    var conn := s.conns[c];
    && (conn.phase.Accepted? || conn.phase.Registered? ==> !conn.routed)
    && (conn.phase.Accepted? || conn.phase.Closed? ==> !Current(s, c))
    && (Current(s, c) && conn.routed ==> conn.user in s.routes)
  }

  // Send number k of the pipe was for message id.
  predicate Carries(p: Pipe, k: nat, id: MsgId) {
    k < |p.carried| && p.carried[k] == Some(id)
  }

  ghost predicate InPipeline(p: Pipe, id: MsgId) {
    exists k: nat :: k in Outbox.Pipeline(p.out) && Carries(p, k, id)
  }

  // While the writer lives, an unread message that has been offered and not
  // refused is written or on its way.
  ghost predicate SyncInv(p: Pipe, id: MsgId) {
    id in p.todo || id in p.refused || (p.out.writerAlive ==> InPipeline(p, id))
  }

  ghost predicate PipeInv(p: Pipe) {
    && |p.carried| == p.out.attempts && Outbox.Inv(p.out)
    && (p.refused != {} ==> p.out.firstDrop.Some?)
  }

  ghost predicate SnapshotInv(s: State, c: ConnId)
    requires c < |s.conns| && c < |s.pipes|
  {
    && (s.pipes[c].todo != {} ==> s.conns[c].phase.Synced?)
    && (forall id <- s.conns[c].snapshot :: SyncInv(s.pipes[c], id))
  }

  ghost predicate Inv(s: State) {
    && (forall u <- s.sessions :: s.sessions[u] < |s.conns| && s.conns[s.sessions[u]].user == u)
    && (forall c: ConnId :: c < |s.conns| ==> ConnInv(s, c))
    && |s.pipes| == |s.conns|
    && (forall c: ConnId :: c < |s.pipes| ==> PipeInv(s.pipes[c]))
    && (forall c: ConnId :: c < |s.pipes| ==> SnapshotInv(s, c))
  }

  lemma InvInitially()
    ensures Inv(INITIAL)
  {
  }

  lemma ConnPreserved(s: State, e: Event, c: ConnId)
    requires Inv(s) && Enabled(s, e) && c < |Step(s, e).conns|
    ensures ConnInv(Step(s, e), c)
  {
    if c < |s.conns| {
      assert ConnInv(s, c);
    }
  }

  lemma SentKeeps(p: Pipe, what: Option<MsgId>, takeClosed: bool)
    requires PipeInv(p)
    ensures PipeInv(Sent(p, what, takeClosed))
  {
    Outbox.InvPreserved(p.out, Outbox.Send(takeClosed));
  }

  lemma OfferedKeeps(p: Pipe, id: MsgId, takeClosed: bool)
    requires PipeInv(p)
    ensures PipeInv(Offered(p, id, takeClosed))
  {
    SentKeeps(p, Some(id), takeClosed);
  }

  lemma PipeStepKeeps(p: Pipe, oe: Outbox.Event)
    requires PipeInv(p) && Outbox.Enabled(p.out, oe) && !oe.Send?
    ensures PipeInv(PipeStep(p, oe))
  {
    Outbox.InvPreserved(p.out, oe);
  }

  lemma PipePreserved(s: State, e: Event, c: ConnId)
    requires Inv(s) && Enabled(s, e) && c < |Step(s, e).pipes|
    ensures PipeInv(Step(s, e).pipes[c])
  {
    if c < |s.pipes| {
      assert PipeInv(s.pipes[c]);
      match e
      case Offer(d, id, takeClosed) => OfferedKeeps(s.pipes[d], id, takeClosed);
      case HandTo(d, id, takeClosed) => SentKeeps(s.pipes[d], Some(id), takeClosed);
      case Chatter(d, takeClosed) => SentKeeps(s.pipes[d], None, takeClosed);
      case Channel(d, oe) => PipeStepKeeps(s.pipes[d], oe);
      case _ =>
    }
  }

  // What is in the pipeline stays there.
  lemma SentKeepsPipeline(p: Pipe, what: Option<MsgId>, takeClosed: bool, id: MsgId)
    requires InPipeline(p, id)
    ensures InPipeline(Sent(p, what, takeClosed), id)
  {
    var k: nat :| k in Outbox.Pipeline(p.out) && Carries(p, k, id);
    Outbox.SendExtendsPipeline(p.out, takeClosed);
    assert Carries(Sent(p, what, takeClosed), k, id);
  }

  lemma OfferReachesPipeline(p: Pipe, id: MsgId, takeClosed: bool)
    requires PipeInv(p) && Outbox.Accepts(p.out, takeClosed)
    ensures InPipeline(Offered(p, id, takeClosed), id)
  {
    var p' := Offered(p, id, takeClosed);
    Outbox.SendExtendsPipeline(p.out, takeClosed);
    var k := p.out.attempts;
    assert Outbox.Pipeline(p'.out)[|Outbox.Pipeline(p.out)|] == k && Carries(p', k, id);
  }

  lemma PipeStepKeepsPipeline(p: Pipe, oe: Outbox.Event, id: MsgId)
    requires Outbox.Enabled(p.out, oe) && !oe.Send? && InPipeline(p, id)
    requires PipeStep(p, oe).out.writerAlive
    ensures InPipeline(PipeStep(p, oe), id)
  {
    var k: nat :| k in Outbox.Pipeline(p.out) && Carries(p, k, id);
    if oe.Pop? {
      Outbox.PopKeepsPipeline(p.out);
    } else if oe.WriteOk? {
      Outbox.WriteKeepsPipeline(p.out);
    }
    assert Carries(PipeStep(p, oe), k, id);
  }

  lemma SyncKept(p: Pipe, e: Event, id: MsgId)
    requires PipeInv(p) && SyncInv(p, id)
    ensures e.Offer? ==> SyncInv(Offered(p, e.id, e.takeClosed), id)
    ensures e.HandTo? ==> SyncInv(Sent(p, Some(e.id), e.takeClosed), id)
    ensures e.Chatter? ==> SyncInv(Sent(p, None, e.takeClosed), id)
    ensures e.Channel? && !e.oe.Send? && Outbox.Enabled(p.out, e.oe) ==> SyncInv(PipeStep(p, e.oe), id)
  {
    if e.Offer? && id == e.id && Outbox.Accepts(p.out, e.takeClosed) {
      OfferReachesPipeline(p, id, e.takeClosed);
    } else if InPipeline(p, id) {
      match e
      case Offer(_, d, takeClosed) => SentKeepsPipeline(p, Some(d), takeClosed, id);
      case HandTo(_, d, takeClosed) => SentKeepsPipeline(p, Some(d), takeClosed, id);
      case Chatter(_, takeClosed) => SentKeepsPipeline(p, None, takeClosed, id);
      case Channel(_, oe) =>
        if !oe.Send? && Outbox.Enabled(p.out, oe) && PipeStep(p, oe).out.writerAlive {
          PipeStepKeepsPipeline(p, oe, id);
        }
      case _ =>
    }
  }

  lemma SnapshotPreserved(s: State, e: Event, c: ConnId)
    requires Inv(s) && Enabled(s, e) && c < |Step(s, e).pipes| && c < |Step(s, e).conns|
    ensures SnapshotInv(Step(s, e), c)
  {
    var s' := Step(s, e);
    if c < |s.pipes| {
      assert SnapshotInv(s, c) && PipeInv(s.pipes[c]);
      if e.Offer? || e.HandTo? || e.Chatter? || e.Channel? {
        forall id <- s.conns[c].snapshot ensures SyncInv(s'.pipes[c], id) {
          SyncKept(s.pipes[c], e, id);
        }
      }
    }
  }

  lemma InvPreserved(s: State, e: Event)
    requires Inv(s) && Enabled(s, e)
    ensures Inv(Step(s, e))
  {
    var s' := Step(s, e);
    forall c: ConnId | c < |s'.conns| ensures ConnInv(s', c) {
      ConnPreserved(s, e, c);
    }
    forall c: ConnId | c < |s'.pipes| ensures PipeInv(s'.pipes[c]) && SnapshotInv(s', c) {
      PipePreserved(s, e, c);
      SnapshotPreserved(s, e, c);
    }
  }

  // A connection that is not the current one of its user never becomes it again.
  lemma CurrencyIsNotRegained(s: State, e: Event, c: ConnId)
    requires Enabled(s, e) && c < |s.conns| && !s.conns[c].phase.Accepted? && !Current(s, c)
    ensures !Current(Step(s, e), c)
  {
  }

  // The teardown of a connection that has been replaced leaves its successor's
  // entry and route as they are; one that is still current removes both, and
  // nothing of any other user.
  lemma TeardownTouchesOnlyItsOwnSession(s: State, c: ConnId, routeDeleted: bool)
    requires Enabled(s, Teardown(c, routeDeleted))
    ensures var s' := Step(s, Teardown(c, routeDeleted));
            && (!Current(s, c) ==> s'.sessions == s.sessions && s'.routes == s.routes)
            && (Current(s, c) ==> s'.sessions == s.sessions - {s.conns[c].user})
            && (Current(s, c) && routeDeleted ==> s'.routes == s.routes - {s.conns[c].user})
            && (!routeDeleted ==> s'.routes == s.routes)
            && (forall u :: u != s.conns[c].user ==> (u in s'.routes <==> u in s.routes))
            && !Current(s', c)
  {
  }

  function RunFrom(s: State, events: seq<Event>): Option<State> {
    if events == [] then Some(s)
    else
      var before := RunFrom(s, events[..|events| - 1]);
      var e := events[|events| - 1];
      if before.Some? && Enabled(before.value, e) then Some(Step(before.value, e)) else None
  }

  function Run(events: seq<Event>): Option<State> {
    RunFrom(INITIAL, events)
  }

  lemma {:induction false} RunInv(events: seq<Event>, s: State)
    requires Run(events) == Some(s)
    ensures Inv(s)
  {
    if events != [] {
      RunInv(events[..|events| - 1], Run(events[..|events| - 1]).value);
      InvPreserved(Run(events[..|events| - 1]).value, events[|events| - 1]);
    }
  }

  // In every interleaving of logins, kicks and logouts: the session table knows
  // connections under their own user, and the route of a current session that
  // has written it names this gateway.
  lemma CurrentSessionIsRouted(events: seq<Event>, s: State, user: User)
    requires Run(events) == Some(s) && user in s.sessions
    ensures s.sessions[user] < |s.conns| && s.conns[s.sessions[user]].user == user
    ensures !s.conns[s.sessions[user]].phase.Closed?
    ensures s.conns[s.sessions[user]].routed ==> user in s.routes
  {
    RunInv(events, s);
    assert ConnInv(s, s.sessions[user]);
  }

  lemma {:induction false} StaysReplaced(s: State, more: seq<Event>, s': State, c: ConnId)
    requires RunFrom(s, more) == Some(s') && c < |s.conns| && !s.conns[c].phase.Accepted? && !Current(s, c)
    ensures c < |s'.conns| && !s'.conns[c].phase.Accepted? && !Current(s', c)
  {
    if more != [] {
      var before := RunFrom(s, more[..|more| - 1]).value;
      StaysReplaced(s, more[..|more| - 1], before, c);
      CurrencyIsNotRegained(before, more[|more| - 1], c);
    }
  }

  // However late a replaced connection is torn down, and whoever has logged in
  // and out since: its teardown takes nobody's entry and nobody's route away.
  lemma {:induction false} LateTeardownIsHarmless(s: State, more: seq<Event>, s': State, c: ConnId, routeDeleted: bool)
    requires c < |s.conns| && !s.conns[c].phase.Accepted? && !Current(s, c)
    requires RunFrom(s, more) == Some(s') && Enabled(s', Teardown(c, routeDeleted))
    ensures var s'' := Step(s', Teardown(c, routeDeleted));
            s''.sessions == s'.sessions && s''.routes == s'.routes
  {
    StaysReplaced(s, more, s', c);
    TeardownTouchesOnlyItsOwnSession(s', c, routeDeleted);
  }

  // --- How far a login has come ------------------------------------------------

  predicate TornDown(events: seq<Event>, c: ConnId) {
    Teardown(c, true) in events || Teardown(c, false) in events
  }

  predicate Synchronised(events: seq<Event>, c: ConnId) {
    Mark(c, true) in events || Sync(c, {}) in events
  }

  predicate Failed(events: seq<Event>, c: ConnId) {
    Mark(c, false) in events || SyncError(c) in events
  }

  // What the events say of a connection, and what its record says.
  ghost predicate IsTold(events: seq<Event>, conns: seq<Conn>, c: ConnId) {
    if c < |conns| then
      && (conns[c].phase.Serving? <==> Synchronised(events, c) && !TornDown(events, c))
      && (conns[c].phase.Stuck? <==> Failed(events, c))
      && (conns[c].phase.Closed? <==> TornDown(events, c))
      && (conns[c].routed <==> SetRoute(c, true) in events)
      && (conns[c].phase.Accepted? || conns[c].phase.Registered? ==> !conns[c].routed)
    else
      && !Synchronised(events, c) && !TornDown(events, c) && !Failed(events, c) && SetRoute(c, true) !in events
  }

  lemma ToldNext(events: seq<Event>, s: State, e: Event, c: ConnId)
    requires Enabled(s, e) && IsTold(events, s.conns, c)
    ensures IsTold(events + [e], Step(s, e).conns, c)
  {
    assert forall x :: x in events + [e] <==> x in events || x == e;
  }

  // A connection is served if and only if its synchronisation has succeeded and it
  // has not been torn down; without a successful synchronisation it is stuck. Its
  // route was written if and only if the write succeeded.
  lemma {:induction false} LoginIsTold(events: seq<Event>, s: State, c: ConnId)
    requires Run(events) == Some(s)
    ensures IsTold(events, s.conns, c)
  {
    if events != [] {
      var front := events[..|events| - 1];
      LoginIsTold(front, Run(front).value, c);
      ToldNext(front, Run(front).value, events[|events| - 1], c);
      assert events == front + [events[|events| - 1]];
    }
  }

  // A user has a route only if some login of that user has written it.
  lemma {:induction false} RouteWasWritten(events: seq<Event>, s: State, user: User) returns (c: ConnId)
    requires Run(events) == Some(s) && user in s.routes
    ensures c < |s.conns| && s.conns[c].user == user && s.conns[c].routed
  {
    var before, e := Run(events[..|events| - 1]).value, events[|events| - 1];
    if user in before.routes {
      c := RouteWasWritten(events[..|events| - 1], before, user);
      RunInv(events[..|events| - 1], before);
      assert ConnInv(before, c);
    } else {
      c := e.c;
    }
  }

  lemma {:induction false} BlockedStays(s: State, more: seq<Event>, s': State, c: ConnId)
    requires RunFrom(s, more) == Some(s') && c < |s.pipes| && s.pipes[c].blocked
    ensures c < |s'.pipes| && s'.pipes[c].blocked
  {
    if more != [] {
      BlockedStays(s, more[..|more| - 1], RunFrom(s, more[..|more| - 1]).value, c);
    }
  }

  // A login that has made its client's channel overflow closes the client before
  // it goes on.
  lemma {:induction false} OverflowHoldsUpTheLogin(
      s: State, c: ConnId, id: MsgId, takeClosed: bool, more: seq<Event>, s': State, e: Event)
    requires Enabled(s, Offer(c, id, takeClosed)) && RunFrom(Step(s, Offer(c, id, takeClosed)), more) == Some(s')
    requires !s.pipes[c].out.closed && |s.pipes[c].out.queue| >= Outbox.CAPACITY
    requires Enabled(s', e) && ((e.Mark? && e.c == c) || (e.Offer? && e.c == c))
    ensures c < |s'.pipes| && s'.pipes[c].out.closed && !s'.pipes[c].out.connOpen
  {
    BlockedStays(Step(s, Offer(c, id, takeClosed)), more, s', c);
  }

  // --- One open connection a user ----------------------------------------------

  ghost predicate ReplacedInv(s: State, c: ConnId)
    requires c < |s.conns|
  {
    s.conns[c].phase.Accepted? || s.conns[c].phase.Closed? || Current(s, c)
    || (c < |s.pipes| && IsClosed(s.pipes[c]))
  }

  lemma ReplacedStep(s: State, e: Event, c: ConnId)
    requires Inv(s) && Enabled(s, e) && c < |s.conns| && ReplacedInv(s, c)
    ensures ReplacedInv(Step(s, e), c)
  {
    if e.Register? {
      assert ConnInv(s, e.c);
    }
  }

  lemma {:induction false} ReplacedIsClosed(events: seq<Event>, s: State, c: ConnId)
    requires Run(events) == Some(s) && c < |s.conns|
    ensures ReplacedInv(s, c)
  {
    if events != [] {
      var front := events[..|events| - 1];
      RunInv(front, Run(front).value);
      if c < |Run(front).value.conns| {
        ReplacedIsClosed(front, Run(front).value, c);
        ReplacedStep(Run(front).value, events[|events| - 1], c);
      }
    }
  }

  // Of two connections of one user that have both been registered, and not been
  // torn down, one is closed.
  lemma OneOpenConnectionAUser(events: seq<Event>, s: State, c: ConnId, d: ConnId)
    requires Run(events) == Some(s) && c < d < |s.conns| && s.conns[c].user == s.conns[d].user
    requires forall x: ConnId :: x == c || x == d ==> !s.conns[x].phase.Accepted? && !s.conns[x].phase.Closed?
    ensures d < |s.pipes| && (IsClosed(s.pipes[c]) || IsClosed(s.pipes[d]))
  {
    RunInv(events, s);
    ReplacedIsClosed(events, s, c);
    ReplacedIsClosed(events, s, d);
  }

  // --- What may happen to a login ----------------------------------------------

  lemma Then(events: seq<Event>, s: State, e: Event) returns (events': seq<Event>, s': State)
    requires Run(events) == Some(s) && Enabled(s, e)
    ensures Run(events') == Some(s') && s' == Step(s, e)
  {
    events', s' := events + [e], Step(s, e);
    assert events'[..|events'| - 1] == events;
  }

  lemma CanBeClosed(events: seq<Event>, s: State, c: ConnId) returns (events': seq<Event>, s': State)
    requires Run(events) == Some(s) && c < |s.pipes|
    ensures Run(events') == Some(s') && c < |s'.pipes| && IsClosed(s'.pipes[c])
    ensures s'.conns == s.conns && s'.sessions == s.sessions && |s'.pipes| == |s.pipes|
  {
    events', s' := events, s;
    if !s.pipes[c].out.closed {
      events', s' := Then(events', s', Channel(c, Outbox.CloseFlag));
    }
    if s'.pipes[c].out.connOpen {
      events', s' := Then(events', s', Channel(c, Outbox.CloseConn));
    }
  }

  // From every reachable state a connection that waits to be registered can be.
  lemma CanBeRegistered(events: seq<Event>, s: State, c: ConnId) returns (events': seq<Event>, s': State)
    requires Run(events) == Some(s) && c < |s.conns| && s.conns[c].phase.Accepted?
    ensures Run(events') == Some(s') && c < |s'.conns| && s'.conns[c].phase.Registered? && Current(s', c)
  {
    RunInv(events, s);
    var user := s.conns[c].user;
    events', s' := events, s;
    if user in s.sessions {
      events', s' := CanBeClosed(events, s, s.sessions[user]);
    }
    events', s' := Then(events', s', Register(c));
  }

  // From every reachable state a login that has not yet read its user's messages
  // can come to its regular end, or get stuck.
  lemma LoginCanEndEitherWay(events: seq<Event>, s: State, c: ConnId, stuck: bool)
    returns (events': seq<Event>, s': State)
    requires Run(events) == Some(s) && c < |s.conns|
    requires s.conns[c].phase.Accepted? || s.conns[c].phase.Registered? || s.conns[c].phase.RouteDone?
    ensures Run(events') == Some(s') && c < |s'.conns|
    ensures s'.conns[c].phase == if stuck then Stuck else Closed
  {
    events', s' := events, s;
    if s'.conns[c].phase.Accepted? {
      events', s' := CanBeRegistered(events', s', c);
    }
    if s'.conns[c].phase.Registered? {
      events', s' := Then(events', s', SetRoute(c, true));
    }
    RunInv(events', s');
    if stuck {
      events', s' := Then(events', s', SyncError(c));
    } else {
      events', s' := Then(events', s', Sync(c, {}));
      events', s' := Then(events', s', Teardown(c, true));
    }
  }

  // --- The unread messages of a login ------------------------------------------

  // An offer is refused if and only if the channel is full, or the client is
  // closed and the sender notices that first.
  lemma OfferIsRefusedIff(s: State, c: ConnId, id: MsgId, takeClosed: bool)
    requires Inv(s) && Enabled(s, Offer(c, id, takeClosed)) && id !in s.pipes[c].refused
    ensures id in Step(s, Offer(c, id, takeClosed)).pipes[c].refused
            <==> |s.pipes[c].out.queue| == Outbox.CAPACITY || (s.pipes[c].out.closed && takeClosed)
  {
    assert PipeInv(s.pipes[c]);
  }

  // In every interleaving of the login with its writer, other senders and
  // closers: when the login has offered all its unread messages, each of them
  // is written or on its way while the writer lives, unless it was refused.
  lemma UnreadIsUnderWayUnlessRefused(events: seq<Event>, s: State, c: ConnId, id: MsgId)
    requires Run(events) == Some(s) && c < |s.conns| && id in s.conns[c].snapshot
    ensures c < |s.pipes| && (id in s.pipes[c].todo || id in s.pipes[c].refused
                              || (s.pipes[c].out.writerAlive ==> InPipeline(s.pipes[c], id)))
    ensures s.pipes[c].todo != {} ==> s.conns[c].phase.Synced?
  {
    RunInv(events, s);
    assert SnapshotInv(s, c) && SyncInv(s.pipes[c], id);
  }

  // So the synchronisation is complete as long as the client is open and no more
  // has been sent to it than its channel holds, whoever sent it.
  lemma SyncIsCompleteWithinRoom(events: seq<Event>, s: State, c: ConnId, id: MsgId)
    requires Run(events) == Some(s) && c < |s.conns| && id in s.conns[c].snapshot
    requires c < |s.pipes| && !s.pipes[c].out.closed && s.pipes[c].out.attempts <= Outbox.CAPACITY
    ensures s.pipes[c].refused == {}
    ensures id in s.pipes[c].todo || (s.pipes[c].out.writerAlive ==> InPipeline(s.pipes[c], id))
  {
    RunInv(events, s);
    assert PipeInv(s.pipes[c]) && SnapshotInv(s, c) && SyncInv(s.pipes[c], id);
  }

  lemma {:induction false} ChatterFills(events: seq<Event>, s: State, c: ConnId, n: nat)
    returns (events': seq<Event>, s': State)
    requires Run(events) == Some(s) && c < |s.pipes| && !s.pipes[c].out.closed
    requires |s.pipes[c].out.queue| + n <= Outbox.CAPACITY
    ensures Run(events') == Some(s') && s'.conns == s.conns && c < |s'.pipes|
    ensures s'.pipes[c].todo == s.pipes[c].todo && s'.pipes[c].blocked == s.pipes[c].blocked
    ensures !s'.pipes[c].out.closed && |s'.pipes[c].out.queue| == |s.pipes[c].out.queue| + n
    ensures s'.pipes[c].refused == s.pipes[c].refused && |s'.pipes| == |s.pipes|
    decreases n
  {
    if n == 0 {
      events', s' := events, s;
    } else {
      events', s' := Then(events, s, Chatter(c, false));
      events', s' := ChatterFills(events', s', c, n - 1);
    }
  }

  lemma OneUnreadMessage(user: User, id: MsgId) returns (events: seq<Event>, s: State)
    ensures Run(events) == Some(s)
    ensures s.conns == [Conn(user, Synced, true, {id})] && s.pipes == [FRESH_PIPE.(todo := {id})]
  {
    events, s := Then([], INITIAL, Accept(user));
    events, s := Then(events, s, Register(0));
    events, s := Then(events, s, SetRoute(0, true));
    events, s := Then(events, s, Sync(0, {id}));
  }

  // One message more is too many, even if the login's is the only unread one: a
  // run on which other senders fill the channel first.
  lemma UnreadCanBeCrowdedOut(user: User, id: MsgId) returns (events: seq<Event>, s: State)
    ensures Run(events) == Some(s) && |s.conns| == |s.pipes| == 1
    ensures s.conns[0].snapshot == {id} && s.pipes[0].refused == {id} && !s.pipes[0].out.closed
  {
    events, s := OneUnreadMessage(user, id);
    events, s := ChatterFills(events, s, 0, Outbox.CAPACITY);
    events, s := Then(events, s, Offer(0, id, false));
  }
}
