// The handlers of UploadConsumer, seen as runs of one worker of Uploads: what a
// handler leaves behind, the worker's events leave behind too.
module UploadRuns {
  import opened Wrappers
  import opened Messages
  import opened Uploads
  import opened UploadConsumer

  // The numbers of the rows that were published down, in order.
  function Pushes(effects: seq<Effect>): seq<MsgId> {
    if effects == [] then []
    else
      var last := effects[|effects| - 1];
      Pushes(effects[..|effects| - 1]) + if last.Published? then [last.down.id] else []
  }

  lemma {:induction false} PushesConcat(a: seq<Effect>, b: seq<Effect>)
    ensures Pushes(a + b) == Pushes(a) + Pushes(b)
  {
    if b == [] {
      assert a + b == a;
    } else {
      assert (a + b)[..|a + b| - 1] == a + b[..|b| - 1];
      PushesConcat(a, b[..|b| - 1]);
    }
  }

  lemma PushesOfOne(stored: Effect, u: Upload, receiver: User, id: MsgId, e: Env)
    requires stored.Stored?
    ensures Pushes([stored] + Notify(u, receiver, id, e)) == if e.found.RouteTo? then [id] else []
  {
    assert Pushes([stored]) == [] by { assert [stored][..0] == []; }
    PushesConcat([stored], Notify(u, receiver, id, e));
    if e.found.RouteTo? {
      assert Notify(u, receiver, id, e)[..0] == [];
    }
  }

  // Worker w has stored the row and goes on to look up its receiver's route.
  predicate AtRow(s: State, w: WorkerId, row: MsgId, rest: seq<User>, u: Upload) {
    && Handles(s, w) && UploadOf(s, w) == u
    && s.workers[w].at == Handling(row, rest) && s.store.fate[row] == Undecided(w)
  }

  // What the look-up and the publish that may follow leave behind.
  predicate Notified(s: State, s': State, w: WorkerId, at: Point, pushes: seq<MsgId>) {
    && w < |s.workers| && s'.workers == s.workers[w := s.workers[w].(at := at)]
    && s'.broker == s.broker && s'.store.rows == s.store.rows
    && s'.store.pushes == s.store.pushes + pushes
  }

  function PointAfter(u: Upload, rest: seq<User>, found: LookUpResult): Point {
    if u.kind.Group? then Members(rest) else if found.CacheError? then Failed else Done
  }

  lemma NotifyIsARun(s0: State, before: seq<Event>, s: State, w: WorkerId, row: MsgId,
                       rest: seq<User>, u: Upload, e: Env)
    returns (events: seq<Event>, s': State)
    requires RunFrom(s0, before) == Some(s) && AtRow(s, w, row, rest, u)
    ensures RunFrom(s0, events) == Some(s')
    ensures Notified(s, s', w, PointAfter(u, rest, e.found), if e.found.RouteTo? then [row] else [])
  {
    match e.found
    case NoRoute => events, s' := Then(s0, before, s, LookUp(w, false));
    case CacheError => events, s' := Then(s0, before, s, LookUpError(w));
    case RouteTo(_) =>
      events, s' := Then(s0, before, s, LookUp(w, true));
      events, s' := Then(s0, events, s', Push(w, e.published));
  }

  // A worker that stands at Start with a single chat or an AI chat does what
  // HandleSingleChat and HandleAIChat promise, and ends ready to acknowledge or
  // to send back.
  lemma UploadIsARun(s: State, w: WorkerId, e: Env) returns (events: seq<Event>, s': State)
    requires Works(s, w) && s.workers[w].at.Start? && !UploadOf(s, w).kind.Group?
    ensures RunFrom(s, events) == Some(s')
    ensures s'.broker == s.broker && w < |s'.workers|
    ensures var id, u := s.workers[w].upload, UploadOf(s, w);
            var stored := !e.db.Broken? && id !in s.store.rows;
            var ok := stored && e.db.Fine? && (u.kind.Single? ==> !e.found.CacheError?);
            && s'.store.rows == (if stored then s.store.rows[id := RowFor(u, u.receiver)] else s.store.rows)
            && s'.store.pushes == s.store.pushes
                                + (if ok && u.kind.Single? && e.found.RouteTo? then [id] else [])
            && s'.workers[w].at == (if ok then Done else Failed)
            && Enabled(s', if ok then Ack(w) else Nack(w))
  {
    var u := UploadOf(s, w);
    events, s' := Then(s, [], s, if e.db.Broken? then StoreError(w) else InsertUpload(w, e.db.Fine?));
    if u.kind.Single? && s'.workers[w].at.Handling? {
      events, s' := NotifyIsARun(s, events, s', w, s.workers[w].upload, [], u, e);
    }
  }

  // --- Groups ------------------------------------------------------------------

  // Worker w is about to store the row for rest[0].
  predicate AtMembers(s: State, w: WorkerId, rest: seq<User>, u: Upload) {
    Works(s, w) && UploadOf(s, w) == u && u.kind.Group? && s.workers[w].at == Members(rest)
  }

  // All rows have been drawn a number for, and so will `id` be if not yet used.
  ghost predicate Unused(s: State, env: seq<Env>, n: nat) {
    && s.store.rows.Keys <= s.broker.used
    && forall k :: n <= k < |env| ==> env[k].id !in s.broker.used
  }

  lemma InsertIsARun(s0: State, before: seq<Event>, s: State, w: WorkerId, member: User,
                       rest: seq<User>, u: Upload, e: Env)
    returns (events: seq<Event>, s': State)
    requires RunFrom(s0, before) == Some(s) && AtMembers(s, w, [member] + rest, u)
    requires member != u.sender && !e.db.Broken? && e.id !in s.broker.used && s.store.rows.Keys <= s.broker.used
    ensures RunFrom(s0, events) == Some(s')
    ensures AtMembers(s', w, rest, u)
    ensures s'.broker == s.broker.(used := s.broker.used + {e.id})
    ensures s'.store.rows == s.store.rows[e.id := RowFor(u, member)]
    ensures s'.store.pushes == s.store.pushes + if e.db.Fine? && e.found.RouteTo? then [e.id] else []
  {
    events, s' := Then(s0, before, s, InsertMember(w, e.id, e.db.Fine?));
    if e.db.Fine? {
      events, s' := NotifyIsARun(s0, events, s', w, e.id, rest, u, e);
    }
  }

  // In s', worker w has done the fan-out's part for one member.
  ghost predicate MemberDone(s: State, w: WorkerId, member: User, rest: seq<User>, u: Upload, e: Env, s': State) {
    && AtMembers(s', w, rest, u)
    && s'.broker == s.broker.(used := s'.broker.used)
    && s'.broker.used <= s.broker.used + {e.id} && s'.store.rows.Keys <= s'.broker.used
    && s'.store.rows == OneMember(s.store.rows, u, member, e).0
    && s'.store.pushes == s.store.pushes + Pushes(OneMember(s.store.rows, u, member, e).1)
  }

  lemma MemberIsARun(s0: State, before: seq<Event>, s: State, w: WorkerId, member: User,
                       rest: seq<User>, u: Upload, e: Env)
    returns (events: seq<Event>, s': State)
    requires RunFrom(s0, before) == Some(s) && AtMembers(s, w, [member] + rest, u)
    requires e.id !in s.broker.used && s.store.rows.Keys <= s.broker.used
    ensures RunFrom(s0, events) == Some(s')
    ensures MemberDone(s, w, member, rest, u, e, s')
  {
    if member != u.sender && !e.db.Broken? {
      events, s' := InsertIsARun(s0, before, s, w, member, rest, u, e);
      PushesOfOne(Stored(e.id, RowFor(u, member)), u, member, e.id, e);
    } else {
      events, s' := Then(s0, before, s, SkipMember(w));
    }
  }

  ghost predicate DistinctIds(env: seq<Env>) {
    forall j, k :: 0 <= j < k < |env| ==> env[j].id != env[k].id
  }

  predicate AtGroup(s: State, w: WorkerId) {
    Works(s, w) && s.workers[w].at.Start? && UploadOf(s, w).kind.Group?
  }

  // In s', worker w has done the fan-out of s for the first n members.
  ghost predicate FannedOut(s: State, w: WorkerId, members: seq<User>, env: seq<Env>, n: nat, s': State)
    requires AtGroup(s, w) && n <= |members| == |env|
  {
    var (t, done) := FanOut(s.store.rows, UploadOf(s, w), members, env, n);
    && AtMembers(s', w, members[n..], UploadOf(s, w))
    && s'.broker == s.broker.(used := s'.broker.used)
    && s'.store.rows == t
    && s'.store.pushes == s.store.pushes + Pushes(done)
  }

  lemma FanOutPushes(t: Table, u: Upload, members: seq<User>, env: seq<Env>, n: nat)
    requires n < |members| == |env|
    ensures var (t1, done) := FanOut(t, u, members, env, n);
            Pushes(FanOut(t, u, members, env, n + 1).1) == Pushes(done) + Pushes(OneMember(t1, u, members[n], env[n]).1)
  {
    var (t1, done) := FanOut(t, u, members, env, n);
    PushesConcat(done, OneMember(t1, u, members[n], env[n]).1);
  }

  lemma FannedOutByOneMore(s: State, w: WorkerId, members: seq<User>, env: seq<Env>, n: nat, s1: State, s': State)
    requires AtGroup(s, w) && n < |members| == |env| && FannedOut(s, w, members, env, n, s1)
    requires MemberDone(s1, w, members[n], members[n + 1..], UploadOf(s, w), env[n], s')
    ensures FannedOut(s, w, members, env, n + 1, s')
  {
    FanOutPushes(s.store.rows, UploadOf(s, w), members, env, n);
  }

  lemma UnusedByOneLess(env: seq<Env>, n: nat, s: State, s': State)
    requires n < |env| && DistinctIds(env) && Unused(s, env, n)
    requires s'.broker.used <= s.broker.used + {env[n].id} && s'.store.rows.Keys <= s'.broker.used
    ensures Unused(s', env, n + 1)
  {
  }

  lemma AtNextMember(s: State, w: WorkerId, members: seq<User>, env: seq<Env>, n: nat, s1: State)
    requires AtGroup(s, w) && n < |members| == |env| && FannedOut(s, w, members, env, n, s1)
    ensures AtMembers(s1, w, [members[n]] + members[n + 1..], UploadOf(s, w))
  {
    assert members[n..] == [members[n]] + members[n + 1..];
  }

  lemma FanOutStep(s: State, w: WorkerId, members: seq<User>, env: seq<Env>, n: nat, before: seq<Event>, s1: State)
    returns (events: seq<Event>, s': State)
    requires AtGroup(s, w) && n < |members| == |env| && DistinctIds(env)
    requires RunFrom(s, before) == Some(s1) && FannedOut(s, w, members, env, n, s1) && Unused(s1, env, n)
    ensures RunFrom(s, events) == Some(s') && FannedOut(s, w, members, env, n + 1, s') && Unused(s', env, n + 1)
  {
    AtNextMember(s, w, members, env, n, s1);
    events, s' := MemberIsARun(s, before, s1, w, members[n], members[n + 1..], UploadOf(s, w), env[n]);
    FannedOutByOneMore(s, w, members, env, n, s1, s');
    UnusedByOneLess(env, n, s1, s');
  }

  // The whole fan-out is a run of one worker.
  lemma {:induction false} FanOutIsARun(s: State, w: WorkerId, members: seq<User>, env: seq<Env>, n: nat)
    returns (events: seq<Event>, s': State)
    requires AtGroup(s, w) && n <= |members| == |env| && DistinctIds(env) && Unused(s, env, 0)
    ensures RunFrom(s, events) == Some(s') && FannedOut(s, w, members, env, n, s') && Unused(s', env, n)
  {
    if n == 0 {
      events, s' := Then(s, [], s, FetchMembers(w, members));
      assert members[0..] == members;
    } else {
      events, s' := FanOutIsARun(s, w, members, env, n - 1);
      events, s' := FanOutStep(s, w, members, env, n - 1, events, s');
    }
  }

  // --- Redelivery --------------------------------------------------------------

  // The delivery of a group message that worker w holds is taken back and given
  // to a new worker.
  lemma Redeliver(s0: State, before: seq<Event>, s: State, id: MsgId) returns (events: seq<Event>, s': State)
    requires RunFrom(s0, before) == Some(s) && id in s.broker.holder
    requires id in s.broker.uploads && s.broker.uploads[id].kind.Group?
    ensures RunFrom(s0, events) == Some(s') && s'.store == s.store && s'.broker.used == s.broker.used
    ensures AtGroup(s', |s.workers|) && UploadOf(s', |s.workers|) == s.broker.uploads[id]
  {
    events, s' := Then(s0, before, s, TakeBack(id));
    events, s' := Then(s0, events, s', Deliver(id));
  }

  // A group message that is delivered again after its fan-out, but before its
  // acknowledgement: the system has a run from the first delivery to a state in
  // which a member has a row from each pass that wrote to it.
  lemma RedeliveredGroupIsStoredTwice(s: State, w: WorkerId, members: seq<User>, env: seq<Env>,
                                      before: seq<Event>, s1: State, env': seq<Env>, k: nat)
    returns (events: seq<Event>, s2: State)
    requires AtGroup(s, w) && s.workers[w].upload in s.broker.holder
    requires k < |members| == |env| == |env'|
    requires forall i, j :: 0 <= i < j < |members| ==> members[i] != members[j]
    requires DistinctIds(env) && DistinctIds(env') && Unused(s, env, 0) && Unused(s1, env', 0)
    requires RunFrom(s, before) == Some(s1) && FannedOut(s, w, members, env, |env|, s1)
    ensures RunFrom(s, events) == Some(s2)
    ensures NewRowsFor(s.store.rows, s2.store.rows, members[k])
         == (if Writes(UploadOf(s, w), members, env, k) then {env[k].id} else {})
          + (if Writes(UploadOf(s, w), members, env', k) then {env'[k].id} else {})
  {
    var u := UploadOf(s, w);
    events, s2 := Redeliver(s, before, s1, s.workers[w].upload);
    ghost var again, s3 := FanOutIsARun(s2, |s1.workers|, members, env', |env'|);
    RunsConcat(s, events, s2, again, s3);
    RedeliveredGroupMessageIsDoubled(s.store.rows, u, members, env, env', k);
    events, s2 := events + again, s3;
  }
}
