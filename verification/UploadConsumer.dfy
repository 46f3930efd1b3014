// How Logic handles one upload: what it stores, whom it looks up, what it
// publishes down, in which order, and how it settles the delivery. Uploads has
// the same handlers step by step, among redeliveries and crashes; here one
// handler runs to its end, and its effects are followed member by member.
module UploadConsumer {
  import opened Wrappers
  import opened Messages
  import opened Uploads

  type Gateway = string

  // What is published down to a gateway.
  datatype Down =
    Down(id: MsgId, seqNo: int, sender: User, receiver: User, group: int, content: string, kind: Kind)

  // What a handler does to the outside; a publish is listed even if it fails.
  datatype Effect = Stored(id: MsgId, row: Row) | Published(to: Gateway, down: Down, ok: bool)

  datatype LookUpResult = NoRoute | RouteTo(to: Gateway) | CacheError

  // What the outside does to a handler while it works on one row: the number
  // drawn for it, what the insert meets, what the look-up yields, and whether the
  // publish succeeds.
  datatype Env = Env(id: MsgId, db: Database, found: LookUpResult, published: bool)

  datatype Body = Malformed | UnknownType | Payload(id: MsgId, upload: Upload)

  datatype Verdict = Acked | Requeued | Dropped

  // --- What the handlers do ----------------------------------------------------

  // A single chat's down payload names no group.
  function DownOf(u: Upload, id: MsgId, receiver: User): Down {
    Down(id, u.seqNo, u.sender, receiver, if u.kind.Group? then u.group else 0, u.content, u.kind)
  }

  function Notify(u: Upload, receiver: User, id: MsgId, e: Env): seq<Effect> {
    if e.found.RouteTo? then [Published(e.found.to, DownOf(u, id, receiver), e.published)] else []
  }

  function TryInsert(t: Table, id: MsgId, row: Row, db: Database): Option<Table> {
    if db.Broken? then None else Insert(t, id, row)
  }

  function OneMember(t: Table, u: Upload, member: User, e: Env): (Table, seq<Effect>) {
    if member == u.sender then (t, [])
    else
      match TryInsert(t, e.id, RowFor(u, member), e.db)
      case None => (t, [])
      case Some(t') =>
        (t', [Stored(e.id, RowFor(u, member))] + if e.db.Fine? then Notify(u, member, e.id, e) else [])
  }

  // The table and the effects after the first n members of a group.
  function FanOut(t: Table, u: Upload, members: seq<User>, env: seq<Env>, n: nat): (Table, seq<Effect>)
    requires n <= |members| == |env|
  {
    if n == 0 then (t, [])
    else
      var (t1, done) := FanOut(t, u, members, env, n - 1);
      var (t2, more) := OneMember(t1, u, members[n - 1], env[n - 1]);
      (t2, done + more)
  }

  // --- The consumer ------------------------------------------------------------

  class Consumer {
    var rows: Table
    var effects: seq<Effect>

    constructor (rows: Table)
      ensures this.rows == rows && effects == []
    {
      this.rows, effects := rows, [];
    }

    method InsertMessage(id: MsgId, row: Row, db: Database) returns (ok: bool)
      modifies this
      ensures ok <==> db.Fine? && id !in old(rows)
      ensures var stored := !db.Broken? && id !in old(rows);
              && rows == (if stored then old(rows)[id := row] else old(rows))
              && effects == (if stored then old(effects) + [Stored(id, row)] else old(effects))
    {
      ok := db.Fine? && id !in rows;
      if !db.Broken? && id !in rows {
        rows := rows[id := row];
        effects := effects + [Stored(id, row)];
      }
    }

    method PublishDown(to: Gateway, down: Down, ok: bool)
      modifies this`effects
      ensures effects == old(effects) + [Published(to, down, ok)]
    {
      effects := effects + [Published(to, down, ok)];
    }

    // Once the row is stored, a route that cannot be looked up fails the
    // handler, but a publish that fails does not.
    method HandleSingleChat(id: MsgId, u: Upload, e: Env) returns (ok: bool)
      requires u.kind.Single?
      modifies this
      ensures ok <==> e.db.Fine? && id !in old(rows) && !e.found.CacheError?
      ensures if !e.db.Broken? && id !in old(rows) then
                var row := Row(u.seqNo, u.sender, u.receiver, u.group, u.content, false, UNSENT);
                && rows == old(rows)[id := row]
                && effects == old(effects) + [Stored(id, row)]
                              + (if e.db.Fine? && e.found.RouteTo? then
                                   var down := Down(id, u.seqNo, u.sender, u.receiver, 0, u.content, Single);
                                   [Published(e.found.to, down, e.published)]
                                 else [])
              else rows == old(rows) && effects == old(effects)
    {
      var inserted := InsertMessage(id, RowFor(u, u.receiver), e.db);
      if !inserted {
        return false;
      }
      match e.found {
        case NoRoute => return true;
        case CacheError => return false;
        case RouteTo(to) =>
          PublishDown(to, DownOf(u, id, u.receiver), e.published);
          return true;
      }
    }

    // `members` is None when they cannot be fetched.
    method HandleGroupChat(u: Upload, members: Option<seq<User>>, env: seq<Env>) returns (ok: bool)
      requires members.Some? ==> |env| == |members.value|
      modifies this
      ensures ok <==> members.Some?
      ensures members.None? ==> rows == old(rows) && effects == old(effects)
      ensures members.Some? ==>
        var (t, done) := FanOut(old(rows), u, members.value, env, |env|);
        rows == t && effects == old(effects) + done
    {
      if members.None? {
        return false;
      }
      for i := 0 to |env|
        invariant rows == FanOut(old(rows), u, members.value, env, i).0
        invariant effects == old(effects) + FanOut(old(rows), u, members.value, env, i).1
      {
        var member, e := members.value[i], env[i];
        if member == u.sender {
          continue;
        }
        var inserted := InsertMessage(e.id, RowFor(u, member), e.db);
        if !inserted {
          continue;
        }
        match e.found {
          case NoRoute => continue;
          case CacheError => continue;
          case RouteTo(to) => PublishDown(to, DownOf(u, e.id, member), e.published);
        }
      }
      return true;
    }

    method HandleAIChat(id: MsgId, u: Upload, e: Env) returns (ok: bool)
      requires u.kind.AI?
      modifies this
      ensures ok <==> e.db.Fine? && id !in old(rows)
      ensures var stored := !e.db.Broken? && id !in old(rows);
              var row := Row(u.seqNo, u.sender, u.receiver, u.group, u.content, true, UNSENT);
              && rows == (if stored then old(rows)[id := row] else old(rows))
              && effects == (if stored then old(effects) + [Stored(id, row)] else old(effects))
    {
      ok := InsertMessage(id, RowFor(u, u.receiver), e.db);
    }

    // A delivery is dropped only if it cannot be read, and acknowledged if it
    // is of no known type. Whatever else is acknowledged has been dealt with;
    // a delivery that goes back has left its row behind only if the insert
    // reported an error and took effect all the same, or a single chat's route
    // could not be looked up.
    method HandleUploadDelivery(body: Body, e: Env, members: Option<seq<User>>, env: seq<Env>)
      returns (verdict: Verdict)
      requires members.Some? ==> |env| == |members.value|
      modifies this
      ensures verdict.Dropped? <==> body.Malformed?
      ensures !body.Payload? ==> rows == old(rows) && effects == old(effects)
      ensures body.UnknownType? ==> verdict.Acked?
      ensures body.Payload? && body.upload.kind.Group? ==>
        if members.Some?
        then (rows, effects) == (FanOut(old(rows), body.upload, members.value, env, |env|).0,
                                 old(effects) + FanOut(old(rows), body.upload, members.value, env, |env|).1)
        else rows == old(rows) && effects == old(effects)
      ensures body.Payload? && body.upload.kind.Group? ==> (verdict.Acked? <==> members.Some?)
      ensures body.Payload? && !body.upload.kind.Group? ==>
        var u, stored := body.upload, !e.db.Broken? && body.id !in old(rows);
        var row := Row(u.seqNo, u.sender, u.receiver, u.group, u.content, u.kind.AI?, UNSENT);
        && rows == (if stored then old(rows)[body.id := row] else old(rows))
        && effects == (if stored then old(effects) + [Stored(body.id, row)]
                         + (if u.kind.Single? && e.db.Fine? && e.found.RouteTo? then
                              var down := Down(body.id, u.seqNo, u.sender, u.receiver, 0, u.content, Single);
                              [Published(e.found.to, down, e.published)]
                            else [])
                       else old(effects))
        && (verdict.Acked? <==> stored && e.db.Fine? && (body.upload.kind.Single? ==> !e.found.CacheError?))
    {
      match body {
        case Malformed => return Dropped;
        case UnknownType => return Acked;
        case Payload(id, u) =>
          var ok;
          match u.kind {
            case Single => ok := HandleSingleChat(id, u, e);
            case Group => ok := HandleGroupChat(u, members, env);
            case AI => ok := HandleAIChat(id, u, e);
          }
          return if ok then Acked else Requeued;
      }
    }
  }

  // --- The fan-out of a group message ------------------------------------------

  // The members' numbers are distinct, and in the table nowhere yet.
  ghost predicate FreshIds(t: Table, env: seq<Env>) {
    && (forall k :: 0 <= k < |env| ==> env[k].id !in t)
    && (forall j, k :: 0 <= j < k < |env| ==> env[j].id != env[k].id)
  }

  predicate Writes(u: Upload, members: seq<User>, env: seq<Env>, k: nat)
    requires k < |members| == |env|
  {
    members[k] != u.sender && !env[k].db.Broken?
  }

  ghost predicate WrittenAs(u: Upload, members: seq<User>, env: seq<Env>, k: nat, id: MsgId)
    requires |members| == |env|
  {
    k < |members| && Writes(u, members, env, k) && env[k].id == id
  }

  // Which numbers the table holds after n members: the old ones and those of
  // the members written to, no others.
  lemma {:induction false} KeysAfter(t: Table, u: Upload, members: seq<User>, env: seq<Env>, n: nat, id: MsgId)
    requires n <= |members| == |env| && FreshIds(t, env)
    ensures id in FanOut(t, u, members, env, n).0 <==>
            id in t || exists k: nat :: k < n && WrittenAs(u, members, env, k, id)
  {
    if n > 0 {
      KeysAfter(t, u, members, env, n - 1, id);
      NumberIsFree(t, u, members, env, n - 1);
      if Writes(u, members, env, n - 1) && id == env[n - 1].id {
        assert WrittenAs(u, members, env, n - 1, id);
      }
    }
  }

  lemma {:induction false} NumberIsFree(t: Table, u: Upload, members: seq<User>, env: seq<Env>, n: nat)
    requires n < |members| == |env| && FreshIds(t, env)
    ensures env[n].id !in FanOut(t, u, members, env, n).0
  {
    KeysAfter(t, u, members, env, n, env[n].id);
  }

  // Each member's row is as it should be, and no older row is touched.
  lemma {:induction false} RowsAfter(t: Table, u: Upload, members: seq<User>, env: seq<Env>, n: nat)
    requires n <= |members| == |env| && FreshIds(t, env)
    ensures var t' := FanOut(t, u, members, env, n).0;
            && (forall k: nat :: k < n && Writes(u, members, env, k) ==>
                  env[k].id in t' && t'[env[k].id] == RowFor(u, members[k]))
            && (forall id :: id in t ==> id in t' && t'[id] == t[id])
  {
    if n > 0 {
      RowsAfter(t, u, members, env, n - 1);
      NumberIsFree(t, u, members, env, n - 1);
    }
  }

  ghost function NewRowsFor(t: Table, t': Table, receiver: User): set<MsgId> {
    set id | id in t' && id !in t && t'[id].receiver == receiver
  }

  // A member gets one new row for each of its places in the list, unless it is
  // the sender or the insert fails, and nobody else gets any.
  lemma {:induction false} NewRowsOfAMember(t: Table, u: Upload, members: seq<User>, env: seq<Env>, receiver: User)
    requires |members| == |env| && FreshIds(t, env)
    ensures NewRowsFor(t, FanOut(t, u, members, env, |env|).0, receiver)
         == set k: nat | k < |members| && members[k] == receiver && Writes(u, members, env, k) :: env[k].id
  {
    var t' := FanOut(t, u, members, env, |env|).0;
    var ids := set k: nat | k < |members| && members[k] == receiver && Writes(u, members, env, k) :: env[k].id;
    RowsAfter(t, u, members, env, |env|);
    forall id ensures id in NewRowsFor(t, t', receiver) <==> id in ids {
      KeysAfter(t, u, members, env, |env|, id);
    }
  }

  // In a list without duplicates that is one row for each member written to,
  // in one sequence number and one group with all the others.
  lemma {:induction false} OneRowForEachMember(t: Table, u: Upload, members: seq<User>, env: seq<Env>, k: nat)
    requires k < |members| == |env| && FreshIds(t, env) && u.kind.Group?
    requires forall i, j :: 0 <= i < j < |members| ==> members[i] != members[j]
    ensures var t' := FanOut(t, u, members, env, |env|).0;
            && NewRowsFor(t, t', members[k]) == (if Writes(u, members, env, k) then {env[k].id} else {})
            && (Writes(u, members, env, k) ==>
                t'[env[k].id] == Row(u.seqNo, u.sender, members[k], u.group, u.content, false, UNSENT))
  {
    NewRowsOfAMember(t, u, members, env, members[k]);
    RowsAfter(t, u, members, env, |env|);
  }

  // --- Publishing down ---------------------------------------------------------

  predicate Matches(e: Effect, d: Down) {
    e.Stored? && e.id == d.id
    && Down(e.id, e.row.seqNo, e.row.sender, e.row.receiver, e.row.group, e.row.content, d.kind) == d
  }

  ghost predicate StoredBefore(effects: seq<Effect>, i: nat)
    requires i < |effects| && effects[i].Published?
  {
    exists j :: 0 <= j < i && Matches(effects[j], effects[i].down)
  }

  // Every publish, whether it succeeds or not, announces a row that has been
  // stored before, with the same contents.
  lemma {:induction false} PublishedAfterStored(t: Table, u: Upload, members: seq<User>, env: seq<Env>, n: nat, i: nat)
    requires n <= |members| == |env| && u.kind.Group?
    requires i < |FanOut(t, u, members, env, n).1| && FanOut(t, u, members, env, n).1[i].Published?
    ensures StoredBefore(FanOut(t, u, members, env, n).1, i)
  {
    var effects := FanOut(t, u, members, env, n).1;
    var done := FanOut(t, u, members, env, n - 1).1;
    assert effects[..|done|] == done;
    if i < |done| {
      PublishedAfterStored(t, u, members, env, n - 1, i);
      var j :| 0 <= j < i && Matches(done[j], done[i].down);
      assert Matches(effects[j], effects[i].down);
    } else {
      assert i == |done| + 1 && Matches(effects[|done|], effects[i].down);
    }
  }

  ghost predicate PublishFor(u: Upload, members: seq<User>, env: seq<Env>, k: nat, e: Effect)
    requires |members| == |env|
  {
    && k < |members| && members[k] != u.sender && env[k].db.Fine? && env[k].found.RouteTo?
    && e == Published(env[k].found.to,
                      Down(env[k].id, u.seqNo, u.sender, members[k], if u.kind.Group? then u.group else 0, u.content,
                           u.kind), env[k].published)
  }

  // There is a publish for exactly those members whose insert succeeded and whose
  // route was found, whatever became of the other members' publishes.
  lemma {:induction false} PublishedIffOnline(t: Table, u: Upload, members: seq<User>, env: seq<Env>, n: nat, e: Effect)
    requires n <= |members| == |env| && FreshIds(t, env) && e.Published?
    ensures e in FanOut(t, u, members, env, n).1 <==> exists k: nat :: k < n && PublishFor(u, members, env, k, e)
  {
    if n > 0 {
      PublishedIffOnline(t, u, members, env, n - 1, e);
      NumberIsFree(t, u, members, env, n - 1);
      var done, more := FanOut(t, u, members, env, n - 1).1,
                        OneMember(FanOut(t, u, members, env, n - 1).0, u, members[n - 1], env[n - 1]).1;
      assert FanOut(t, u, members, env, n).1 == done + more;
      assert e in more <==> PublishFor(u, members, env, n - 1, e);
    }
  }

  // --- Redelivery --------------------------------------------------------------

  // Group rows bear numbers of their own, so a group message that is delivered
  // again after its fan-out gets a second row for a member if and only if both
  // passes write to that member.
  lemma {:induction false} RedeliveredGroupMessageIsDoubled(
      t: Table, u: Upload, members: seq<User>, env: seq<Env>, env': seq<Env>, k: nat)
    requires k < |members| == |env| == |env'| && u.kind.Group?
    requires forall i, j :: 0 <= i < j < |members| ==> members[i] != members[j]
    requires FreshIds(t, env) && FreshIds(FanOut(t, u, members, env, |env|).0, env')
    ensures var t' := FanOut(t, u, members, env, |env|).0;
            var t'' := FanOut(t', u, members, env', |env'|).0;
            var rows := NewRowsFor(t, t'', members[k]);
            && rows == (if Writes(u, members, env, k) then {env[k].id} else {})
                     + (if Writes(u, members, env', k) then {env'[k].id} else {})
            && (|rows| == 2 <==> Writes(u, members, env, k) && Writes(u, members, env', k))
            && (|rows| == 2 ==> t''[env[k].id] == t''[env'[k].id])
  {
    var t' := FanOut(t, u, members, env, |env|).0;
    var t'' := FanOut(t', u, members, env', |env'|).0;
    OneRowForEachMember(t, u, members, env, k);
    OneRowForEachMember(t', u, members, env', k);
    RowsAfter(t, u, members, env, |env|);
    RowsAfter(t', u, members, env', |env'|);
    forall id ensures id in NewRowsFor(t, t'', members[k]) <==>
                      id in NewRowsFor(t, t', members[k]) || id in NewRowsFor(t', t'', members[k]) {
    }
    if Writes(u, members, env, k) && Writes(u, members, env', k) {
      assert env[k].id != env'[k].id;
    }
  }
}
