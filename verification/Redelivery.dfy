// What redelivery does to an upload in the long run: a stored single or AI chat
// whose delivery is not settled in time is never settled, and a group message
// can be stored twice for one member.
module Redelivery {
  import opened Wrappers
  import opened Messages
  import opened Uploads
  import IntSets

  // --- Uploads that cannot be settled ------------------------------------------

  // The upload's delivery waits in the queue or is with a worker.
  predicate Unsettled(s: State, id: MsgId) {
    id in s.broker.queue || id in s.broker.holder
  }

  // The upload is stored, and its delivery waits or is with a worker that has
  // not seen its own insert succeed and never will.
  predicate Stranded(s: State, id: MsgId) {
    && id in s.store.rows && id in s.broker.uploads
    && (id in s.broker.queue
        || (id in s.broker.holder && s.broker.holder[id] < |s.workers|
            && !s.workers[s.broker.holder[id]].at.Done? && !s.workers[s.broker.holder[id]].at.Handling?))
  }

  lemma StrandedByWork(s: State, e: Event, id: MsgId)
    requires Inv(s) && Enabled(s, e) && WorkEvent(e) && Stranded(s, id)
    ensures Stranded(Step(s, e), id)
  {
    assert WorkerInv(s, e.w) && UploadInv(s.broker, s.store.rows, id);
    if id !in s.broker.queue {
      assert WorkerInv(s, s.broker.holder[id]);
    }
  }

  lemma StrandedByOthers(s: State, e: Event, id: MsgId)
    requires Inv(s) && Enabled(s, e) && !WorkEvent(e) && Stranded(s, id)
    ensures Stranded(Step(s, e), id)
  {
    assert UploadInv(s.broker, s.store.rows, id);
    if e.Ack? || e.Nack? {
      assert WorkerInv(s, e.w);
    }
  }

  lemma {:induction false} StrandedForEver(s: State, more: seq<Event>, s': State, id: MsgId)
    requires Inv(s) && RunFrom(s, more) == Some(s') && Stranded(s, id)
    ensures Inv(s') && Stranded(s', id)
  {
    if more != [] {
      var before, e := RunFrom(s, more[..|more| - 1]).value, more[|more| - 1];
      StrandedForEver(s, more[..|more| - 1], before, id);
      InvPreserved(before, e);
      if WorkEvent(e) {
        StrandedByWork(before, e, id);
      } else {
        StrandedByOthers(before, e, id);
      }
    }
  }

  // A redelivery of an upload that is already stored: its insert fails, and the
  // delivery can only go back to the queue it came from, to be delivered again.
  lemma StoredUploadGoesRoundInCircles(s: State, w: WorkerId, seen: bool)
    requires Inv(s) && Enabled(s, InsertUpload(w, seen)) && s.workers[w].upload in s.store.rows
    requires s.workers[w].upload in s.broker.holder && s.broker.holder[s.workers[w].upload] == w
    ensures var s1 := Step(s, InsertUpload(w, seen));
            && Enabled(s1, Nack(w))
            && var s2 := Step(s1, Nack(w));
               && s.workers[w].upload in s2.broker.queue
               && s2.store == s.store
               && Enabled(s2, Deliver(s.workers[w].upload))
               && var s3 := Step(s2, Deliver(s.workers[w].upload));
                  && Enabled(s3, InsertUpload(|s.workers|, seen))
                  && s3.broker.holder[s.workers[w].upload] == |s.workers|
  {
  }

  // Worker w is about to acknowledge the delivery it still holds.
  predicate ReadyToAck(s: State, w: WorkerId, id: MsgId) {
    && id in s.broker.holder && s.broker.holder[id] == w && id !in s.broker.queue
    && w < |s.workers| && s.workers[w].upload == id && Enabled(s, Ack(w))
  }

  lemma AckSettles(s0: State, before: seq<Event>, s: State, w: WorkerId, id: MsgId)
    returns (more: seq<Event>, s': State)
    requires RunFrom(s0, before) == Some(s) && ReadyToAck(s, w, id)
    ensures RunFrom(s0, more) == Some(s') && !Unsettled(s', id)
  {
    more, s' := Then(s0, before, s, Ack(w));
  }

  lemma CanFinish(s0: State, before: seq<Event>, s: State, w: WorkerId, id: MsgId)
    returns (more: seq<Event>, s': State)
    requires RunFrom(s0, before) == Some(s) && Handles(s, w) && !UploadOf(s, w).kind.Group?
    requires s.store.fate[s.workers[w].at.row] in {Undecided(w), Routed(w)}
    requires s.workers[w].upload == id && id in s.broker.holder && s.broker.holder[id] == w && id !in s.broker.queue
    ensures RunFrom(s0, more) == Some(s') && ReadyToAck(s', w, id)
  {
    if s.store.fate[s.workers[w].at.row] == Undecided(w) {
      more, s' := Then(s0, before, s, LookUp(w, false));
    } else {
      more, s' := Then(s0, before, s, Push(w, false));
    }
  }

  // A queued upload that is not stored yet can be handled to its end.
  lemma CanBeDelivered(s0: State, before: seq<Event>, s: State, id: MsgId) returns (more: seq<Event>, s': State)
    requires RunFrom(s0, before) == Some(s)
    requires id in s.broker.queue && id in s.broker.uploads && id !in s.store.rows && id !in s.broker.holder
    ensures RunFrom(s0, more) == Some(s') && ReadyToAck(s', |s.workers|, id)
  {
    var w := |s.workers|;
    var u := s.broker.uploads[id];
    more, s' := Then(s0, before, s, Deliver(id));
    if u.kind.Group? {
      more, s' := Then(s0, more, s', FetchMembers(w, []));
    } else {
      more, s' := Then(s0, more, s', InsertUpload(w, true));
      if u.kind.Single? {
        more, s' := CanFinish(s0, more, s', w, id);
      }
    }
  }

  lemma CanBeSettled(s: State, id: MsgId) returns (more: seq<Event>, s': State)
    requires Inv(s) && id in s.broker.uploads && Unsettled(s, id) && !Stranded(s, id)
    ensures RunFrom(s, more) == Some(s') && !Unsettled(s', id)
  {
    var w: WorkerId;
    more, s' := [], s;
    if id in s.store.rows {
      w := s.broker.holder[id];
      assert WorkerInv(s, w) && UploadInv(s.broker, s.store.rows, id);
      if s.workers[w].at.Handling? {
        more, s' := CanFinish(s, [], s, w, id);
      }
    } else {
      if id in s.broker.holder {
        more, s' := Then(s, [], s, TakeBack(id));
      }
      w := |s'.workers|;
      more, s' := CanBeDelivered(s, more, s', id);
    }
    more, s' := AckSettles(s, more, s', w, id);
  }

  // In any reachable state an upload that is queued or held can still be settled
  // if and only if it is not stranded; otherwise it goes round for ever.
  lemma {:induction false} UploadCanBeSettledIff(events: seq<Event>, s: State, id: MsgId)
    requires Run(events) == Some(s) && Unsettled(s, id)
    ensures (exists more: seq<Event>, s': State :: RunFrom(s, more) == Some(s') && !Unsettled(s', id))
            <==> !Stranded(s, id)
  {
    RunInv(events, s);
    if Stranded(s, id) {
      forall more: seq<Event>, s': State | RunFrom(s, more) == Some(s') ensures Unsettled(s', id) {
        StrandedForEver(s, more, s', id);
      }
    } else {
      var more, s' := CanBeSettled(s, id);
    }
  }

  // Any single or AI chat can end up stranded: its delivery is taken back from
  // the worker that has just stored it, or the insert reports an error after it
  // took effect.
  lemma UploadCanBeStranded(u: Upload, seen: bool) returns (events: seq<Event>, s: State)
    requires !u.kind.Group?
    ensures Run(events) == Some(s) && Stranded(s, 1) && s.broker.uploads == map[1 := u]
  {
    events, s := Then(INITIAL, [], INITIAL, Publish(1, u, true, true));
    events, s := Then(INITIAL, events, s, Deliver(1));
    events, s := Then(INITIAL, events, s, InsertUpload(0, seen));
    if seen {
      events, s := Then(INITIAL, events, s, TakeBack(1));
    }
  }

  // --- The rows of a group message ---------------------------------------------

  predicate InFanOut(at: Point) {
    at.Members? || at.Handling?
  }

  function RestOf(at: Point): seq<User>
    requires InFanOut(at)
  {
    at.rest
  }

  // A worker that fetched a list is at some place of it, or past its end.
  ghost predicate ListInv(s: State, w: WorkerId)
    requires w < |s.workers|
  {
    var at := s.workers[w].at;
    && (w in s.trail.lists ==> !at.Start? && Works(s, w) && UploadOf(s, w).kind.Group?)
    && (InFanOut(at) && Works(s, w) && UploadOf(s, w).kind.Group? ==> w in s.trail.lists)
    && (InFanOut(at) && w in s.trail.lists ==>
          && |RestOf(at)| <= |s.trail.lists[w]|
          && RestOf(at) == s.trail.lists[w][|s.trail.lists[w]| - |RestOf(at)|..])
  }

  // A member's row was stored by a worker for a place it has left behind.
  ghost predicate OriginInv(s: State, row: MsgId)
    requires row in s.trail.origin
  {
    var o := s.trail.origin[row];
    && row in s.store.rows && Works(s, o.w) && o.w in s.trail.lists && s.workers[o.w].upload == o.upload
    && o.place < Passed(s, o.w) && o.place < |s.trail.lists[o.w]|
    && s.trail.lists[o.w][o.place] == s.store.rows[row].receiver != UploadOf(s, o.w).sender
    && IsMessageOf(s.store.rows[row], UploadOf(s, o.w))
  }

  predicate IsMessageOf(row: Row, u: Upload) {
    row.seqNo == u.seqNo && row.sender == u.sender && row.group == u.group && row.content == u.content
  }

  ghost predicate PlacesDiffer(s: State, r: MsgId, q: MsgId) {
    r in s.trail.origin && q in s.trail.origin && r != q && s.trail.origin[r].w == s.trail.origin[q].w
    ==> s.trail.origin[r].place != s.trail.origin[q].place
  }

  ghost predicate TrailInv(s: State) {
    && (forall w: WorkerId <- s.trail.lists :: w < |s.workers|)
    && (forall w: WorkerId :: w < |s.workers| ==> ListInv(s, w))
    && (forall row <- s.trail.origin :: OriginInv(s, row))
    && (forall r <- s.trail.origin, q <- s.trail.origin :: PlacesDiffer(s, r, q))
  }

  lemma SuffixTail(list: seq<User>, rest: seq<User>)
    requires 0 < |rest| <= |list| && rest == list[|list| - |rest|..]
    ensures rest[0] == list[|list| - |rest|] && rest[1..] == list[|list| - |rest[1..]|..]
  {
  }

  // A worker's event leaves the other workers' lists alone.
  lemma ListOfAnother(s: State, e: Event, w: WorkerId)
    requires Enabled(s, e) && WorkEvent(e) && w != e.w && w < |s.workers| && ListInv(s, w)
    ensures ListInv(Step(s, e), w)
  {
    var s' := Step(s, e);
    assert s'.workers[w] == s.workers[w] && s'.broker.uploads == s.broker.uploads;
    assert w in s'.trail.lists <==> w in s.trail.lists;
  }

  lemma ListByInsertMember(s: State, e: Event)
    requires Enabled(s, e) && e.InsertMember? && WorkerInv(s, e.w) && ListInv(s, e.w)
    ensures ListInv(Step(s, e), e.w)
  {
    SuffixTail(s.trail.lists[e.w], s.workers[e.w].at.rest);
  }

  lemma ListByInsertUpload(s: State, e: Event)
    requires Enabled(s, e) && e.InsertUpload? && ListInv(s, e.w)
    ensures ListInv(Step(s, e), e.w)
  {
  }

  lemma ListBySkip(s: State, e: Event)
    requires Enabled(s, e) && e.SkipMember? && WorkerInv(s, e.w) && ListInv(s, e.w)
    ensures ListInv(Step(s, e), e.w)
  {
    SuffixTail(s.trail.lists[e.w], s.workers[e.w].at.rest);
  }

  lemma ListByStart(s: State, e: Event)
    requires Enabled(s, e) && (e.StoreError? || e.FetchMembers?) && ListInv(s, e.w)
    ensures ListInv(Step(s, e), e.w)
  {
  }

  // A notifying worker stays at its place of the list or leaves the fan-out.
  lemma NotifyKeepsRest(s: State, e: Event)
    requires Enabled(s, e) && NotifyEvent(e) && WorkerInv(s, e.w) && e.w < |s.workers|
    ensures var at, at' := s.workers[e.w].at, Step(s, e).workers[e.w].at;
            && !at'.Start? && Step(s, e).trail == s.trail && Step(s, e).broker == s.broker
            && (InFanOut(at') && UploadOf(s, e.w).kind.Group? ==> InFanOut(at) && RestOf(at') == RestOf(at))
            && (InFanOut(at') && !UploadOf(s, e.w).kind.Group? ==> at' == at)
  {
  }

  lemma ListByNotify(s: State, e: Event)
    requires Enabled(s, e) && NotifyEvent(e) && e.w < |s.workers| && WorkerInv(s, e.w) && ListInv(s, e.w)
    ensures ListInv(Step(s, e), e.w)
  {
    NotifyKeepsRest(s, e);
    assert Step(s, e).workers[e.w].upload == s.workers[e.w].upload;
  }

  lemma ListByWork(s: State, e: Event, w: WorkerId)
    requires Enabled(s, e) && WorkEvent(e) && w < |s.workers| && e.w < |s.workers|
    requires WorkerInv(s, e.w) && ListInv(s, w)
    ensures ListInv(Step(s, e), w)
  {
    if w != e.w {
      ListOfAnother(s, e, w);
    } else if e.InsertMember? {
      ListByInsertMember(s, e);
    } else if e.InsertUpload? {
      ListByInsertUpload(s, e);
    } else if e.SkipMember? {
      ListBySkip(s, e);
    } else if NotifyEvent(e) {
      ListByNotify(s, e);
    } else {
      ListByStart(s, e);
    }
  }

  lemma ListByOthers(s: State, e: Event, w: WorkerId)
    requires BrokerInv(s.broker, s.workers) && Enabled(s, e) && !WorkEvent(e)
    requires forall v: WorkerId <- s.trail.lists :: v < |s.workers|
    requires w < |Step(s, e).workers| && (w < |s.workers| ==> WorkerInv(s, w) && ListInv(s, w))
    ensures ListInv(Step(s, e), w)
  {
  }

  lemma OriginByInsert(s: State, e: Event, row: MsgId)
    requires Enabled(s, e) && InsertEvent(e) && WorkerInv(s, e.w) && ListInv(s, e.w)
    requires s.store.rows.Keys <= s.broker.used
    requires row in Step(s, e).trail.origin && (row in s.trail.origin ==> OriginInv(s, row))
    ensures OriginInv(Step(s, e), row)
  {
    if e.InsertMember? {
      SuffixTail(s.trail.lists[e.w], s.workers[e.w].at.rest);
    }
  }

  lemma OriginByNotify(s: State, e: Event, row: MsgId)
    requires Enabled(s, e) && NotifyEvent(e) && WorkerInv(s, e.w) && ListInv(s, e.w)
    requires row in s.trail.origin && OriginInv(s, row)
    ensures row in Step(s, e).trail.origin && OriginInv(Step(s, e), row)
  {
  }

  lemma OriginByMove(s: State, e: Event, row: MsgId)
    requires Enabled(s, e) && MoveEvent(e) && ListInv(s, e.w)
    requires row in s.trail.origin && OriginInv(s, row)
    ensures row in Step(s, e).trail.origin && OriginInv(Step(s, e), row)
  {
  }

  lemma OriginByOthers(s: State, e: Event, row: MsgId)
    requires BrokerInv(s.broker, s.workers) && Enabled(s, e) && !WorkEvent(e)
    requires row in s.trail.origin && OriginInv(s, row)
    ensures row in Step(s, e).trail.origin && OriginInv(Step(s, e), row)
  {
  }

  lemma PlacesPreserved(s: State, e: Event, r: MsgId, q: MsgId)
    requires Inv(s) && TrailInv(s) && Enabled(s, e)
    ensures PlacesDiffer(Step(s, e), r, q)
  {
    assert PlacesDiffer(s, r, q);
    if e.InsertMember? {
      KnownRows(s);
      assert r in s.trail.origin ==> OriginInv(s, r);
      assert q in s.trail.origin ==> OriginInv(s, q);
    } else {
      assert Step(s, e).trail.origin == s.trail.origin;
    }
  }

  lemma ListsPreserved(s: State, e: Event)
    requires Inv(s) && TrailInv(s) && Enabled(s, e)
    ensures forall w: WorkerId :: w < |Step(s, e).workers| ==> ListInv(Step(s, e), w)
  {
    forall w: WorkerId | w < |Step(s, e).workers| ensures ListInv(Step(s, e), w) {
      if WorkEvent(e) {
        ListByWork(s, e, w);
      } else {
        ListByOthers(s, e, w);
      }
    }
  }

  lemma OriginsPreserved(s: State, e: Event)
    requires Inv(s) && TrailInv(s) && Enabled(s, e)
    ensures forall row <- Step(s, e).trail.origin :: OriginInv(Step(s, e), row)
  {
    KnownRows(s);
    forall row <- Step(s, e).trail.origin ensures OriginInv(Step(s, e), row) {
      if InsertEvent(e) {
        OriginByInsert(s, e, row);
      } else if NotifyEvent(e) {
        OriginByNotify(s, e, row);
      } else if MoveEvent(e) {
        OriginByMove(s, e, row);
      } else {
        OriginByOthers(s, e, row);
      }
    }
  }

  lemma TrailPreserved(s: State, e: Event)
    requires Inv(s) && TrailInv(s) && Enabled(s, e)
    ensures TrailInv(Step(s, e))
  {
    ListsPreserved(s, e);
    OriginsPreserved(s, e);
    forall r <- Step(s, e).trail.origin, q <- Step(s, e).trail.origin ensures PlacesDiffer(Step(s, e), r, q) {
      PlacesPreserved(s, e, r, q);
    }
  }

  lemma {:induction false} RunTrail(events: seq<Event>, s: State)
    requires Run(events) == Some(s)
    ensures Inv(s) && TrailInv(s)
  {
    RunInv(events, s);
    if events != [] {
      var before := Run(events[..|events| - 1]).value;
      RunTrail(events[..|events| - 1], before);
      TrailPreserved(before, events[|events| - 1]);
    }
  }

  // Crashes in the middle included: one delivery of a group message, to one
  // worker, stores at most one row for each place in the member list, and so at
  // most one for each member if no member is listed twice.
  lemma OneRowPerMemberAndDelivery(events: seq<Event>, s: State, r: MsgId, q: MsgId)
    requires Run(events) == Some(s) && r in s.trail.origin && q in s.trail.origin
    requires s.trail.origin[r].w == s.trail.origin[q].w
    ensures r in s.store.rows && q in s.store.rows && s.trail.origin[r].w in s.trail.lists
    ensures s.store.rows[r].receiver == s.store.rows[q].receiver
            && (forall i, j :: 0 <= i < j < |s.trail.lists[s.trail.origin[r].w]| ==>
                  s.trail.lists[s.trail.origin[r].w][i] != s.trail.lists[s.trail.origin[r].w][j])
            ==> r == q
  {
    RunTrail(events, s);
    assert OriginInv(s, r) && OriginInv(s, q) && PlacesDiffer(s, r, q);
  }

  // Whatever is stored for a group message is that message, addressed to the
  // member at one place of the list that some delivery fetched.
  lemma GroupRowIsTheMessage(events: seq<Event>, s: State, row: MsgId)
    requires Run(events) == Some(s) && row in s.trail.origin
    ensures row in s.store.rows
    ensures var o := s.trail.origin[row];
            && o.upload in s.broker.uploads && o.w in s.trail.lists && o.place < |s.trail.lists[o.w]|
            && var (r, u) := (s.store.rows[row], s.broker.uploads[o.upload]);
               && u.kind.Group? && r.seqNo == u.seqNo && r.sender == u.sender && r.group == u.group
               && r.content == u.content && r.receiver == s.trail.lists[o.w][o.place]
  {
    RunTrail(events, s);
    assert OriginInv(s, row);
    assert ListInv(s, s.trail.origin[row].w);
  }

  // --- When a member's row is stored a second time -----------------------------

  // A row that the group message u stored for member m.
  predicate GroupRow(s: State, row: MsgId, u: MsgId, m: User) {
    && row in s.trail.origin && s.trail.origin[row].upload == u
    && row in s.store.rows && s.store.rows[row].receiver == m
  }

  ghost predicate Doubled(s: State, u: MsgId, m: User) {
    exists r, q :: GroupRow(s, r, u, m) && GroupRow(s, q, u, m) && r != q
  }

  // Worker w handles the group message u and still has member m before it.
  predicate Ahead(s: State, w: WorkerId, u: MsgId, m: User) {
    && w < |s.workers| && s.workers[w].upload == u
    && (s.workers[w].at.Start? || (InFanOut(s.workers[w].at) && m in RestOf(s.workers[w].at)))
  }

  ghost predicate CanStoreAgain(s: State, u: MsgId, m: User) {
    Unsettled(s, u) || exists w :: Ahead(s, w, u, m)
  }

  lemma AheadByWork(s: State, e: Event, w: WorkerId, u: MsgId, m: User)
    requires Enabled(s, e) && WorkEvent(e) && WorkerInv(s, e.w)
    requires u in s.broker.uploads && s.broker.uploads[u].kind.Group?
    requires Ahead(Step(s, e), w, u, m)
    ensures Ahead(s, w, u, m)
  {
    if w == e.w && (e.InsertMember? || e.SkipMember?) {
      var rest := s.workers[w].at.rest;
      assert forall x :: x in rest[1..] ==> x in rest;
    }
  }

  lemma AheadByOthers(s: State, e: Event, w: WorkerId, u: MsgId, m: User)
    requires BrokerInv(s.broker, s.workers) && Enabled(s, e) && !WorkEvent(e) && u !in s.broker.queue
    requires Ahead(Step(s, e), w, u, m)
    ensures Ahead(s, w, u, m)
  {
  }

  lemma UnsettledOrigin(s: State, e: Event, u: MsgId)
    requires Enabled(s, e) && u in s.broker.uploads && s.broker.uploads.Keys <= s.broker.used
    requires Unsettled(Step(s, e), u)
    ensures Unsettled(s, u) && Step(s, e).broker.uploads[u] == s.broker.uploads[u]
  {
    if WorkEvent(e) {
      assert Step(s, e).broker == s.broker.(used := Step(s, e).broker.used);
    }
  }

  // Once nobody can store a row for (u, m) again, the rows stay what they are.
  lemma NoNewRow(s: State, e: Event, row: MsgId, u: MsgId, m: User)
    requires Inv(s) && TrailInv(s) && Enabled(s, e) && GroupRow(Step(s, e), row, u, m)
    requires !(exists w :: Ahead(s, w, u, m))
    ensures GroupRow(s, row, u, m)
  {
    if e.InsertMember? {
      assert e.id !in s.store.rows by { KnownRows(s); }
      assert s.workers[e.w].upload == u ==> !Ahead(s, e.w, u, m);
    }
    if row in s.trail.origin {
      assert OriginInv(s, row);
      RowStays(s, e, row);
    }
  }

  lemma GroupUpload(s: State, row: MsgId, u: MsgId, m: User)
    requires TrailInv(s) && GroupRow(s, row, u, m)
    ensures u in s.broker.uploads && s.broker.uploads[u].kind.Group? && s.broker.uploads[u].sender != m
  {
    assert OriginInv(s, row);
    assert ListInv(s, s.trail.origin[row].w);
  }

  lemma GroupRowStays(s: State, e: Event, row: MsgId, u: MsgId, m: User)
    requires Inv(s) && TrailInv(s) && Enabled(s, e) && GroupRow(s, row, u, m)
    ensures GroupRow(Step(s, e), row, u, m)
  {
    RowStays(s, e, row);
    assert OriginInv(s, row);
    if e.InsertMember? {
      KnownRows(s);
    }
  }

  lemma StaysSingle(s: State, e: Event, row: MsgId, u: MsgId, m: User)
    requires Inv(s) && TrailInv(s) && Enabled(s, e) && GroupRow(s, row, u, m)
    requires !Doubled(s, u, m) && !CanStoreAgain(s, u, m)
    ensures GroupRow(Step(s, e), row, u, m)
    ensures !Doubled(Step(s, e), u, m) && !CanStoreAgain(Step(s, e), u, m)
  {
    var s' := Step(s, e);
    GroupRowStays(s, e, row, u, m);
    GroupUpload(s, row, u, m);
    forall r, q | GroupRow(s', r, u, m) && GroupRow(s', q, u, m) ensures r == q {
      NoNewRow(s, e, r, u, m);
      NoNewRow(s, e, q, u, m);
    }
    if Unsettled(s', u) {
      UnsettledOrigin(s, e, u);
    }
    forall w | Ahead(s', w, u, m) ensures Ahead(s, w, u, m) {
      if WorkEvent(e) {
        AheadByWork(s, e, w, u, m);
      } else {
        AheadByOthers(s, e, w, u, m);
      }
    }
  }

  lemma {:induction false} SingleForEver(s: State, more: seq<Event>, s': State, row: MsgId, u: MsgId, m: User)
    requires Inv(s) && TrailInv(s) && RunFrom(s, more) == Some(s') && GroupRow(s, row, u, m)
    requires !Doubled(s, u, m) && !CanStoreAgain(s, u, m)
    ensures Inv(s') && TrailInv(s') && GroupRow(s', row, u, m)
    ensures !Doubled(s', u, m) && !CanStoreAgain(s', u, m)
  {
    if more != [] {
      var before, e := RunFrom(s, more[..|more| - 1]).value, more[|more| - 1];
      SingleForEver(s, more[..|more| - 1], before, row, u, m);
      InvPreserved(before, e);
      TrailPreserved(before, e);
      StaysSingle(before, e, row, u, m);
    }
  }

  // Worker w of the group message u is on its way through a list that has m.
  predicate OnTheWay(s: State, w: WorkerId, u: MsgId, m: User) {
    && Works(s, w) && s.workers[w].upload == u && UploadOf(s, w).kind.Group? && UploadOf(s, w).sender != m
    && s.workers[w].at.Members? && m in s.workers[w].at.rest
  }

  lemma {:induction false} CanStoreNow(s0: State, before: seq<Event>, s: State, w: WorkerId,
                                       row: MsgId, u: MsgId, m: User)
    returns (more: seq<Event>, s': State)
    requires RunFrom(s0, before) == Some(s) && s.store.rows.Keys <= s.broker.used
    requires OnTheWay(s, w, u, m) && GroupRow(s, row, u, m)
    ensures RunFrom(s0, more) == Some(s') && Doubled(s', u, m)
    decreases if w < |s.workers| && s.workers[w].at.Members? then |s.workers[w].at.rest| else 0
  {
    var rest := s.workers[w].at.rest;
    if rest[0] == m {
      var id := IntSets.FreshNumber(s.broker.used);
      more, s' := Then(s0, before, s, InsertMember(w, id, true));
      assert GroupRow(s', id, u, m) && GroupRow(s', row, u, m);
    } else {
      more, s' := Then(s0, before, s, SkipMember(w));
      more, s' := CanStoreNow(s0, more, s', w, row, u, m);
    }
  }

  // From the row it is handling a worker comes back to its list.
  lemma CanGoOn(s: State, w: WorkerId, row: MsgId, u: MsgId, m: User) returns (more: seq<Event>, s': State)
    requires Inv(s) && GroupRow(s, row, u, m) && Works(s, w) && s.workers[w].upload == u
    requires UploadOf(s, w).kind.Group? && UploadOf(s, w).sender != m
    requires s.workers[w].at.Handling? && m in s.workers[w].at.rest
    ensures RunFrom(s, more) == Some(s') && s'.store.rows.Keys <= s'.broker.used
    ensures OnTheWay(s', w, u, m) && GroupRow(s', row, u, m)
  {
    KnownRows(s);
    assert WorkerInv(s, w);
    if s.store.fate[s.workers[w].at.row] == Undecided(w) {
      more, s' := Then(s, [], s, LookUp(w, false));
    } else {
      more, s' := Then(s, [], s, Push(w, false));
    }
  }

  lemma CanBeDeliveredAgain(s: State, row: MsgId, u: MsgId, m: User, list: seq<User>)
    returns (more: seq<Event>, s': State)
    requires Inv(s) && GroupRow(s, row, u, m) && Unsettled(s, u)
    requires u in s.broker.uploads && s.broker.uploads[u].kind.Group? && s.broker.uploads[u].sender != m && m in list
    ensures RunFrom(s, more) == Some(s') && s'.store.rows.Keys <= s'.broker.used
    ensures OnTheWay(s', |s.workers|, u, m) && GroupRow(s', row, u, m)
  {
    KnownRows(s);
    var w := |s.workers|;
    more, s' := [], s;
    if u in s.broker.holder {
      more, s' := Then(s, [], s, TakeBack(u));
    }
    more, s' := Then(s, more, s', Deliver(u));
    more, s' := Then(s, more, s', FetchMembers(w, list));
  }

  lemma CanBeDoubled(s: State, row: MsgId, u: MsgId, m: User) returns (more: seq<Event>, s': State)
    requires Inv(s) && TrailInv(s) && GroupRow(s, row, u, m) && CanStoreAgain(s, u, m)
    ensures RunFrom(s, more) == Some(s') && Doubled(s', u, m)
  {
    GroupUpload(s, row, u, m);
    KnownRows(s);
    var w: WorkerId;
    if Unsettled(s, u) {
      w := |s.workers|;
      assert OriginInv(s, row);
      more, s' := CanBeDeliveredAgain(s, row, u, m, s.trail.lists[s.trail.origin[row].w]);
    } else {
      w :| Ahead(s, w, u, m);
      assert WorkerInv(s, w);
      if s.workers[w].at.Start? {
        more, s' := Then(s, [], s, FetchMembers(w, [m]));
      } else if s.workers[w].at.Handling? {
        more, s' := CanGoOn(s, w, row, u, m);
      } else {
        more, s' := [], s;
      }
    }
    more, s' := CanStoreNow(s, more, s', w, row, u, m);
  }

  // In any reachable state in which a group message has a row for a member, it
  // can get another one for the same member if and only if its delivery is not
  // settled, or some worker of it still has the member before it: one that the
  // delivery was taken back from goes on all the same.
  lemma {:induction false} GroupMessageCanBeDoubledIff(events: seq<Event>, s: State, row: MsgId, u: MsgId, m: User)
    requires Run(events) == Some(s) && GroupRow(s, row, u, m) && !Doubled(s, u, m)
    ensures (exists more: seq<Event>, s': State :: RunFrom(s, more) == Some(s') && Doubled(s', u, m))
            <==> CanStoreAgain(s, u, m)
  {
    RunTrail(events, s);
    if CanStoreAgain(s, u, m) {
      var more, s' := CanBeDoubled(s, row, u, m);
    } else {
      forall more: seq<Event>, s': State | RunFrom(s, more) == Some(s') ensures !Doubled(s', u, m) {
        SingleForEver(s, more, s', row, u, m);
      }
    }
  }

  // So any group message can be stored twice for any member but its sender: its
  // worker crashes in the middle of the fan-out.
  lemma GroupMessageIsDoubled(u: Upload, m: User) returns (events: seq<Event>, s: State)
    requires u.kind.Group? && u.sender != m
    ensures Run(events) == Some(s) && Doubled(s, 1, m) && s.broker.uploads == map[1 := u]
  {
    events, s := GroupIsFetched(u, m);
    events, s := FirstRowIsStored(events, s, u, m);
    events, s := StoredAgain(events, s, u, m);
  }

  lemma GroupIsFetched(u: Upload, m: User) returns (events: seq<Event>, s: State)
    requires u.kind.Group? && u.sender != m
    ensures Run(events) == Some(s) && s.broker.uploads == map[1 := u] && s.broker.holder == map[1 := 0]
    ensures s.broker.used == {1} && s.workers == [Worker(1, Members([m]))] && s.store == INITIAL.store
    ensures s.trail == Trail(map[], map[0 := [m]])
  {
    events, s := Then(INITIAL, [], INITIAL, Publish(1, u, true, true));
    events, s := Then(INITIAL, events, s, Deliver(1));
    assert s.workers == [Worker(1, Start)];
    events, s := Then(INITIAL, events, s, FetchMembers(0, [m]));
  }

  lemma FirstRowIsStored(before: seq<Event>, s: State, u: Upload, m: User) returns (events: seq<Event>, s': State)
    requires Run(before) == Some(s) && u.kind.Group? && u.sender != m
    requires s.broker.uploads == map[1 := u] && s.broker.holder == map[1 := 0] && s.broker.used == {1}
    requires s.workers == [Worker(1, Members([m]))] && s.store == INITIAL.store
             && s.trail == Trail(map[], map[0 := [m]])
    ensures Run(events) == Some(s') && GroupRow(s', 2, 1, m) && 1 in s'.broker.holder && 3 !in s'.broker.used
    ensures s'.broker.uploads == map[1 := u]
  {
    events, s' := Then(INITIAL, before, s, InsertMember(0, 2, true));
    events, s' := Then(INITIAL, events, s', Crash(0));
  }

  lemma StoredAgain(before: seq<Event>, s: State, u: Upload, m: User) returns (events: seq<Event>, s': State)
    requires Run(before) == Some(s) && GroupRow(s, 2, 1, m) && 1 in s.broker.holder && 3 !in s.broker.used
    requires s.broker.uploads == map[1 := u] && u.kind.Group? && u.sender != m
    ensures Run(events) == Some(s') && Doubled(s', 1, m) && s'.broker.uploads == map[1 := u]
  {
    RunInv(before, s);
    KnownRows(s);
    var w := |s.workers|;
    events, s' := Then(INITIAL, before, s, TakeBack(1));
    events, s' := Then(INITIAL, events, s', Deliver(1));
    events, s' := Then(INITIAL, events, s', FetchMembers(w, [m]));
    events, s' := Then(INITIAL, events, s', InsertMember(w, 3, true));
    assert GroupRow(s', 3, 1, m) && GroupRow(s', 2, 1, m);
  }
}
