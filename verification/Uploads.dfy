// Uploads on their way from the queue into the message table and down to the
// gateway, as a transition system.
//
// The broker may take a delivery back from a worker at any time and hand it to
// another one while the first goes on; workers may crash at any point. What a
// route look-up finds and which receipts arrive is left open here; Delivery
// connects them to the logins.
module Uploads {
  import opened Wrappers
  import opened Messages

  type WorkerId = nat

  datatype Kind = Single | Group | AI

  datatype Upload = Upload(kind: Kind, seqNo: int, sender: User, receiver: User, group: int, content: string)

  // An upload is identified by the message number the gateway drew for it.
  // All but `queue` and `holder` are history: the numbers drawn, the uploads
  // that reached the queue, those that did not, and those acknowledged to their
  // sender.
  datatype Broker = Broker(used: set<MsgId>, uploads: map<MsgId, Upload>, lost: map<MsgId, Upload>, acked: set<MsgId>,
                           queue: set<MsgId>, holder: map<MsgId, WorkerId>)

  // Members: about to store the group's row for rest[0]. Handling: the row is
  // stored, and its receiver's route is being looked up or used.
  datatype Point = Start | Members(rest: seq<User>) | Handling(row: MsgId, rest: seq<User>) | Failed | Done | Gone

  datatype Worker = Worker(upload: MsgId, at: Point)

  // What became of a stored chat row, apart from being read. Lost: its worker
  // stopped between storing it and publishing it down.
  datatype Fate = Undecided(w: WorkerId) | Routed(w: WorkerId) | Pushed | Offline | Lost

  // `fate` and `pushes`, the attempts to publish down, are history.
  datatype Store = Store(rows: Table, fate: map<MsgId, Fate>, pushes: seq<MsgId>, down: set<MsgId>)

  // History of the group messages: which delivery of which upload stored a row,
  // and for which place in the list of members that its worker had fetched.
  datatype Origin = Origin(upload: MsgId, w: WorkerId, place: nat)

  datatype Trail = Trail(origin: map<MsgId, Origin>, lists: map<WorkerId, seq<User>>)

  datatype State = State(broker: Broker, workers: seq<Worker>, store: Store, trail: Trail)

  const INITIAL: State :=
    State(Broker({}, map[], map[], {}, {}, map[]), [], Store(map[], map[], [], {}), Trail(map[], map[]))

  datatype Event =
    // The gateway sees only whether the bytes were written, `ok`; there is no
    // confirmation from the broker that the upload arrived.
    | Publish(id: MsgId, upload: Upload, arrived: bool, ok: bool)
    | Deliver(id: MsgId)
    | TakeBack(id: MsgId)
    | Crash(w: WorkerId)
    // An insert may take effect and yet report an error; `seen` if it does not.
    | InsertUpload(w: WorkerId, seen: bool)
    | StoreError(w: WorkerId)
    | FetchMembers(w: WorkerId, members: seq<User>)
    | InsertMember(w: WorkerId, id: MsgId, seen: bool)
    | SkipMember(w: WorkerId)
    | LookUp(w: WorkerId, online: bool)
    | LookUpError(w: WorkerId)
    | Push(w: WorkerId, ok: bool)
    | Ack(w: WorkerId)
    | Nack(w: WorkerId)
    | Consume(id: MsgId)
    | Receive(receipt: Receipt)

  function UploadOf(s: State, w: WorkerId): Upload
    requires w < |s.workers| && s.workers[w].upload in s.broker.uploads
  {
    s.broker.uploads[s.workers[w].upload]
  }

  predicate Works(s: State, w: WorkerId) {
    w < |s.workers| && s.workers[w].upload in s.broker.uploads
  }

  predicate Handles(s: State, w: WorkerId) {
    Works(s, w) && s.workers[w].at.Handling? && s.workers[w].at.row in s.store.rows
    && s.workers[w].at.row in s.store.fate
  }

  predicate Enabled(s: State, e: Event) {
    match e
    case Publish(id, _, _, _) => id !in s.broker.used
    case Deliver(id) => id in s.broker.queue
    case TakeBack(id) => id in s.broker.holder
    case Crash(w) => w < |s.workers| && !s.workers[w].at.Gone?
    case InsertUpload(w, _) => Works(s, w) && s.workers[w].at.Start? && !UploadOf(s, w).kind.Group?
    case StoreError(w) => Works(s, w) && s.workers[w].at.Start?
    case FetchMembers(w, _) => Works(s, w) && s.workers[w].at.Start? && UploadOf(s, w).kind.Group?
    case InsertMember(w, id, _) =>
      && Works(s, w) && s.workers[w].at.Members? && s.workers[w].at.rest != []
      && s.workers[w].at.rest[0] != UploadOf(s, w).sender && id !in s.broker.used
    case SkipMember(w) => Works(s, w) && s.workers[w].at.Members? && s.workers[w].at.rest != []
    case LookUp(w, _) => Handles(s, w) && s.store.fate[s.workers[w].at.row] == Undecided(w)
    case LookUpError(w) => Handles(s, w) && s.store.fate[s.workers[w].at.row] == Undecided(w)
    case Push(w, _) => Handles(s, w) && s.store.fate[s.workers[w].at.row] == Routed(w)
    case Ack(w) => w < |s.workers| && (s.workers[w].at.Done? || s.workers[w].at == Members([]))
    case Nack(w) => w < |s.workers| && s.workers[w].at.Failed?
    case Consume(id) => id in s.store.down
    case Receive(_) => true
  }

  function MoveTo(s: State, w: WorkerId, at: Point): State
    requires w < |s.workers|
  {
    s.(workers := s.workers[w := s.workers[w].(at := at)])
  }

  // models.NewMessages: only an AI chat is stored as read.
  function RowFor(u: Upload, receiver: User): Row {
    NewRow(u.seqNo, u.sender, receiver, u.group, u.content, u.kind.AI?)
  }

  // Where a worker goes on after the row it was handling.
  function Next(u: Upload, rest: seq<User>): Point {
    if u.kind.Group? then Members(rest) else Done
  }

  function WithFate(store: Store, row: MsgId, fate: Fate): Store {
    store.(fate := store.fate[row := fate])
  }

  // The primary key rejects a redelivered upload that is already stored. A
  // worker that sees an error gives up, although the row may be there.
  function DoInsertUpload(s: State, w: WorkerId, seen: bool): State
    requires Enabled(s, InsertUpload(w, seen))
  {
    var id, u := s.workers[w].upload, UploadOf(s, w);
    match Insert(s.store.rows, id, RowFor(u, u.receiver))
    case None => MoveTo(s, w, Failed)
    case Some(rows) =>
      if u.kind.AI? then MoveTo(s, w, if seen then Done else Failed).(store := s.store.(rows := rows))
      else
        MoveTo(s, w, if seen then Handling(id, []) else Failed).(
          store := WithFate(s.store.(rows := rows), id, if seen then Undecided(w) else Lost))
  }

  // How many places of its list a worker has left behind.
  function Passed(s: State, w: WorkerId): nat
    requires w < |s.workers|
  {
    var n := if w in s.trail.lists then |s.trail.lists[w]| else 0;
    match s.workers[w].at
    case Members(rest) => if |rest| <= n then n - |rest| else 0
    case Handling(_, rest) => if |rest| <= n then n - |rest| else 0
    case _ => n
  }

  // Each member of a group gets a row under a number of its own. After an error
  // the worker goes on with the next member.
  function DoInsertMember(s: State, w: WorkerId, id: MsgId, seen: bool): State
    requires Enabled(s, InsertMember(w, id, seen))
  {
    var rest := s.workers[w].at.rest;
    var s1 := s.(broker := s.broker.(used := s.broker.used + {id}));
    match Insert(s.store.rows, id, RowFor(UploadOf(s, w), rest[0]))
    case None => MoveTo(s1, w, Members(rest[1..]))
    case Some(rows) =>
      MoveTo(s1, w, if seen then Handling(id, rest[1..]) else Members(rest[1..])).(
        store := WithFate(s.store.(rows := rows), id, if seen then Undecided(w) else Lost),
        trail := s.trail.(origin := s.trail.origin[id := Origin(s.workers[w].upload, w, Passed(s, w))]))
  }

  function DoCrash(s: State, w: WorkerId): State
    requires Enabled(s, Crash(w))
  {
    var at := s.workers[w].at;
    MoveTo(s, w, Gone).(store := if at.Handling? then WithFate(s.store, at.row, Lost) else s.store)
  }

  function DoLookUp(s: State, w: WorkerId, online: bool): State
    requires Enabled(s, LookUp(w, online))
  {
    var at := s.workers[w].at;
    if online then s.(store := WithFate(s.store, at.row, Routed(w)))
    else MoveTo(s, w, Next(UploadOf(s, w), at.rest)).(store := WithFate(s.store, at.row, Offline))
  }

  // A failed look-up sends a single chat back to the queue; a group goes on.
  function DoLookUpError(s: State, w: WorkerId): State
    requires Enabled(s, LookUpError(w))
  {
    var at := s.workers[w].at;
    MoveTo(s, w, if UploadOf(s, w).kind.Group? then Members(at.rest) else Failed).(
      store := WithFate(s.store, at.row, Lost))
  }

  // A failed publish is logged and otherwise ignored.
  function DoPush(s: State, w: WorkerId, ok: bool): State
    requires Enabled(s, Push(w, ok))
  {
    var at := s.workers[w].at;
    MoveTo(s, w, Next(UploadOf(s, w), at.rest)).(
      store := WithFate(s.store, at.row, Pushed).(
        pushes := s.store.pushes + [at.row],
        down := if ok then s.store.down + {at.row} else s.store.down))
  }

  // The broker heeds only the worker that still holds the delivery.
  function Settle(s: State, w: WorkerId, requeue: bool): State
    requires w < |s.workers|
  {
    var id := s.workers[w].upload;
    var b := s.broker;
    if id in b.holder && b.holder[id] == w then
      MoveTo(s, w, Gone).(
        broker := b.(holder := b.holder - {id}, queue := if requeue then b.queue + {id} else b.queue))
    else MoveTo(s, w, Gone)
  }

  function Published(b: Broker, id: MsgId, u: Upload, arrived: bool, ok: bool): Broker {
    var b1 := b.(used := b.used + {id}, acked := if ok then b.acked + {id} else b.acked);
    if arrived then b1.(uploads := b.uploads[id := u], queue := b.queue + {id})
    else b1.(lost := b.lost[id := u])
  }

  function DoFetch(s: State, w: WorkerId, members: seq<User>): State
    requires w < |s.workers|
  {
    MoveTo(s, w, Members(members)).(trail := s.trail.(lists := s.trail.lists[w := members]))
  }

  function Step(s: State, e: Event): State
    requires Enabled(s, e)
  {
    var b := s.broker;
    match e
    case Publish(id, u, arrived, ok) => s.(broker := Published(b, id, u, arrived, ok))
    case Deliver(id) =>
      s.(broker := b.(queue := b.queue - {id}, holder := b.holder[id := |s.workers|]),
         workers := s.workers + [Worker(id, Start)])
    case TakeBack(id) => s.(broker := b.(holder := b.holder - {id}, queue := b.queue + {id}))
    case Crash(w) => DoCrash(s, w)
    case InsertUpload(w, seen) => DoInsertUpload(s, w, seen)
    case StoreError(w) => MoveTo(s, w, Failed)
    case FetchMembers(w, members) => DoFetch(s, w, members)
    case InsertMember(w, id, seen) => DoInsertMember(s, w, id, seen)
    case SkipMember(w) => MoveTo(s, w, Members(s.workers[w].at.rest[1..]))
    case LookUp(w, online) => DoLookUp(s, w, online)
    case LookUpError(w) => DoLookUpError(s, w)
    case Push(w, ok) => DoPush(s, w, ok)
    case Ack(w) => Settle(s, w, false)
    case Nack(w) => Settle(s, w, true)
    case Consume(id) => s.(store := s.store.(down := s.store.down - {id}))
    case Receive(r) => s.(store := s.store.(rows := Update(s.store.rows, r)))
  }

  // --- The inductive invariant -------------------------------------------------

  ghost predicate BrokerInv(b: Broker, workers: seq<Worker>) {
    && b.uploads.Keys <= b.used && b.lost.Keys <= b.used && b.uploads.Keys !! b.lost.Keys
    && b.acked <= b.uploads.Keys + b.lost.Keys && b.queue <= b.uploads.Keys && b.queue !! b.holder.Keys
    && (forall id <- b.holder :: id in b.uploads && b.holder[id] < |workers| && workers[b.holder[id]].upload == id)
  }

  // A worker past its insert has its upload stored; one that handles a row owns that row's fate.
  ghost predicate WorkerInv(s: State, w: WorkerId)
    requires w < |s.workers|
  {
    var worker := s.workers[w];
    && worker.upload in s.broker.uploads
    && (!UploadOf(s, w).kind.Group? ==>
          && !worker.at.Members?
          && (worker.at.Handling? || worker.at.Done? ==> worker.upload in s.store.rows)
          && (worker.at.Handling? ==> worker.at.row == worker.upload))
    && (worker.at.Handling? ==>
          && worker.at.row in s.store.fate
          && (s.store.fate[worker.at.row] == Undecided(w) || s.store.fate[worker.at.row] == Routed(w)))
  }

  // Equal but for the receipts.
  predicate SameMessage(a: Row, b: Row) {
    a.(isRead := b.isRead, status := b.status) == b
  }

  // Nothing published is forgotten before it is stored, and what is stored is it.
  ghost predicate UploadInv(b: Broker, rows: Table, id: MsgId)
    requires id in b.uploads
  {
    var u := b.uploads[id];
    && (!u.kind.Group? ==> id in b.queue || id in b.holder || id in rows)
    && (id in rows ==> !u.kind.Group? && SameMessage(rows[id], RowFor(u, u.receiver)))
  }

  ghost predicate FateInv(s: State, row: MsgId)
    requires row in s.store.fate
  {
    var fate := s.store.fate[row];
    && row in s.store.rows
    && (fate.Undecided? || fate.Routed? ==>
          fate.w < |s.workers| && s.workers[fate.w].at.Handling? && s.workers[fate.w].at.row == row)
  }

  ghost predicate RowInv(s: State, id: MsgId)
    requires id in s.store.rows
  {
    var row := s.store.rows[id];
    && id in s.broker.used
    && (if id in s.store.fate then ChatRow(row) else AIRow(row))
  }

  // Nothing is stored for an upload that did not reach the queue.
  ghost predicate LostInv(s: State, id: MsgId) {
    id in s.broker.lost ==> id !in s.store.rows
  }

  // Exactly the rows whose fate is Pushed have been published down, once each.
  ghost predicate PushInv(store: Store) {
    && (forall k: nat :: k < |store.pushes| ==> store.pushes[k] in store.fate && store.fate[store.pushes[k]].Pushed?)
    && (forall k: nat, l: nat :: k < l < |store.pushes| ==> store.pushes[k] != store.pushes[l])
    && (forall id <- store.down :: id in store.pushes)
  }

  ghost predicate Inv(s: State) {
    && BrokerInv(s.broker, s.workers) && PushInv(s.store)
    && (forall w: WorkerId :: w < |s.workers| ==> WorkerInv(s, w))
    && (forall id <- s.broker.uploads :: UploadInv(s.broker, s.store.rows, id))
    && (forall id <- s.store.fate :: FateInv(s, id))
    && (forall id <- s.store.rows :: RowInv(s, id))
    && (forall id <- s.broker.lost :: LostInv(s, id))
  }

  lemma InvInitially()
    ensures Inv(INITIAL)
  {
  }

  // A worker stores a row; it learns what becomes of the row it has stored; or
  // it only moves on.
  predicate InsertEvent(e: Event) {
    e.InsertUpload? || e.InsertMember?
  }

  predicate NotifyEvent(e: Event) {
    e.LookUp? || e.LookUpError? || e.Push? || e.Crash?
  }

  predicate MoveEvent(e: Event) {
    e.StoreError? || e.FetchMembers? || e.SkipMember?
  }

  predicate WorkEvent(e: Event) {
    InsertEvent(e) || NotifyEvent(e) || MoveEvent(e)
  }

  lemma BrokerByWork(s: State, e: Event)
    requires BrokerInv(s.broker, s.workers) && Enabled(s, e) && WorkEvent(e)
    ensures BrokerInv(Step(s, e).broker, Step(s, e).workers)
  {
    var s' := Step(s, e);
    assert s'.broker == s.broker.(used := s'.broker.used) && s.broker.used <= s'.broker.used;
    assert forall w: WorkerId :: w < |s.workers| ==> s'.workers[w].upload == s.workers[w].upload;
  }

  lemma BrokerByOthers(s: State, e: Event)
    requires BrokerInv(s.broker, s.workers) && Enabled(s, e) && !WorkEvent(e)
    ensures BrokerInv(Step(s, e).broker, Step(s, e).workers)
  {
  }

  lemma WorkerByInsert(s: State, e: Event, w: WorkerId)
    requires Enabled(s, e) && InsertEvent(e)
    requires w < |s.workers| && WorkerInv(s, w) && WorkerInv(s, e.w)
    requires s.store.fate.Keys <= s.store.rows.Keys
    ensures WorkerInv(Step(s, e), w)
  {
  }

  lemma WorkerByNotify(s: State, e: Event, w: WorkerId)
    requires Enabled(s, e) && NotifyEvent(e)
    requires w < |s.workers| && WorkerInv(s, w) && WorkerInv(s, e.w)
    ensures WorkerInv(Step(s, e), w)
  {
  }

  lemma WorkerByMove(s: State, e: Event, w: WorkerId)
    requires Enabled(s, e) && MoveEvent(e)
    requires w < |s.workers| && WorkerInv(s, w) && WorkerInv(s, e.w)
    ensures WorkerInv(Step(s, e), w)
  {
  }

  lemma WorkerByOthers(s: State, e: Event, w: WorkerId)
    requires Enabled(s, e) && !WorkEvent(e)
    requires w < |Step(s, e).workers| && (w < |s.workers| ==> WorkerInv(s, w))
    requires BrokerInv(s.broker, s.workers)
    ensures WorkerInv(Step(s, e), w)
  {
  }

  lemma UploadByInsert(s: State, e: Event, id: MsgId)
    requires Enabled(s, e) && InsertEvent(e)
    requires id in s.broker.uploads && UploadInv(s.broker, s.store.rows, id)
    requires BrokerInv(s.broker, s.workers)
    ensures UploadInv(Step(s, e).broker, Step(s, e).store.rows, id)
  {
  }

  lemma UploadByOtherWork(s: State, e: Event, id: MsgId)
    requires Enabled(s, e) && WorkEvent(e) && !InsertEvent(e)
    requires id in s.broker.uploads && UploadInv(s.broker, s.store.rows, id)
    ensures UploadInv(Step(s, e).broker, Step(s, e).store.rows, id)
  {
    assert Step(s, e).broker == s.broker && Step(s, e).store.rows == s.store.rows;
  }

  lemma UploadByOthers(s: State, e: Event, id: MsgId)
    requires Enabled(s, e) && !WorkEvent(e)
    requires id in Step(s, e).broker.uploads && (id in s.broker.uploads ==> UploadInv(s.broker, s.store.rows, id))
    requires s.store.rows.Keys <= s.broker.used
    requires e.Ack? ==> WorkerInv(s, e.w)
    ensures UploadInv(Step(s, e).broker, Step(s, e).store.rows, id)
  {
  }

  lemma FateByInsert(s: State, e: Event, id: MsgId)
    requires Enabled(s, e) && InsertEvent(e)
    requires id in Step(s, e).store.fate && (id in s.store.fate ==> FateInv(s, id))
    requires WorkerInv(s, e.w)
    ensures FateInv(Step(s, e), id)
  {
  }

  lemma FateByNotify(s: State, e: Event, id: MsgId)
    requires Enabled(s, e) && NotifyEvent(e)
    requires id in Step(s, e).store.fate && (id in s.store.fate ==> FateInv(s, id))
    requires WorkerInv(s, e.w)
    ensures FateInv(Step(s, e), id)
  {
  }

  lemma FateByOthers(s: State, e: Event, id: MsgId)
    requires Enabled(s, e) && !InsertEvent(e) && !NotifyEvent(e)
    requires id in Step(s, e).store.fate && (id in s.store.fate ==> FateInv(s, id))
    requires MoveEvent(e) || e.Ack? || e.Nack? ==> WorkerInv(s, e.w)
    ensures FateInv(Step(s, e), id)
  {
  }

  lemma RowByInsert(s: State, e: Event, id: MsgId)
    requires Enabled(s, e) && InsertEvent(e)
    requires id in Step(s, e).store.rows && (id in s.store.rows ==> RowInv(s, id))
    requires BrokerInv(s.broker, s.workers) && s.store.fate.Keys <= s.store.rows.Keys
    requires WorkerInv(s, e.w)
    ensures RowInv(Step(s, e), id)
  {
  }

  lemma RowByNotify(s: State, e: Event, id: MsgId)
    requires Enabled(s, e) && NotifyEvent(e)
    requires id in s.store.rows && RowInv(s, id) && WorkerInv(s, e.w)
    ensures id in Step(s, e).store.rows && RowInv(Step(s, e), id)
  {
  }

  lemma RowByOthers(s: State, e: Event, id: MsgId)
    requires Enabled(s, e) && !InsertEvent(e) && !NotifyEvent(e)
    requires id in s.store.rows && RowInv(s, id)
    ensures id in Step(s, e).store.rows && RowInv(Step(s, e), id)
  {
  }

  lemma LostByInsert(s: State, e: Event, id: MsgId)
    requires Enabled(s, e) && InsertEvent(e) && BrokerInv(s.broker, s.workers) && WorkerInv(s, e.w)
    requires id in s.broker.lost && LostInv(s, id)
    ensures LostInv(Step(s, e), id)
  {
  }

  lemma LostByOthers(s: State, e: Event, id: MsgId)
    requires Enabled(s, e) && !InsertEvent(e)
    requires id in Step(s, e).broker.lost && (id in s.broker.lost ==> LostInv(s, id))
    requires s.store.rows.Keys <= s.broker.used
    ensures LostInv(Step(s, e), id)
  {
  }

  lemma PushByInsert(s: State, e: Event)
    requires PushInv(s.store) && Enabled(s, e) && InsertEvent(e)
    requires s.store.fate.Keys <= s.store.rows.Keys
    ensures PushInv(Step(s, e).store)
  {
  }

  lemma PushByNotify(s: State, e: Event)
    requires PushInv(s.store) && Enabled(s, e) && NotifyEvent(e) && WorkerInv(s, e.w)
    ensures PushInv(Step(s, e).store)
  {
    if e.Push? {
      assert Step(s, e).store.pushes == s.store.pushes + [s.workers[e.w].at.row];
    }
  }

  lemma PushByOthers(s: State, e: Event)
    requires PushInv(s.store) && Enabled(s, e) && !InsertEvent(e) && !NotifyEvent(e)
    ensures PushInv(Step(s, e).store)
  {
  }

  lemma PushPreserved(s: State, e: Event)
    requires Inv(s) && Enabled(s, e)
    ensures PushInv(Step(s, e).store)
  {
    KnownRows(s);
    if InsertEvent(e) {
      PushByInsert(s, e);
    } else if NotifyEvent(e) {
      PushByNotify(s, e);
    } else {
      PushByOthers(s, e);
    }
  }

  // Rows have fates, and numbers drawn for them.
  lemma KnownRows(s: State)
    requires Inv(s)
    ensures s.store.fate.Keys <= s.store.rows.Keys && s.store.rows.Keys <= s.broker.used
  {
    forall id <- s.store.fate ensures id in s.store.rows {
      assert FateInv(s, id);
    }
    forall id <- s.store.rows ensures id in s.broker.used {
      assert RowInv(s, id);
    }
  }

  lemma WorkersPreserved(s: State, e: Event)
    requires Inv(s) && Enabled(s, e)
    ensures forall w: WorkerId :: w < |Step(s, e).workers| ==> WorkerInv(Step(s, e), w)
  {
    KnownRows(s);
    forall w: WorkerId | w < |Step(s, e).workers| ensures WorkerInv(Step(s, e), w) {
      if InsertEvent(e) {
        WorkerByInsert(s, e, w);
      } else if NotifyEvent(e) {
        WorkerByNotify(s, e, w);
      } else if MoveEvent(e) {
        WorkerByMove(s, e, w);
      } else {
        WorkerByOthers(s, e, w);
      }
    }
  }

  lemma UploadsPreserved(s: State, e: Event)
    requires Inv(s) && Enabled(s, e)
    ensures forall id <- Step(s, e).broker.uploads :: UploadInv(Step(s, e).broker, Step(s, e).store.rows, id)
  {
    KnownRows(s);
    forall id <- Step(s, e).broker.uploads ensures UploadInv(Step(s, e).broker, Step(s, e).store.rows, id) {
      if InsertEvent(e) {
        UploadByInsert(s, e, id);
      } else if WorkEvent(e) {
        UploadByOtherWork(s, e, id);
      } else {
        UploadByOthers(s, e, id);
      }
    }
  }

  lemma FatesPreserved(s: State, e: Event)
    requires Inv(s) && Enabled(s, e)
    ensures forall id <- Step(s, e).store.fate :: FateInv(Step(s, e), id)
  {
    forall id <- Step(s, e).store.fate ensures FateInv(Step(s, e), id) {
      if InsertEvent(e) {
        FateByInsert(s, e, id);
      } else if NotifyEvent(e) {
        FateByNotify(s, e, id);
      } else {
        FateByOthers(s, e, id);
      }
    }
  }

  lemma RowsPreserved(s: State, e: Event)
    requires Inv(s) && Enabled(s, e)
    ensures forall id <- Step(s, e).store.rows :: RowInv(Step(s, e), id)
  {
    KnownRows(s);
    forall id <- Step(s, e).store.rows ensures RowInv(Step(s, e), id) {
      if InsertEvent(e) {
        RowByInsert(s, e, id);
      } else if NotifyEvent(e) {
        RowByNotify(s, e, id);
      } else {
        RowByOthers(s, e, id);
      }
    }
  }

  lemma LossesPreserved(s: State, e: Event)
    requires Inv(s) && Enabled(s, e)
    ensures forall id <- Step(s, e).broker.lost :: LostInv(Step(s, e), id)
  {
    KnownRows(s);
    forall id <- Step(s, e).broker.lost ensures LostInv(Step(s, e), id) {
      if InsertEvent(e) {
        LostByInsert(s, e, id);
      } else {
        LostByOthers(s, e, id);
      }
    }
  }

  lemma InvPreserved(s: State, e: Event)
    requires Inv(s) && Enabled(s, e)
    ensures Inv(Step(s, e))
  {
    if WorkEvent(e) {
      BrokerByWork(s, e);
    } else {
      BrokerByOthers(s, e);
    }
    PushPreserved(s, e);
    WorkersPreserved(s, e);
    UploadsPreserved(s, e);
    FatesPreserved(s, e);
    RowsPreserved(s, e);
    LossesPreserved(s, e);
  }

  // --- Runs --------------------------------------------------------------------

  function RunFrom(s: State, events: seq<Event>): Option<State> {
    if events == [] then Some(s)
    else
      var before := RunFrom(s, events[..|events| - 1]);
      var e := events[|events| - 1];
      if before.Some? && Enabled(before.value, e) then Some(Step(before.value, e)) else None
  }

  function Run(events: seq<Event>): Option<State> {
    RunFrom(INITIAL, events)
  }

  lemma Then(s0: State, events: seq<Event>, s: State, e: Event) returns (events': seq<Event>, s': State)
    requires RunFrom(s0, events) == Some(s) && Enabled(s, e)
    ensures s' == Step(s, e) && RunFrom(s0, events') == Some(s')
  {
    events', s' := events + [e], Step(s, e);
    assert events'[..|events|] == events;
  }

  lemma {:induction false} RunsConcat(s0: State, a: seq<Event>, s1: State, b: seq<Event>, s2: State)
    requires RunFrom(s0, a) == Some(s1) && RunFrom(s1, b) == Some(s2)
    ensures RunFrom(s0, a + b) == Some(s2)
  {
    if b == [] {
      assert a + b == a;
    } else {
      assert (a + b)[..|a + b| - 1] == a + b[..|b| - 1];
      RunsConcat(s0, a, s1, b[..|b| - 1], RunFrom(s1, b[..|b| - 1]).value);
    }
  }

  lemma {:induction false} RunInv(events: seq<Event>, s: State)
    requires Run(events) == Some(s)
    ensures Inv(s)
  {
    if events != [] {
      RunInv(events[..|events| - 1], Run(events[..|events| - 1]).value);
      InvPreserved(Run(events[..|events| - 1]).value, events[|events| - 1]);
    }
  }

  // Where an upload that is not a group's can be found.
  predicate Kept(s: State, id: MsgId) {
    id in s.broker.queue || id in s.broker.holder || id in s.store.rows
  }

  function UploadNamed(b: Broker, id: MsgId): Upload
    requires id in b.uploads || id in b.lost
  {
    if id in b.uploads then b.uploads[id] else b.lost[id]
  }

  // Whatever crashes and is redelivered: a single or AI chat that was
  // acknowledged to its sender is waiting, with a worker or stored if and only
  // if it reached the queue; and what is stored under its number is that message.
  lemma AcknowledgedIsKeptIffItArrived(events: seq<Event>, s: State, id: MsgId)
    requires Run(events) == Some(s) && id in s.broker.acked
    ensures id in s.broker.uploads || id in s.broker.lost
    ensures var u := UploadNamed(s.broker, id);
            && (!u.kind.Group? ==> (Kept(s, id) <==> id in s.broker.uploads))
            && (id in s.store.rows ==>
                  var row := s.store.rows[id];
                  && !u.kind.Group? && row.seqNo == u.seqNo && row.sender == u.sender && row.receiver == u.receiver
                  && row.group == u.group && row.content == u.content)
  {
    RunInv(events, s);
    if id in s.broker.uploads {
      assert UploadInv(s.broker, s.store.rows, id);
    } else {
      assert LostInv(s, id);
    }
  }

  // A message can be acknowledged and lost: its bytes were written, but the
  // connection broke, or no queue was bound yet. It is kept nowhere, ever.
  lemma AcknowledgedUploadCanBeLost(u: Upload) returns (events: seq<Event>, s: State)
    ensures Run(events) == Some(s) && 1 in s.broker.acked && s.broker.lost == map[1 := u]
    ensures forall more: seq<Event>, s': State :: RunFrom(s, more) == Some(s') ==> !Kept(s', 1)
  {
    events, s := Then(INITIAL, [], INITIAL, Publish(1, u, false, true));
    RunInv(events, s);
    forall more: seq<Event>, s': State | RunFrom(s, more) == Some(s') ensures !Kept(s', 1) {
      LostIsForEver(s, more, s', 1);
    }
  }

  lemma {:induction false} LostIsForEver(s: State, more: seq<Event>, s': State, id: MsgId)
    requires Inv(s) && id in s.broker.lost && RunFrom(s, more) == Some(s')
    ensures Inv(s') && id in s'.broker.lost && !Kept(s', id)
  {
    if more != [] {
      var before := RunFrom(s, more[..|more| - 1]).value;
      LostIsForEver(s, more[..|more| - 1], before, id);
      InvPreserved(before, more[|more| - 1]);
      LostStaysLost(before, more[|more| - 1], id);
    }
    assert LostInv(s', id);
  }

  lemma LostStaysLost(s: State, e: Event, id: MsgId)
    requires Enabled(s, e) && id in s.broker.lost && s.broker.lost.Keys <= s.broker.used
    ensures id in Step(s, e).broker.lost
  {
  }

  lemma RowStays(s: State, e: Event, id: MsgId)
    requires Enabled(s, e) && id in s.store.rows
    ensures id in Step(s, e).store.rows && SameMessage(Step(s, e).store.rows[id], s.store.rows[id])
  {
    if !InsertEvent(e) && !e.Receive? {
      assert Step(s, e).store.rows == s.store.rows;
    }
  }

  // A message is stored once and for all: no continuation replaces or removes
  // it, or changes more of it than the receipts do.
  lemma {:induction false} StoredOnce(s: State, more: seq<Event>, s': State, id: MsgId)
    requires Inv(s) && RunFrom(s, more) == Some(s') && id in s.store.rows
    ensures Inv(s') && id in s'.store.rows && SameMessage(s'.store.rows[id], s.store.rows[id])
  {
    if more != [] {
      var before := RunFrom(s, more[..|more| - 1]).value;
      StoredOnce(s, more[..|more| - 1], before, id);
      InvPreserved(before, more[|more| - 1]);
      RowStays(before, more[|more| - 1], id);
    }
  }

  // A worker that has found a route goes on to publish, unless it crashes.
  lemma RoutedIsPublished(s: State, e: Event, row: MsgId, w: WorkerId)
    requires Inv(s) && Enabled(s, e) && row in s.store.fate && s.store.fate[row] == Routed(w)
    ensures row in Step(s, e).store.fate
    ensures var fate := Step(s, e).store.fate[row];
            && (e.Push? && e.w == w ==> fate == Pushed)
            && (e == Crash(w) ==> fate == Lost)
            && ((e.Push? && e.w == w) || e == Crash(w) || fate == Routed(w))
  {
    assert FateInv(s, row);
    if NotifyEvent(e) || MoveEvent(e) || InsertEvent(e) {
      assert WorkerInv(s, e.w);
    }
  }

  // A message is published down at most once in a whole run, redeliveries
  // included, and only when it is stored.
  lemma PublishedDownAtMostOnce(events: seq<Event>, s: State, k: nat, l: nat)
    requires Run(events) == Some(s) && k < |s.store.pushes| && l < |s.store.pushes|
    ensures s.store.pushes[k] == s.store.pushes[l] ==> k == l
    ensures s.store.pushes[k] in s.store.rows && ChatRow(s.store.rows[s.store.pushes[k]])
  {
    RunInv(events, s);
    assert FateInv(s, s.store.pushes[k]);
    assert RowInv(s, s.store.pushes[k]);
  }
}
