// The message table and the guarded updates that the receipts perform on it.
module Messages {
  import opened Wrappers

  type MsgId = int
  type User = int

  // send_status: stored, handed to the receiver's connection, confirmed.
  const UNSENT: int := 0
  const SENT_UNCONFIRMED: int := 1
  const SENT_CONFIRMED: int := 2

  datatype Row = Row(seqNo: int, sender: User, receiver: User, group: int, content: string, isRead: bool, status: int)

  type Table = map<MsgId, Row>

  function NewRow(seqNo: int, sender: User, receiver: User, group: int, content: string, isRead: bool): Row {
    Row(seqNo, sender, receiver, group, content, isRead, UNSENT)
  }

  // msg_id is the primary key.
  function Insert(t: Table, id: MsgId, row: Row): Option<Table> {
    if id in t then None else Some(t[id := row])
  }

  function Unread(t: Table, receiver: User): set<MsgId> {
    set id | id in t && t[id].receiver == receiver && !t[id].isRead
  }

  // The three receipts: a login marks all of a receiver's rows, a client
  // acknowledges one row, a gateway reports that it handed one row on.
  datatype Receipt = ReadAll(receiver: User) | ReadOne(id: MsgId) | Delivered(id: MsgId)

  predicate Reads(r: Receipt, id: MsgId, receiver: User) {
    r == ReadAll(receiver) || r == ReadOne(id)
  }

  function UpdateRow(r: Receipt, id: MsgId, row: Row): Row {
    if Reads(r, id, row.receiver) && !row.isRead then row.(isRead := true, status := SENT_CONFIRMED)
    else if r == Delivered(id) && row.status == UNSENT then row.(status := SENT_UNCONFIRMED)
    else row
  }

  function Update(t: Table, r: Receipt): Table {
    map id | id in t :: UpdateRow(r, id, t[id])
  }

  function UpdateAll(t: Table, rs: seq<Receipt>): Table {
    if rs == [] then t else Update(UpdateAll(t, rs[..|rs| - 1]), rs[|rs| - 1])
  }

  // --- Receipts in any order and any number ------------------------------------

  // What a row becomes, given only which kinds of receipt it ever got.
  function Final(row: Row, read: bool, delivered: bool): Row {
    if read && !row.isRead then row.(isRead := true, status := SENT_CONFIRMED)
    else if delivered && row.status == UNSENT then row.(status := SENT_UNCONFIRMED)
    else row
  }

  ghost predicate GetsRead(rs: seq<Receipt>, id: MsgId, receiver: User) {
    exists r <- rs :: Reads(r, id, receiver)
  }

  lemma {:induction false} RowDependsOnReceiptsGot(t: Table, rs: seq<Receipt>, id: MsgId)
    requires id in t
    ensures id in UpdateAll(t, rs)
    ensures UpdateAll(t, rs)[id] == Final(t[id], GetsRead(rs, id, t[id].receiver), Delivered(id) in rs)
  {
    if rs != [] {
      var before, last := rs[..|rs| - 1], rs[|rs| - 1];
      RowDependsOnReceiptsGot(t, before, id);
      assert forall r :: r in rs <==> r in before || r == last;
      assert GetsRead(rs, id, t[id].receiver)
        <==> GetsRead(before, id, t[id].receiver) || Reads(last, id, t[id].receiver);
    }
  }

  lemma {:induction false} RowsStayTheSame(t: Table, rs: seq<Receipt>)
    ensures UpdateAll(t, rs).Keys == t.Keys
  {
    if rs != [] {
      RowsStayTheSame(t, rs[..|rs| - 1]);
    }
  }

  // Receipts may be reordered and repeated at will: the table they leave
  // depends only on which receipts there were.
  lemma {:induction false} ReceiptsCommute(t: Table, rs: seq<Receipt>, qs: seq<Receipt>)
    requires forall r :: r in rs <==> r in qs
    ensures UpdateAll(t, rs) == UpdateAll(t, qs)
  {
    RowsStayTheSame(t, rs);
    RowsStayTheSame(t, qs);
    forall id <- t ensures UpdateAll(t, rs)[id] == UpdateAll(t, qs)[id] {
      RowDependsOnReceiptsGot(t, rs, id);
      RowDependsOnReceiptsGot(t, qs, id);
    }
  }

  // A row of a single or group chat is read exactly when it is confirmed. A row
  // of an AI chat is stored as read and can only be handed on.
  predicate ChatRow(row: Row) {
    UNSENT <= row.status <= SENT_CONFIRMED && (row.isRead <==> row.status == SENT_CONFIRMED)
  }

  predicate AIRow(row: Row) {
    UNSENT <= row.status <= SENT_UNCONFIRMED && row.isRead
  }

  lemma {:induction false} ReceiptsOnlyAdvance(t: Table, rs: seq<Receipt>, id: MsgId)
    requires id in t && (ChatRow(t[id]) || AIRow(t[id]))
    ensures id in UpdateAll(t, rs)
    ensures var row := UpdateAll(t, rs)[id];
            && t[id].status <= row.status && (t[id].isRead ==> row.isRead)
            && (ChatRow(t[id]) ==> ChatRow(row)) && (AIRow(t[id]) ==> AIRow(row))
            && (row.status == SENT_CONFIRMED ==> row.isRead)
            && row.(isRead := t[id].isRead, status := t[id].status) == t[id]
  {
    RowDependsOnReceiptsGot(t, rs, id);
  }

  // --- The data access object --------------------------------------------------

  // What a statement meets. Silent: it takes effect, and yet reports an error.
  datatype Database = Fine | Silent | Broken

  class MessageStore {
    var rows: Table

    constructor ()
      ensures rows == map[]
    {
      rows := map[];
    }

    // Fails when the key is taken, and then changes nothing, or on an error of
    // the database.
    method InsertMessage(id: MsgId, row: Row, db: Database) returns (ok: bool)
      modifies this
      ensures ok <==> db.Fine? && id !in old(rows)
      ensures rows == if !db.Broken? && id !in old(rows) then old(rows)[id := row] else old(rows)
    {
      ok := db.Fine? && id !in rows;
      if !db.Broken? && id !in rows {
        rows := rows[id := row];
      }
    }

    // None is an error of the query.
    method GetUnreadMessages(receiver: User, db: Database) returns (ids: Option<set<MsgId>>)
      ensures ids == if db.Fine? then Some(Unread(rows, receiver)) else None
    {
      ids := if db.Fine? then Some(set id | id in rows && rows[id].receiver == receiver && !rows[id].isRead) else None;
    }

    method MarkMessagesAsRead(receiver: User, db: Database) returns (ok: bool)
      modifies this
      ensures ok == db.Fine?
      ensures if db.Broken? then rows == old(rows)
              else rows == Update(old(rows), ReadAll(receiver)) && Unread(rows, receiver) == {}
    {
      if !db.Broken? {
        rows := map id | id in rows ::
          if rows[id].receiver == receiver && !rows[id].isRead
          then rows[id].(isRead := true, status := SENT_CONFIRMED) else rows[id];
      }
      ok := db.Fine?;
    }

    method MarkMessageAsRead(id: MsgId, db: Database) returns (ok: bool)
      modifies this
      ensures ok == db.Fine?
      ensures if db.Broken? then rows == old(rows)
              else rows == Update(old(rows), ReadOne(id)) && (id in rows ==> rows[id].isRead)
    {
      if !db.Broken? && id in rows && !rows[id].isRead {
        rows := rows[id := rows[id].(isRead := true, status := SENT_CONFIRMED)];
      }
      ok := db.Fine?;
    }

    method MarkSendTransportDelivered(id: MsgId, db: Database) returns (ok: bool)
      modifies this
      ensures ok == db.Fine?
      ensures if db.Broken? then rows == old(rows)
              else rows == Update(old(rows), Delivered(id)) && (id in rows ==> rows[id].status != UNSENT)
    {
      if !db.Broken? && id in rows && rows[id].status == UNSENT {
        rows := rows[id := rows[id].(status := SENT_UNCONFIRMED)];
      }
      ok := db.Fine?;
    }
  }
}
