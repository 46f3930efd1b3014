// The gateway's handlers: a login, a delivery that comes down, and a chat
// message that goes up. Delivery interleaves the same steps with the rest of
// the system; here each handler runs to its end on the gateway's own objects.
module Gateway {
  import opened Wrappers
  import opened Messages
  import opened Decimal
  import opened UploadConsumer
  import opened Uploads
  import Outbox
  import Sessions
  import Sequences

  // What a client's channel and its closed flag become when a message is sent.
  function Offer(chan: seq<string>, closed: bool, msg: string, takeClosed: bool): (seq<string>, bool) {
    if |chan| < Outbox.CAPACITY && !(closed && takeClosed) then (chan + [msg], closed) else (chan, true)
  }

  // The first n messages, one after the other, while the writer does not run.
  // Each send chooses for itself whether it notices that the client is closed.
  function OfferAll(chan: seq<string>, closed: bool, msgs: seq<string>, takeClosed: nat -> bool, n: nat)
    : (seq<string>, bool)
    requires n <= |msgs|
  {
    if n == 0 then (chan, closed)
    else
      var before := OfferAll(chan, closed, msgs, takeClosed, n - 1);
      Offer(before.0, before.1, msgs[n - 1], takeClosed(n - 1))
  }

  function Texts(rows: Table, ids: seq<MsgId>, text: (MsgId, Row) -> string): (r: seq<string>)
    requires forall id <- ids :: id in rows
    ensures |r| == |ids|
  {
    if ids == [] then [] else
      var last := ids[|ids| - 1];
      Texts(rows, ids[..|ids| - 1], text) + [text(last, rows[last])]
  }

  function AckText(id: MsgId, seqNo: int): string {
    "{\"chat_type\":\"server_ack\",\"msg_id\":" + Itoa(id) + ",\"seq_id\":" + Itoa(seqNo) + "}"
  }

  lemma {:induction false} TextOfEach(rows: Table, ids: seq<MsgId>, text: (MsgId, Row) -> string, i: nat)
    requires (forall id <- ids :: id in rows) && i < |ids|
    ensures Texts(rows, ids, text)[i] == text(ids[i], rows[ids[i]])
  {
    if i < |ids| - 1 {
      TextOfEach(rows, ids[..|ids| - 1], text, i);
    }
  }

  lemma Reassociated(head: string, p: string, mid: string, q: string, end: string)
    ensures head + p + ([','] + mid) + q + end == head + (p + [','] + (mid + q + end))
  {
  }

  lemma Stripped(head: string, a: string, b: string, end: string)
    requires head + a + end == head + b + end
    ensures a == b
  {
    assert |a| == |b| && a == (head + a + end)[|head|..|head| + |a|];
    assert b == (head + b + end)[|head|..|head| + |b|];
  }

  // The acknowledgement tells its sender which message it is for.
  lemma AckNamesItsMessage(id: MsgId, seqNo: int, id': MsgId, seqNo': int)
    ensures AckText(id, seqNo) == AckText(id', seqNo') <==> id == id' && seqNo == seqNo'
  {
    if AckText(id, seqNo) == AckText(id', seqNo') {
      AckParts(Itoa(id), Itoa(seqNo), Itoa(id'), Itoa(seqNo'), id, id');
      ItoaInjective(id, id');
      ItoaInjective(seqNo, seqNo');
    }
  }

  lemma AckParts(p: string, q: string, p': string, q': string, id: MsgId, id': MsgId)
    requires p == Itoa(id) && p' == Itoa(id')
    requires var head := "{\"chat_type\":\"server_ack\",\"msg_id\":";
             head + p + ",\"seq_id\":" + q + "}" == head + p' + ",\"seq_id\":" + q' + "}"
    ensures p == p' && q == q'
  {
    var head, mid := "{\"chat_type\":\"server_ack\",\"msg_id\":", "\"seq_id\":";
    assert ",\"seq_id\":" == [','] + mid;
    Reassociated(head, p, mid, q, "}");
    Reassociated(head, p', mid, q', "}");
    CutAfterHead(head, p, mid + q + "}", p', mid + q' + "}", id, id');
    Stripped(mid, q, q', "}");
  }

  lemma CutAfterHead(head: string, p: string, rest: string, p': string, rest': string, id: MsgId, id': MsgId)
    requires p == Itoa(id) && p' == Itoa(id')
    requires head + (p + [','] + rest) == head + (p' + [','] + rest')
    ensures p == p' && rest == rest'
  {
    Stripped(head, p + [','] + rest, p' + [','] + rest', []);
    ItoaChars(id);
    ItoaChars(id');
    Sequences.CutAtSeparator(p, rest, p', rest', ',');
  }

  // The conversation whose counter numbers an upload.
  function ConvOf(kind: Kind, sender: User, receiver: User, group: int): Sequences.Conv {
    match kind
    case Single => Sequences.Single(sender, receiver)
    case Group => Sequences.Group(group)
    case AI => Sequences.AI(sender)
  }

  datatype Chat = Chat(receiver: User, group: int, content: string)

  // What the outside does to a chat handler. Without a reliability manager all
  // messages are numbered zero.
  datatype ChatEnv = ChatEnv(managed: bool, arrives: bool, answered: bool, publishOk: bool, takeClosed: bool)

  // An AI chat is addressed to nobody, and only a group chat names its group.
  function UploadFor(kind: Kind, sender: User, chat: Chat, seqNo: int): Upload {
    Upload(kind, seqNo, sender, if kind.AI? then -1 else chat.receiver, if kind.Group? then chat.group else 0,
           chat.content)
  }

  // The conversation that an upload belongs to, by what it names itself.
  function ConvOfUpload(u: Upload): Sequences.Conv {
    match u.kind
    case Single => Sequences.Single(u.sender, u.receiver)
    case Group => Sequences.Group(u.group)
    case AI => Sequences.AI(u.sender)
  }

  function KeyOf(u: Upload): string {
    Sequences.Key(Sequences.ConvID(ConvOfUpload(u)), u.sender)
  }

  class Gateway {
    const cliMap: Sessions.CliMap
    const store: MessageStore
    const numbers: Sequences.ReliabilityManager
    var published: seq<(MsgId, Upload)>

    // Every registered client is well formed, and registered once.
    ghost predicate Valid()
      reads cliMap, cliMap.clients.Values
    {
      && (forall user <- cliMap.clients :: cliMap.clients[user].Valid())
      && (forall u, v ::
            u in cliMap.clients && v in cliMap.clients && u != v ==> cliMap.clients[u] != cliMap.clients[v])
    }

    constructor (cliMap: Sessions.CliMap, store: MessageStore, numbers: Sequences.ReliabilityManager)
      requires cliMap.clients == map[]
      ensures Valid() && published == []
      ensures this.cliMap == cliMap && this.store == store && this.numbers == numbers
    {
      this.cliMap, this.store, this.numbers := cliMap, store, numbers;
      published := [];
    }

    // Sends what is unread, in any order, and then marks all the user's messages
    // as read. `asked` and `marked`: the two remote calls succeed; `applied`: the
    // second one took effect, which it may have done even if it fails.
    method SyncMessage(user: User, client: Outbox.Client, text: (MsgId, Row) -> string, asked: bool, applied: bool,
                       marked: bool, takeClosed: nat -> bool)
      returns (ok: bool, sent: seq<MsgId>)
      requires client.Valid() && (marked ==> applied)
      modifies client, store
      ensures client.Valid()
      ensures !asked ==> !ok && sent == []
      ensures asked ==> (set id <- sent) == Unread(old(store.rows), user) && (ok <==> marked || sent == [])
      ensures forall i, j :: 0 <= i < j < |sent| ==> sent[i] != sent[j]
      ensures forall id <- sent :: id in old(store.rows)
      ensures (client.sendChan, client.closed) ==
              OfferAll(old(client.sendChan), old(client.closed), Texts(old(store.rows), sent, text), takeClosed, |sent|)
      ensures store.rows == if sent != [] && applied then Update(old(store.rows), ReadAll(user)) else old(store.rows)
      ensures sent != [] && applied ==> Unread(store.rows, user) == {}
    {
      sent := [];
      if !asked {
        return false, sent;
      }
      var unread := store.GetUnreadMessages(user, Fine);
      var todo := unread.value;
      while exists id: MsgId :: id in todo
        invariant client.Valid()
        invariant todo !! (set id <- sent) && todo + (set id <- sent) == Unread(store.rows, user)
        invariant forall i, j :: 0 <= i < j < |sent| ==> sent[i] != sent[j]
        invariant forall id <- sent :: id in store.rows
        invariant store.rows == old(store.rows)
        invariant (client.sendChan, client.closed) ==
                  OfferAll(old(client.sendChan), old(client.closed), Texts(store.rows, sent, text), takeClosed, |sent|)
        decreases todo
      {
        var id :| id in todo;
        client.SendMessage(text(id, store.rows[id]), takeClosed(|sent|));
        OfferOneMore(old(client.sendChan), old(client.closed), store.rows, sent, id, text, takeClosed);
        MoveOne(sent, todo, id);
        sent, todo := sent + [id], todo - {id};
      }
      if sent == [] {
        return true, sent;
      }
      var done := store.MarkMessagesAsRead(user, if marked then Fine else if applied then Silent else Broken);
      return done, sent;
    }

    // A login: the new client replaces the user's former one, which is closed;
    // then the route is written, and only then are the unread messages read. A
    // route that cannot be written is ignored; a failed synchronisation leaves
    // the client registered without a reader.
    method Handler(user: User, text: (MsgId, Row) -> string, routeOk: bool, asked: bool,
                   applied: bool, marked: bool, kickTakesClosed: bool, takeClosed: nat -> bool)
      returns (client: Outbox.Client, serving: bool, sent: seq<MsgId>)
      requires Valid() && (marked ==> applied)
      modifies cliMap, store, if user in cliMap.clients then {cliMap.clients[user]} else {}
      ensures Valid() && fresh(client) && client.uid == user
      ensures cliMap.clients == old(cliMap.clients)[user := client]
      ensures cliMap.routes == if routeOk then old(cliMap.routes) + {user} else old(cliMap.routes)
      ensures user in old(cliMap.clients) ==>
                var former := old(cliMap.clients)[user];
                && former.closed && former.connOpen == (old(former.closed) && old(former.connOpen))
                && former.sendChan
                   == Offer(old(former.sendChan), old(former.closed), Sessions.KICK, kickTakesClosed).0
      ensures asked ==> (set id <- sent) == Unread(old(store.rows), user)
      ensures serving <==> asked && (marked || sent == [])
      ensures forall id <- sent :: id in old(store.rows)
      ensures (client.sendChan, client.closed) ==
              OfferAll([], false, Texts(old(store.rows), sent, text), takeClosed, |sent|)
      ensures store.rows == if sent != [] && applied then Update(old(store.rows), ReadAll(user)) else old(store.rows)
    {
      client := new Outbox.Client(user);
      cliMap.Register(user, client, kickTakesClosed);
      if routeOk {
        cliMap.routes := cliMap.routes + {user};
      }
      serving, sent := SyncMessage(user, client, text, asked, applied, marked, takeClosed);
    }

    // A delivery that comes down, None if it cannot be read. It is acknowledged
    // whether or not its receiver is here; the sender's side is notified as soon
    // as there is a client, even if that client's channel did not take it.
    method HandleMQDelivery(body: Option<Down>, text: Down -> string, takeClosed: bool)
      returns (acked: bool, notified: bool)
      requires Valid()
      modifies if body.Some? && body.value.receiver in cliMap.clients then {cliMap.clients[body.value.receiver]} else {}
      ensures Valid()
      ensures acked <==> body.Some?
      ensures notified <==> body.Some? && body.value.receiver in cliMap.clients
      ensures notified ==>
        var client := cliMap.clients[body.value.receiver];
        (client.sendChan, client.closed)
        == Offer(old(client.sendChan), old(client.closed), text(body.value), takeClosed)
      ensures notified ==>
        var client := cliMap.clients[body.value.receiver];
        client.connOpen == (old(client.connOpen) && client.closed == old(client.closed))
    {
      if body.None? {
        return false, false;
      }
      var client := cliMap.Get(body.value.receiver);
      if client.None? {
        return true, false;
      }
      client.value.SendMessage(text(body.value), takeClosed);
      return true, true;
    }

    // How far its sender's counter in its conversation has come.
    ghost function Counter(u: Upload): int
      reads numbers
    {
      if KeyOf(u) in numbers.counters then numbers.counters[KeyOf(u)] else 0
    }

    // Counted: the number was drawn, whether or not it came back.
    ghost predicate Counts(u: Upload, e: ChatEnv)
      reads numbers
    {
      e.managed && e.arrives && Counter(u) < Sequences.MAX
    }

    // A chat message that goes up, None if it cannot be read: it is numbered,
    // published, and only then acknowledged to its sender. A number that was
    // drawn for a message that could not be published is not given back.
    method HandleChat(kind: Kind, sender: User, chat: Option<Chat>, id: MsgId, e: ChatEnv) returns (acked: bool)
      requires Valid()
      modifies this`published, numbers, if sender in cliMap.clients then {cliMap.clients[sender]} else {}
      ensures Valid()
      ensures chat.None? ==>
                !acked && numbers.counters == old(numbers.counters) && published == old(published)
      ensures chat.Some? ==>
                var named := Upload(kind, 0, sender, chat.value.receiver, chat.value.group, "");
                && numbers.counters == (if old(Counts(named, e))
                                        then old(numbers.counters)[KeyOf(named) := old(Counter(named)) + 1]
                                        else old(numbers.counters))
                && (published != old(published)
                    <==> e.publishOk && (e.managed ==> old(Counts(named, e)) && e.answered))
                && (acked <==> published != old(published) && sender in cliMap.clients)
      ensures published != old(published) ==>
                && chat.Some? && |published| == |old(published)| + 1 && published[..|old(published)|] == old(published)
                && var (n, u) := published[|published| - 1];
                   && n == (if e.managed then id else 0)
                   && u.kind == kind && u.sender == sender && u.content == chat.value.content
                   && u.receiver == (if kind.AI? then -1 else chat.value.receiver)
                   && u.group == (if kind.Group? then chat.value.group else 0)
                   && u.seqNo == (if e.managed then 1 + old(Counter(u)) else 0)
      ensures sender in cliMap.clients ==>
                var client := cliMap.clients[sender];
                if acked then
                  var (n, u) := published[|published| - 1];
                  (client.sendChan, client.closed)
                  == Offer(old(client.sendChan), old(client.closed), AckText(n, u.seqNo), e.takeClosed)
                else client.sendChan == old(client.sendChan) && client.closed == old(client.closed)
    {
      if chat.None? {
        return false;
      }
      var upload := NumberAndPublish(kind, sender, chat.value, id, e);
      if upload.None? {
        return false;
      }
      acked := Acknowledge(sender, AckText(upload.value.0, upload.value.1.seqNo), e.takeClosed);
    }

    method NumberAndPublish(kind: Kind, sender: User, chat: Chat, id: MsgId, e: ChatEnv)
      returns (upload: Option<(MsgId, Upload)>)
      modifies this`published, numbers
      ensures var named := Upload(kind, 0, sender, chat.receiver, chat.group, "");
              && numbers.counters == (if old(Counts(named, e))
                                      then old(numbers.counters)[KeyOf(named) := old(Counter(named)) + 1]
                                      else old(numbers.counters))
              && (upload.Some? <==> e.publishOk && (e.managed ==> old(Counts(named, e)) && e.answered))
      ensures published == old(published) + if upload.Some? then [upload.value] else []
      ensures upload.Some? ==>
                var (n, u) := upload.value;
                && n == (if e.managed then id else 0)
                && u.kind == kind && u.sender == sender && u.content == chat.content
                && u.receiver == (if kind.AI? then -1 else chat.receiver)
                && u.group == (if kind.Group? then chat.group else 0)
                && u.seqNo == (if e.managed then 1 + old(Counter(u)) else 0)
    {
      var number := DrawNumber(kind, sender, chat, e);
      if number.None? || !e.publishOk {
        return None;
      }
      var n := if e.managed then id else 0;
      published := published + [(n, UploadFor(kind, sender, chat, number.value))];
      upload := Some((n, UploadFor(kind, sender, chat, number.value)));
    }

    method DrawNumber(kind: Kind, sender: User, chat: Chat, e: ChatEnv) returns (number: Option<int>)
      modifies numbers
      ensures var named := Upload(kind, 0, sender, chat.receiver, chat.group, "");
              && numbers.counters == (if old(Counts(named, e))
                                      then old(numbers.counters)[KeyOf(named) := old(Counter(named)) + 1]
                                      else old(numbers.counters))
              && number == if !e.managed then Some(0)
              else if old(Counts(named, e)) && e.answered then Some(old(Counter(named)) + 1)
              else None
    {
      number := Some(0);
      if e.managed {
        var conv := Sequences.ConvID(ConvOf(kind, sender, chat.receiver, chat.group));
        number := numbers.GetNextSeqID(conv, sender, e.arrives, e.answered);
      }
    }

    method Acknowledge(sender: User, text: string, takeClosed: bool) returns (acked: bool)
      requires Valid()
      modifies if sender in cliMap.clients then {cliMap.clients[sender]} else {}
      ensures Valid() && acked == (sender in cliMap.clients)
      ensures acked ==>
                var client := cliMap.clients[sender];
                (client.sendChan, client.closed) == Offer(old(client.sendChan), old(client.closed), text, takeClosed)
    {
      var client := cliMap.Get(sender);
      if client.None? {
        return false;
      }
      client.value.SendMessage(text, takeClosed);
      return true;
    }
  }

  // One message moves from the set still to be sent to the list of those sent.
  lemma MoveOne(sent: seq<MsgId>, todo: set<MsgId>, id: MsgId)
    requires id in todo && todo !! (set x <- sent)
    requires forall i, j :: 0 <= i < j < |sent| ==> sent[i] != sent[j]
    ensures (todo - {id}) !! (set x <- sent + [id])
    ensures (todo - {id}) + (set x <- sent + [id]) == todo + (set x <- sent)
    ensures forall i, j :: 0 <= i < j < |sent| + 1 ==> (sent + [id])[i] != (sent + [id])[j]
  {
    assert (set x <- sent + [id]) == (set x <- sent) + {id};
  }

  lemma {:induction false} OfferAllAgrees(chan: seq<string>, closed: bool, msgs: seq<string>, more: seq<string>,
                                          takeClosed: nat -> bool, n: nat)
    requires n <= |msgs| <= |more| && forall i :: 0 <= i < n ==> msgs[i] == more[i]
    ensures OfferAll(chan, closed, msgs, takeClosed, n) == OfferAll(chan, closed, more, takeClosed, n)
  {
    if n > 0 {
      OfferAllAgrees(chan, closed, msgs, more, takeClosed, n - 1);
    }
  }

  lemma {:induction false} OfferOneMore(chan: seq<string>, closed: bool, rows: Table, sent: seq<MsgId>, id: MsgId,
                                        text: (MsgId, Row) -> string, takeClosed: nat -> bool)
    requires id in rows && forall x <- sent :: x in rows
    ensures var before := OfferAll(chan, closed, Texts(rows, sent, text), takeClosed, |sent|);
            OfferAll(chan, closed, Texts(rows, sent + [id], text), takeClosed, |sent| + 1)
            == Offer(before.0, before.1, text(id, rows[id]), takeClosed(|sent|))
  {
    assert (sent + [id])[..|sent|] == sent;
    OfferAllAgrees(chan, closed, Texts(rows, sent, text), Texts(rows, sent + [id], text), takeClosed, |sent|);
  }

  // --- A long backlog ----------------------------------------------------------

  // An open channel takes what it has room for, drops the rest, and is closed
  // by the first message it drops.
  lemma {:induction false} RoomDecides(chan: seq<string>, msgs: seq<string>, takeClosed: nat -> bool, n: nat)
    requires n <= |msgs| && |chan| <= Outbox.CAPACITY
    ensures var room := Outbox.CAPACITY - |chan|;
            OfferAll(chan, false, msgs, takeClosed, n) == (chan + msgs[..if n <= room then n else room], n > room)
  {
    var room := Outbox.CAPACITY - |chan|;
    if n == 0 {
      assert chan + msgs[..0] == chan;
    } else {
      RoomDecides(chan, msgs, takeClosed, n - 1);
      if n <= room {
        assert msgs[..n] == msgs[..n - 1] + [msgs[n - 1]];
        assert chan + msgs[..n] == (chan + msgs[..n - 1]) + [msgs[n - 1]];
      }
    }
  }

  // If the writer does not get to run meanwhile, a login puts all its unread
  // messages in the client's channel exactly if there are no more of them than
  // the channel holds. All of them are marked as read in any case.
  lemma {:induction false} SyncIsCompleteIffItFits(
      rows: Table, sent: seq<MsgId>, text: (MsgId, Row) -> string, takeClosed: nat -> bool)
    requires forall id <- sent :: id in rows
    ensures var texts := Texts(rows, sent, text);
            var (chan, closed) := OfferAll([], false, texts, takeClosed, |sent|);
            && (chan == texts <==> |sent| <= Outbox.CAPACITY)
            && (closed <==> |sent| > Outbox.CAPACITY)
            && chan == texts[..if |sent| <= Outbox.CAPACITY then |sent| else Outbox.CAPACITY]
  {
    var texts := Texts(rows, sent, text);
    RoomDecides([], texts, takeClosed, |sent|);
    assert texts[..|sent|] == texts;
  }
}
