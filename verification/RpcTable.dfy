// The part of the RPC client that its mutex `mu` protects: the sequence
// counter, the table of pending calls and the two closing flags.
//
// The operations are defined once, as functions on a `Table`. The class
// `Client` performs them in place, as the original does; the interleaving
// model in RpcClient uses the same functions as its atomic steps.
module RpcTable {
  import opened Wrappers
  import opened IntSets

  // Sequence numbers are 64-bit unsigned and wrap around.
  const SEQ_MODULUS: nat := 0x1_0000_0000_0000_0000

  // What completes a call: a decoded reply, the error text of a response
  // header, or an error raised on the client's own side.
  datatype Outcome = Reply(body: seq<byte>) | RemoteError(text: string) | LocalError

  // A response as the client reads it: the header, then the body.
  datatype Response = Response(seqNo: nat, error: string, body: seq<byte>)

  datatype Table<C> = Table(nextSeq: nat, pending: map<nat, C>, closing: bool, shutdown: bool)

  function EmptyTable<C>(): Table<C> {
    Table(1, map[], false, false)
  }

  function Register<C>(t: Table<C>, call: C): Option<(nat, Table<C>)> {
    if t.closing || t.shutdown then None
    else Some((t.nextSeq, t.(nextSeq := (t.nextSeq + 1) % SEQ_MODULUS, pending := t.pending[t.nextSeq := call])))
  }

  function Remove<C>(t: Table<C>, seqNo: nat): (Option<C>, Table<C>) {
    (if seqNo in t.pending then Some(t.pending[seqNo]) else None, t.(pending := t.pending - {seqNo}))
  }

  // Registering and then removing the number handed out gives the call back
  // and leaves the other entries alone, unless the number was still in use.
  lemma RemoveUndoesRegister<C>(t: Table<C>, call: C)
    requires Register(t, call).Some?
    ensures var (q, t') := Register(t, call).value;
            && Remove(t', q).0 == Some(call)
            && (Remove(t', q).1.pending == t.pending <==> q !in t.pending)
  {
    var (q, t') := Register(t, call).value;
    if q !in t.pending {
      assert Remove(t', q).1.pending == t.pending;
    } else {
      assert q !in Remove(t', q).1.pending;
    }
  }

  // A completion channel, which several calls may share. It carries the calls
  // themselves.
  class Chan {
    var content: seq<Call>
    const room: nat

    constructor (room: nat)
      requires 0 < room
      ensures content == [] && this.room == room
    {
      this.room := room;
      content := [];
    }

    // False if the channel is full and the send blocks.
    method Send(call: Call) returns (ok: bool)
      modifies this`content
      ensures ok == (|old(content)| < room)
      ensures content == if ok then old(content) + [call] else old(content)
    {
      ok := |content| < room;
      if ok {
        content := content + [call];
      }
    }
  }

  class Call {
    var seqNo: nat
    var error: Option<Outcome>
    const done: Chan

    constructor (done: Chan)
      ensures seqNo == 0 && error == None && this.done == done
    {
      this.done := done;
      seqNo, error := 0, None;
    }
  }

  // The numbers of the calls on one channel.
  function On(pending: map<nat, Call>, h: Chan): set<nat> {
    set q | q in pending && pending[q].done == h
  }

  // One number is dealt with.
  ghost predicate OneLessHolds(pending: map<nat, Call>, todo: set<nat>, q: nat, h: Chan)
    requires q in pending
  {
    && |On(pending, h) - (todo - {q})| == |On(pending, h) - todo| + (if pending[q].done == h then 1 else 0)
    && (pending[q].done == h ==> |On(pending, h) - todo| < |On(pending, h)|)
  }

  lemma OneLess(pending: map<nat, Call>, todo: set<nat>, q: nat, h: Chan)
    requires q in todo && todo <= pending.Keys
    ensures OneLessHolds(pending, todo, q, h)
  {
    if pending[q].done == h {
      assert On(pending, h) - (todo - {q}) == (On(pending, h) - todo) + {q};
      SubsetSize((On(pending, h) - todo) + {q}, On(pending, h));
    } else {
      assert On(pending, h) - (todo - {q}) == On(pending, h) - todo;
    }
  }

  // What one channel holds, before and after some completions.
  ghost predicate Filled(m0: map<Chan, seq<Call>>, m: map<Chan, seq<Call>>, pending: map<nat, Call>,
                         todo: set<nat>, h: Chan) {
    h in m0 && h in m && m0[h] <= m[h] && |m[h]| == |m0[h]| + |On(pending, h) - todo|
  }

  predicate Completed(m0: map<Chan, seq<Call>>, m: map<Chan, seq<Call>>, call: Call) {
    && call.done in m0 && call.done in m && m0[call.done] <= m[call.done]
    && |m[call.done]| <= call.done.room && call in m[call.done][|m0[call.done]|..]
  }

  ghost predicate Progress(m0: map<Chan, seq<Call>>, m: map<Chan, seq<Call>>, pending: map<nat, Call>, todo: set<nat>) {
    && (forall h <- m :: Filled(m0, m, pending, todo, h))
    && (forall q <- pending :: q !in todo ==> Completed(m0, m, pending[q]))
  }

  // The channel has room for what it holds and all the pending calls on it.
  ghost predicate HasRoomForAll(m0: map<Chan, seq<Call>>, pending: map<nat, Call>, h: Chan)
    requires h in m0
  {
    |m0[h]| + |On(pending, h)| <= h.room
  }

  ghost predicate HasRoomEverywhere(m0: map<Chan, seq<Call>>, pending: map<nat, Call>) {
    forall h <- m0 :: HasRoomForAll(m0, pending, h)
  }

  lemma StaysCompleted(m0: map<Chan, seq<Call>>, m: map<Chan, seq<Call>>, h: Chan, sent: Call, call: Call)
    requires h in m && |m[h]| < h.room
    requires Completed(m0, m, call) || (call == sent && call.done == h && h in m0 && m0[h] <= m[h])
    ensures Completed(m0, m[h := m[h] + [sent]], call)
  {
    if call.done == h {
      var m1 := m[h] + [sent];
      assert m1[|m0[h]|..] == m[h][|m0[h]|..] + [sent];
    }
  }

  lemma FilledStep(m0: map<Chan, seq<Call>>, m: map<Chan, seq<Call>>, pending: map<nat, Call>,
                   todo: set<nat>, q: nat, h: Chan)
    requires q in todo && todo <= pending.Keys && pending[q].done in m && Filled(m0, m, pending, todo, h)
    ensures Filled(m0, m[pending[q].done := m[pending[q].done] + [pending[q]]], pending, todo - {q}, h)
  {
    OneLess(pending, todo, q, h);
  }

  lemma ProgressStep(m0: map<Chan, seq<Call>>, m: map<Chan, seq<Call>>, pending: map<nat, Call>, todo: set<nat>, q: nat)
    requires Progress(m0, m, pending, todo) && q in todo && todo <= pending.Keys && pending[q].done in m
    requires |m[pending[q].done]| < pending[q].done.room
    ensures Progress(m0, m[pending[q].done := m[pending[q].done] + [pending[q]]], pending, todo - {q})
  {
    var g := pending[q].done;
    var m1 := m[g := m[g] + [pending[q]]];
    assert Filled(m0, m, pending, todo, g);
    forall h <- m1 ensures Filled(m0, m1, pending, todo - {q}, h) {
      FilledStep(m0, m, pending, todo, q, h);
    }
    forall p <- pending | p !in todo - {q} ensures Completed(m0, m1, pending[p]) {
      StaysCompleted(m0, m, g, pending[q], pending[p]);
    }
  }

  lemma ProgressBlocks(m0: map<Chan, seq<Call>>, m: map<Chan, seq<Call>>, pending: map<nat, Call>,
                       todo: set<nat>, q: nat)
    requires q in todo && todo <= pending.Keys && Filled(m0, m, pending, todo, pending[q].done)
    requires |m[pending[q].done]| >= pending[q].done.room
    ensures !HasRoomForAll(m0, pending, pending[q].done)
  {
    OneLess(pending, todo, q, pending[q].done);
  }

  lemma ProgressEnds(m0: map<Chan, seq<Call>>, m: map<Chan, seq<Call>>, pending: map<nat, Call>)
    requires Progress(m0, m, pending, {}) && m.Keys == m0.Keys && forall h <- m0 :: |m0[h]| <= h.room
    ensures AllCompleted(m0, m, pending)
    ensures HasRoomEverywhere(m0, pending)
  {
    forall h <- m
      ensures m0[h] <= m[h] && |m[h]| == |m0[h]| + |On(pending, h)| && HasRoomForAll(m0, pending, h)
    {
      assert Filled(m0, m, pending, {}, h);
      ChannelEnds(m0, m, pending, h);
    }
  }

  lemma ChannelEnds(m0: map<Chan, seq<Call>>, m: map<Chan, seq<Call>>, pending: map<nat, Call>, h: Chan)
    requires Filled(m0, m, pending, {}, h) && |m0[h]| <= h.room
    requires forall q <- pending :: Completed(m0, m, pending[q])
    ensures |m[h]| == |m0[h]| + |On(pending, h)| && HasRoomForAll(m0, pending, h)
  {
    assert On(pending, h) - {} == On(pending, h);
    if On(pending, h) != {} {
      var q :| q in On(pending, h);
      assert Completed(m0, m, pending[q]);
    }
  }

  // What the loop over the table leaves behind.
  ghost predicate LoopEnded(m0: map<Chan, seq<Call>>, m: map<Chan, seq<Call>>, pending: map<nat, Call>,
                            finished: bool) {
    if finished then Progress(m0, m, pending, {}) else !HasRoomEverywhere(m0, pending)
  }

  lemma LoopDecides(m0: map<Chan, seq<Call>>, m: map<Chan, seq<Call>>, pending: map<nat, Call>, finished: bool)
    requires LoopEnded(m0, m, pending, finished) && m.Keys == m0.Keys && forall h <- m0 :: |m0[h]| <= h.room
    ensures Terminated(m0, m, pending, finished)
  {
    if finished {
      ProgressEnds(m0, m, pending);
    }
  }

  lemma ProgressStarts(m0: map<Chan, seq<Call>>, pending: map<nat, Call>)
    ensures Progress(m0, m0, pending, pending.Keys)
  {
    forall h <- m0 ensures Filled(m0, m0, pending, pending.Keys, h) {
      assert On(pending, h) - pending.Keys == {};
    }
  }

  class Client {
    var nextSeq: nat
    var pending: map<nat, Call>
    var closing: bool
    var shutdown: bool

    ghost function Abs(): Table<Call>
      reads this
    {
      Table(nextSeq, pending, closing, shutdown)
    }

    constructor ()
      ensures Abs() == EmptyTable<Call>()
    {
      nextSeq, pending, closing, shutdown := 1, map[], false, false;
    }

    // Fails with ErrShutdown on the second call; the first one passes on what
    // closing the codec yields.
    method Close(codecCloses: bool) returns (ok: bool)
      modifies this`closing
      ensures ok == (!old(closing) && codecCloses)
      ensures Abs() == old(Abs()).(closing := true)
    {
      if closing {
        return false;
      }
      closing := true;
      return codecCloses;
    }

    // Every registered call sits in the table under its own number.
    ghost predicate Valid()
      reads this, pending.Values
    {
      forall q <- pending :: pending[q].seqNo == q
    }

    method RegisterCall(call: Call) returns (seqNo: Option<nat>)
      requires Valid() && call !in pending.Values
      modifies this`nextSeq, this`pending, call`seqNo
      ensures Valid()
      ensures seqNo == None <==> old(closing) || old(shutdown)
      ensures seqNo == None ==> Abs() == old(Abs()) && call.seqNo == old(call.seqNo)
      ensures seqNo.Some? ==>
                && seqNo.value == old(nextSeq) && call.seqNo == old(nextSeq)
                && pending == old(pending)[old(nextSeq) := call]
                && nextSeq == (old(nextSeq) + 1) % SEQ_MODULUS && closing == old(closing) && shutdown == old(shutdown)
      ensures Register(old(Abs()), call) == if seqNo.Some? then Some((seqNo.value, Abs())) else None
    {
      if closing || shutdown {
        return None;
      }
      call.seqNo := nextSeq;
      pending := pending[call.seqNo := call];
      nextSeq := (nextSeq + 1) % SEQ_MODULUS;
      return Some(call.seqNo);
    }

    method RemoveCall(seqNo: nat) returns (call: Option<Call>)
      requires Valid()
      modifies this`pending
      ensures Valid()
      ensures call == if seqNo in old(pending) then Some(old(pending)[seqNo]) else None
      ensures pending == old(pending) - {seqNo} && (call, Abs()) == Remove(old(Abs()), seqNo)
    {
      call := if seqNo in pending then Some(pending[seqNo]) else None;
      pending := pending - {seqNo};
    }

    // Completes every pending call with one error, and leaves them all in the
    // table. At the first full channel it blocks for ever with both mutexes held
    // and never finishes; so it finishes if and only if every channel has room
    // for what it holds and for all the pending calls on it. `chans` are the
    // channels in use.
    method TerminateCalls(ghost chans: set<Chan>) returns (finished: bool)
      requires Valid() && InUse(pending, chans)
      modifies this`shutdown, pending.Values`error, chans`content
      ensures Valid() && Abs() == old(Abs()).(shutdown := true)
      ensures Terminated(old(Contents(chans)), Contents(chans), pending, finished)
      ensures finished ==> forall q <- pending :: pending[q].error == Some(LocalError)
    {
      ghost var m0 := Contents(chans);
      shutdown := true;
      assert Contents(chans) == m0;
      finished := CompleteAll(pending, chans);
      LoopDecides(m0, Contents(chans), pending, finished);
    }
  }

  // The loop over the table.
  method CompleteAll(pending: map<nat, Call>, ghost chans: set<Chan>) returns (finished: bool)
    requires InUse(pending, chans)
    modifies pending.Values`error, chans`content
    ensures LoopEnded(old(Contents(chans)), Contents(chans), pending, finished)
    ensures finished ==> forall q <- pending :: pending[q].error == Some(LocalError)
  {
    ghost var m0 := Contents(chans);
    var todo := pending.Keys;
    ProgressStarts(m0, pending);
    while todo != {}
      invariant todo <= pending.Keys
      invariant Progress(m0, Contents(chans), pending, todo)
      invariant forall q <- pending :: q !in todo ==> pending[q].error == Some(LocalError)
      decreases todo
    {
      var q :| q in todo;
      var ok := CompleteOne(pending[q], q, pending, chans, m0, todo);
      if !ok {
        return false;
      }
      todo := todo - {q};
    }
    return true;
  }

  // One pass of the loop. False if the completion blocks.
  method CompleteOne(call: Call, ghost q: nat, ghost pending: map<nat, Call>, ghost chans: set<Chan>,
                     ghost m0: map<Chan, seq<Call>>, ghost todo: set<nat>)
    returns (ok: bool)
    requires q in todo && todo <= pending.Keys && pending[q] == call && call.done in chans
    requires Progress(m0, Contents(chans), pending, todo)
    modifies call`error, call.done`content
    ensures call.error == Some(LocalError)
    ensures ok ==> Progress(m0, Contents(chans), pending, todo - {q})
    ensures !ok ==> !HasRoomEverywhere(m0, pending)
  {
    ghost var m := Contents(chans);
    assert Filled(m0, m, pending, todo, call.done);
    ok := Fail(call, chans);
    if ok {
      ProgressStep(m0, m, pending, todo, q);
    } else {
      ProgressBlocks(m0, m, pending, todo, q);
    }
  }

  // Completes a call with an error of the client's own.
  method Fail(call: Call, ghost chans: set<Chan>) returns (ok: bool)
    requires call.done in chans
    modifies call`error, call.done`content
    ensures call.error == Some(LocalError) && ok == (|old(call.done.content)| < call.done.room)
    ensures Contents(chans) == if ok then old(Contents(chans))[call.done := old(call.done.content) + [call]]
                               else old(Contents(chans))
  {
    call.error := Some(LocalError);
    ok := call.done.Send(call);
  }

  ghost function Contents(chans: set<Chan>): map<Chan, seq<Call>>
    reads chans
  {
    map h | h in chans :: h.content
  }

  ghost predicate InUse(pending: map<nat, Call>, chans: set<Chan>)
    reads chans
  {
    (forall q <- pending :: pending[q].done in chans) && (forall h <- chans :: |h.content| <= h.room)
  }

  // It finishes if and only if there is room everywhere, and then every call is
  // completed.
  ghost predicate Terminated(m0: map<Chan, seq<Call>>, m: map<Chan, seq<Call>>, pending: map<nat, Call>,
                             finished: bool) {
    && (finished <==> HasRoomEverywhere(m0, pending))
    && (finished ==> AllCompleted(m0, m, pending))
  }

  // Every call is on its channel, behind what was there, and nothing else is.
  ghost predicate AllCompleted(m0: map<Chan, seq<Call>>, m: map<Chan, seq<Call>>, pending: map<nat, Call>) {
    && (forall h <- m :: h in m0 && m0[h] <= m[h] && |m[h]| == |m0[h]| + |On(pending, h)|)
    && (forall q <- pending :: Completed(m0, m, pending[q]))
  }
}
