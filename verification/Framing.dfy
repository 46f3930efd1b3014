// The protobuf codec's framing: every message travels behind its length, as
// four bytes in big-endian order. A request or response is two such frames,
// the header and the body.
module Framing {
  import opened Wrappers

  const LENGTH_MODULUS: nat := 0x1_0000_0000

  // Go's conversion to uint32 drops the high bits of a length.
  function LengthBytes(n: nat): (bytes: seq<byte>)
    ensures |bytes| == 4
  {
    [n / 0x100_0000 % 256, n / 0x1_0000 % 256, n / 256 % 256, n % 256]
  }

  function LengthOf(bytes: seq<byte>): nat
    requires |bytes| == 4
  {
    var b0: int, b1: int, b2: int, b3: int := bytes[0], bytes[1], bytes[2], bytes[3];
    ((b0 * 256 + b1) * 256 + b2) * 256 + b3
  }

  lemma LengthRoundTrip(n: nat)
    ensures LengthOf(LengthBytes(n)) == n % LENGTH_MODULUS
  {
    var n1 := n / 256;
    var n2 := n1 / 256;
    var n3 := n2 / 256;
    assert n2 == n / 0x1_0000 && n3 == n / 0x100_0000;
    assert n == ((n3 * 256 + n2 % 256) * 256 + n1 % 256) * 256 + n % 256;
    var n4 := n3 / 256;
    assert n == n4 * LENGTH_MODULUS + LengthOf(LengthBytes(n));
  }

  // The first byte that differs decides.
  predicate Before(a: seq<byte>, b: seq<byte>)
    requires |a| == |b| == 4
  {
    || a[0] < b[0]
    || (a[0] == b[0] && (a[1] < b[1] || (a[1] == b[1] && (a[2] < b[2] || (a[2] == b[2] && a[3] < b[3])))))
  }

  lemma OrderOfBytes(a: seq<byte>, b: seq<byte>)
    requires |a| == |b| == 4
    ensures Before(a, b) <==> LengthOf(a) < LengthOf(b)
  {
  }

  // The most significant byte comes first, so that lengths compare as their bytes.
  lemma LengthIsBigEndian(m: nat, n: nat)
    requires m < LENGTH_MODULUS && n < LENGTH_MODULUS
    ensures Before(LengthBytes(m), LengthBytes(n)) <==> m < n
  {
    ShortLength(m);
    ShortLength(n);
    OrderOfBytes(LengthBytes(m), LengthBytes(n));
  }

  function Encode(message: seq<byte>): seq<byte> {
    LengthBytes(|message|) + message
  }

  // Cut: the length arrived but not all of the data. The codec reports no error
  // then, and leaves the message it was to fill untouched.
  datatype Read = NoLength | Cut | Whole(message: seq<byte>, rest: seq<byte>)

  function ReadMessage(stream: seq<byte>): Read {
    if |stream| < 4 then NoLength
    else
      var n := LengthOf(stream[..4]);
      if |stream| < 4 + n then Cut else Whole(stream[4..4 + n], stream[4 + n..])
  }

  // One message survives the trip exactly when its length fits 32 bits.
  lemma FrameRoundTrip(message: seq<byte>, rest: seq<byte>)
    ensures ReadMessage(Encode(message) + rest) == Whole(message, rest) <==> |message| < LENGTH_MODULUS
  {
    if |message| >= LENGTH_MODULUS {
      LongMessageIsCutShort(message, rest);
    } else {
      ShortMessageArrives(message, rest);
    }
  }

  lemma ShortMessageArrives(message: seq<byte>, rest: seq<byte>)
    requires |message| < LENGTH_MODULUS
    ensures ReadMessage(Encode(message) + rest) == Whole(message, rest)
  {
    ShortLength(|message|);
    ReadsWhole(LengthBytes(|message|), message, rest);
  }

  lemma ShortLength(n: nat)
    requires n < LENGTH_MODULUS
    ensures LengthOf(LengthBytes(n)) == n
  {
    LengthRoundTrip(n);
  }

  lemma ReadsWhole(head: seq<byte>, message: seq<byte>, rest: seq<byte>)
    requires |head| == 4 && LengthOf(head) == |message|
    ensures ReadMessage((head + message) + rest) == Whole(message, rest)
  {
    Parts(head, message, rest);
  }

  lemma LongMessageIsCutShort(message: seq<byte>, rest: seq<byte>)
    requires |message| >= LENGTH_MODULUS
    ensures var read := ReadMessage(Encode(message) + rest); read.Whole? ==> |read.message| < |message|
  {
    LengthRoundTrip(|message|);
    Parts(LengthBytes(|message|), message, rest);
    ShorterPart(Encode(message) + rest, |message|);
  }

  lemma Parts(head: seq<byte>, message: seq<byte>, rest: seq<byte>)
    requires |head| == 4
    ensures var stream := (head + message) + rest;
            stream[..4] == head && stream[4..4 + |message|] == message && stream[4 + |message|..] == rest
  {
  }

  lemma ShorterPart(stream: seq<byte>, n: nat)
    requires LENGTH_MODULUS <= n && 4 + n <= |stream|
    ensures n % LENGTH_MODULUS < n && |stream[4..4 + n % LENGTH_MODULUS]| == n % LENGTH_MODULUS
  {
  }

  // A frame cut off anywhere is noticed only if not even its length arrived.
  lemma CutFrameIsNoticedOnlyWithoutLength(message: seq<byte>, k: nat)
    requires |message| < LENGTH_MODULUS && k < |Encode(message)|
    ensures ReadMessage(Encode(message)[..k]) == if k < 4 then NoLength else Cut
  {
    if 4 <= k {
      LengthRoundTrip(|message|);
      assert Encode(message)[..k][..4] == LengthBytes(|message|);
    }
  }

  function EncodeAll(messages: seq<seq<byte>>): seq<byte> {
    if messages == [] then [] else Encode(messages[0]) + EncodeAll(messages[1..])
  }

  lemma {:induction false} EncodeAllAppend(a: seq<seq<byte>>, b: seq<seq<byte>>)
    ensures EncodeAll(a + b) == EncodeAll(a) + EncodeAll(b)
  {
    if a == [] {
      assert a + b == b;
    } else {
      assert (a + b)[1..] == a[1..] + b;
      EncodeAllAppend(a[1..], b);
    }
  }

  // What `count` calls of ReadMessage yield, if all of them find a whole message.
  function ReadMany(stream: seq<byte>, count: nat): Option<(seq<seq<byte>>, seq<byte>)> {
    if count == 0 then Some(([], stream))
    else
      match ReadMessage(stream)
      case Whole(message, rest) =>
        (match ReadMany(rest, count - 1)
         case Some((messages, end)) => Some(([message] + messages, end))
         case None => None)
      case _ => None
  }

  lemma SameTail(messages: seq<seq<byte>>, read: Option<(seq<seq<byte>>, seq<byte>)>, rest: seq<byte>)
    requires messages != []
    ensures read.Some? ==>
              ([messages[0]] + read.value.0 == messages && read.value.1 == rest
               <==> read == Some((messages[1..], rest)))
  {
    if read.Some? && [messages[0]] + read.value.0 == messages {
      assert read.value.0 == ([messages[0]] + read.value.0)[1..];
    }
  }

  lemma {:induction false} FirstFrameDecides(messages: seq<seq<byte>>, rest: seq<byte>, tail: seq<byte>)
    requires messages != [] && |messages[0]| >= LENGTH_MODULUS
    ensures ReadMany(Encode(messages[0]) + tail, |messages|) != Some((messages, rest))
  {
    var stream := Encode(messages[0]) + tail;
    LengthRoundTrip(|messages[0]|);
    assert stream[..4] == LengthBytes(|messages[0]|);
    if ReadMessage(stream).Whole? {
      assert |ReadMessage(stream).message| < LENGTH_MODULUS;
    }
  }

  lemma Assoc<T>(a: seq<T>, b: seq<T>, c: seq<T>)
    ensures (a + b) + c == a + (b + c)
  {
  }

  // The first step of reading a list back, when its first message fits.
  lemma {:induction false} ReadFirst(messages: seq<seq<byte>>, rest: seq<byte>)
    requires messages != [] && |messages[0]| < LENGTH_MODULUS
    ensures ReadMessage(EncodeAll(messages) + rest) == Whole(messages[0], EncodeAll(messages[1..]) + rest)
  {
    FrameRoundTrip(messages[0], EncodeAll(messages[1..]) + rest);
    Assoc(Encode(messages[0]), EncodeAll(messages[1..]), rest);
  }

  lemma {:induction false} ListArrives(messages: seq<seq<byte>>, rest: seq<byte>)
    requires forall m <- messages :: |m| < LENGTH_MODULUS
    ensures ReadMany(EncodeAll(messages) + rest, |messages|) == Some((messages, rest))
  {
    if messages == [] {
      assert EncodeAll(messages) + rest == rest;
    } else {
      ReadFirst(messages, rest);
      ListArrives(messages[1..], rest);
      assert [messages[0]] + messages[1..] == messages;
    }
  }

  lemma {:induction false} ListBreaks(messages: seq<seq<byte>>, rest: seq<byte>, i: nat)
    requires i < |messages| && |messages[i]| >= LENGTH_MODULUS
    ensures ReadMany(EncodeAll(messages) + rest, |messages|) != Some((messages, rest))
  {
    var tail := EncodeAll(messages[1..]) + rest;
    if |messages[0]| < LENGTH_MODULUS {
      ReadFirst(messages, rest);
      ListBreaks(messages[1..], rest, i - 1);
      SameTail(messages, ReadMany(tail, |messages| - 1), rest);
    } else {
      Assoc(Encode(messages[0]), EncodeAll(messages[1..]), rest);
      FirstFrameDecides(messages, rest, tail);
    }
  }

  // A list of messages survives the trip, with nothing read of what follows,
  // exactly when all of their lengths fit 32 bits.
  lemma {:induction false} ListRoundTrip(messages: seq<seq<byte>>, rest: seq<byte>)
    ensures ReadMany(EncodeAll(messages) + rest, |messages|) == Some((messages, rest))
            <==> forall m <- messages :: |m| < LENGTH_MODULUS
  {
    if i: nat :| i < |messages| && |messages[i]| >= LENGTH_MODULUS {
      ListBreaks(messages, rest, i);
    } else {
      ListArrives(messages, rest);
    }
  }

  // --- Writing -----------------------------------------------------------------

  // `None` is a message that cannot be marshalled.
  datatype Body = Absent | EmptyStruct | Message(data: Option<seq<byte>>) | NotAMessage

  datatype Outgoing = Outgoing(header: Option<seq<byte>>, body: Body)

  function BodyFrame(body: Body): Option<seq<byte>> {
    match body
    case Absent => Some([])
    case EmptyStruct => Some([])
    case Message(data) => data
    case NotAMessage => None
  }

  // The frames one Write leaves on the buffered connection. A header goes out
  // before its body is looked at, so it stays behind when the body has no frame.
  function FramesOf(w: Outgoing): seq<seq<byte>> {
    if w.header.None? then []
    else if BodyFrame(w.body).None? then [w.header.value]
    else [w.header.value, BodyFrame(w.body).value]
  }

  predicate Writes(w: Outgoing) {
    w.header.Some? && BodyFrame(w.body).Some?
  }

  predicate LeavesHeader(w: Outgoing) {
    w.header.Some? && BodyFrame(w.body).None?
  }

  function AllFrames(ws: seq<Outgoing>): seq<seq<byte>> {
    if ws == [] then [] else FramesOf(ws[0]) + AllFrames(ws[1..])
  }

  // The header-and-body pairs of the writes that reported success.
  function SuccessfulPairs(ws: seq<Outgoing>): seq<seq<byte>> {
    if ws == [] then []
    else (if Writes(ws[0]) then FramesOf(ws[0]) else []) + SuccessfulPairs(ws[1..])
  }

  lemma {:induction false} FrameCounts(ws: seq<Outgoing>)
    ensures |SuccessfulPairs(ws)| <= |AllFrames(ws)|
    ensures |SuccessfulPairs(ws)| == |AllFrames(ws)| ==> forall w <- ws :: !LeavesHeader(w)
  {
    if ws != [] {
      FrameCounts(ws[1..]);
    }
  }

  // However many writers take turns, the connection parses as the pairs of the
  // successful writes exactly when no write stopped between header and body.
  lemma {:induction false} StreamIsPairsIffNoHeaderLeft(ws: seq<Outgoing>)
    ensures AllFrames(ws) == SuccessfulPairs(ws) <==> forall w <- ws :: !LeavesHeader(w)
  {
    FrameCounts(ws);
    if forall w <- ws :: !LeavesHeader(w) {
      if ws != [] {
        assert !LeavesHeader(ws[0]) && ws == [ws[0]] + ws[1..];
        StreamIsPairsIffNoHeaderLeft(ws[1..]);
      }
    }
  }

  // The same bytes, in the order in which Write produces them.
  function WriteBytes(w: Outgoing): seq<byte> {
    if w.header.None? then [] else Encode(w.header.value) + BytesOf(w.body)
  }

  function BytesOf(body: Body): seq<byte> {
    if BodyFrame(body).None? then [] else Encode(BodyFrame(body).value)
  }

  lemma WriteBytesAreFrames(w: Outgoing)
    ensures WriteBytes(w) == EncodeAll(FramesOf(w))
  {
    if Writes(w) {
      assert [w.header.value] + [BodyFrame(w.body).value] == FramesOf(w);
      EncodeAllAppend([w.header.value], [BodyFrame(w.body).value]);
    }
  }

  // --- The codec object --------------------------------------------------------

  // What the connection does to a flush: it takes everything, or fails after
  // some bytes.
  datatype Flushing = Taken | FailsAfter(bytes: nat)

  // What a full buffer does while bytes are appended to it: nothing, because it
  // is not full; or it hands some on; or that fails, after some of the new bytes
  // were buffered.
  datatype Early = Stays | HandsOn(bytes: nat) | Breaks(buffered: nat, bytes: nat)

  // The first n appends of a write meet no error.
  ghost predicate Smooth(early: nat -> Early, n: nat) {
    forall i: nat :: i < n ==> !early(i).Breaks?
  }

  // How often a write appends to the buffer: for each message its length and its
  // data, and for an empty body its length.
  function Appends(w: Outgoing): nat {
    if w.header.None? then 0 else 2 + BodyAppends(w.body)
  }

  function BodyAppends(body: Body): nat {
    match body
    case Absent => 1
    case EmptyStruct => 1
    case Message(data) => if data.Some? then 2 else 0
    case NotAMessage => 0
  }

  // The appends of a write are those of its header and those of its body.
  lemma SmoothParts(early: nat -> Early, w: Outgoing)
    requires w.header.Some?
    ensures Smooth(early, Appends(w))
       <==> Smooth(early, 2) && Smooth((i: nat) => early(i + 2), BodyAppends(w.body))
  {
    var later := (i: nat) => early(i + 2);
    if Smooth(early, 2) && Smooth(later, BodyAppends(w.body)) {
      forall i: nat | i < Appends(w) ensures !early(i).Breaks? {
        assert i >= 2 ==> early(i) == later(i - 2);
      }
    }
    if Smooth(early, Appends(w)) {
      forall i: nat | i < BodyAppends(w.body) ensures !later(i).Breaks? {
        assert later(i) == early(i + 2);
      }
    }
  }

  // `after` is `before` with some first part of p.
  ghost predicate Between(before: seq<byte>, after: seq<byte>, p: seq<byte>) {
    exists n: nat :: n <= |p| && after == before + p[..n]
  }

  lemma BetweenWhole(before: seq<byte>, p: seq<byte>, q: seq<byte>)
    ensures Between(before, before, p) && Between(before, before + p, p + q)
  {
    assert before + p[..0] == before && (p + q)[..|p|] == p;
  }

  lemma HandedOn(out: seq<byte>, all: seq<byte>, k: nat)
    requires k <= |all|
    ensures (out + all[..k]) + all[k..] == out + all && out <= out + all[..k] && (k == 0 ==> out + all[..k] == out)
  {
    assert all == all[..k] + all[k..];
  }

  lemma BetweenFirst(before: seq<byte>, after: seq<byte>, p: seq<byte>, q: seq<byte>)
    requires Between(before, after, p)
    ensures Between(before, after, p + q)
  {
    var n: nat :| n <= |p| && after == before + p[..n];
    assert (p + q)[..n] == p[..n];
  }

  lemma BetweenSecond(before: seq<byte>, after: seq<byte>, p: seq<byte>, q: seq<byte>)
    requires Between(before + p, after, q)
    ensures Between(before, after, p + q)
  {
    var n: nat :| n <= |q| && after == before + p + q[..n];
    assert (p + q)[..|p| + n] == p + q[..n];
  }

  // What ReadBody is to fill.
  datatype Target = Nothing | NotAMessage | Into

  class ProtobufCodec {
    var inbound: seq<byte>   // what the peer has sent and is not read yet
    var outbound: seq<byte>  // what has been handed to the connection
    var buffer: seq<byte>    // what waits in the buffered writer
    var failed: bool         // the buffered writer has seen an error, and repeats it

    ghost function Stream(): seq<byte>
      reads this
    {
      outbound + buffer
    }

    constructor (inbound: seq<byte>)
      ensures this.inbound == inbound && outbound == [] && buffer == [] && !failed
    {
      this.inbound, outbound, buffer, failed := inbound, [], [], false;
    }

    method Flush(f: Flushing) returns (ok: bool)
      modifies this`outbound, this`buffer, this`failed
      ensures Stream() == old(Stream()) && old(outbound) <= outbound
      ensures ok == (!old(failed) && f.Taken?) && failed == !ok
      ensures ok ==> buffer == []
      ensures old(failed) ==> outbound == old(outbound)
      ensures !old(failed) && f.FailsAfter?
              ==> |outbound| - |old(outbound)| == if f.bytes < |old(buffer)| then f.bytes else |old(buffer)|
    {
      if failed {
        return false;
      }
      match f {
        case Taken =>
          outbound, buffer := outbound + buffer, [];
          return true;
        case FailsAfter(bytes) =>
          var n := if bytes < |buffer| then bytes else |buffer|;
          assert buffer == buffer[..n] + buffer[n..];
          outbound, buffer, failed := outbound + buffer[..n], buffer[n..], true;
          return false;
      }
    }

    method Append(p: seq<byte>, e: Early) returns (ok: bool)
      modifies this`outbound, this`buffer, this`failed
      ensures ok == (!old(failed) && !e.Breaks?) && failed == !ok
      ensures Between(old(Stream()), Stream(), p) && (ok ==> Stream() == old(Stream()) + p)
      ensures old(failed) ==> Stream() == old(Stream())
      ensures old(outbound) <= outbound && (old(failed) || e.Stays? ==> outbound == old(outbound))
      ensures !old(failed) && e.Breaks?
              ==> |Stream()| - |old(Stream())| == if e.buffered < |p| then e.buffered else |p|
      ensures !old(failed) && !e.Stays? ==> var out := |outbound| - |old(outbound)|;
                                            out == e.bytes || (out < e.bytes && buffer == [])
    {
      if failed {
        BetweenWhole(Stream(), p, []);
        return false;
      }
      var n := if e.Breaks? && e.buffered < |p| then e.buffered else |p|;
      var all := buffer + p[..n];
      var k := if e.Stays? then 0 else if e.bytes < |all| then e.bytes else |all|;
      HandedOn(outbound, all, k);
      Assoc(outbound, buffer, p[..n]);
      outbound, buffer, failed := outbound + all[..k], all[k..], e.Breaks?;
      assert n == |p| ==> p[..n] == p;
      return !failed;
    }

    method WriteMessage(data: Option<seq<byte>>, early: nat -> Early) returns (ok: bool)
      modifies this`outbound, this`buffer, this`failed
      ensures ok == (data.Some? && !old(failed) && Smooth(early, 2))
      ensures failed == (old(failed) || (data.Some? && !Smooth(early, 2)))
      ensures if data.Some? then Between(old(Stream()), Stream(), Encode(data.value)) else Stream() == old(Stream())
      ensures ok ==> Stream() == old(Stream()) + Encode(data.value)
      ensures old(failed) ==> Stream() == old(Stream())
      ensures old(outbound) <= outbound
      ensures old(failed) || data.None? || (early(0).Stays? && early(1).Stays?) ==> outbound == old(outbound)
    {
      if data.None? {
        return false;
      }
      ghost var before, head := Stream(), LengthBytes(|data.value|);
      ok := Append(LengthBytes(|data.value|), early(0));
      if !ok {
        BetweenFirst(before, Stream(), head, data.value);
        return false;
      }
      ok := Append(data.value, early(1));
      BetweenSecond(before, Stream(), head, data.value);
      Assoc(before, head, data.value);
    }

    method WriteEmptyBody(e: Early, f: Flushing) returns (ok: bool)
      modifies this`outbound, this`buffer, this`failed
      ensures ok == (!old(failed) && !e.Breaks? && f.Taken?) && failed == !ok
      ensures Between(old(Stream()), Stream(), Encode([]))
      ensures !old(failed) && !e.Breaks? ==> Stream() == old(Stream()) + Encode([])
      ensures old(failed) ==> Stream() == old(Stream()) && outbound == old(outbound)
      ensures old(outbound) <= outbound && (ok ==> buffer == [])
    {
      assert Encode([]) == LengthBytes(0);
      ok := Append(LengthBytes(0), e);
      if ok {
        ok := Flush(f);
      }
    }

    // The second half of Write, in which nothing has failed yet.
    method WriteBody(body: Body, early: nat -> Early, f: Flushing) returns (ok: bool)
      requires !failed
      modifies this`outbound, this`buffer, this`failed
      ensures ok == (BodyFrame(body).Some? && Smooth(early, BodyAppends(body)) && f.Taken?)
      ensures Between(old(Stream()), Stream(), BytesOf(body))
      ensures Smooth(early, BodyAppends(body)) ==> Stream() == old(Stream()) + BytesOf(body)
      ensures old(outbound) <= outbound && (ok ==> buffer == [])
      ensures BodyFrame(body).None? ==> outbound == old(outbound)
      ensures failed == (BodyFrame(body).Some? && (f.FailsAfter? || !Smooth(early, BodyAppends(body))))
    {
      BetweenWhole(Stream(), BytesOf(body), []);
      match body {
        case Absent => ok := WriteEmptyBody(early(0), f);
        case EmptyStruct => ok := WriteEmptyBody(early(0), f);
        case NotAMessage => ok := false;
        case Message(data) =>
          ok := WriteMessage(data, early);
          if ok {
            ok := Flush(f);
          }
      }
    }

    // Succeeds if and only if both parts can be marshalled, the writer has not
    // failed before or meanwhile, and the connection takes the bytes. Whatever
    // fails, what was appended is a first part of the frames.
    method Write(w: Outgoing, early: nat -> Early, f: Flushing) returns (ok: bool)
      modifies this`outbound, this`buffer, this`failed
      ensures ok == (Writes(w) && !old(failed) && Smooth(early, Appends(w)) && f.Taken?)
      ensures Between(old(Stream()), Stream(), EncodeAll(FramesOf(w)))
      ensures !old(failed) && Smooth(early, Appends(w)) ==> Stream() == old(Stream()) + EncodeAll(FramesOf(w))
      ensures ok ==> w.header.Some? && !w.body.NotAMessage? && w.body != Message(None)
      ensures !old(failed) && w.header.Some? && Smooth(early, Appends(w)) ==>
                Stream() == old(Stream()) + (Encode(w.header.value)
                                           + match w.body
                                             case Absent => [0, 0, 0, 0]
                                             case EmptyStruct => [0, 0, 0, 0]
                                             case Message(Some(data)) => Encode(data)
                                             case _ => [])
      ensures old(failed) ==> Stream() == old(Stream())
      ensures old(outbound) <= outbound && (ok ==> buffer == [])
      ensures old(failed) || (!Writes(w) && early(0).Stays? && early(1).Stays?) ==> outbound == old(outbound)
      ensures failed == (old(failed) || !Smooth(early, Appends(w)) || (Writes(w) && f.FailsAfter?))
    {
      WriteBytesAreFrames(w);
      ghost var before := Stream();
      BetweenWhole(before, WriteBytes(w), []);
      if w.header.Some? {
        SmoothParts(early, w);
      }
      ok := WriteMessage(w.header, early);
      if !ok {
        if w.header.Some? {
          BetweenFirst(before, Stream(), Encode(w.header.value), BytesOf(w.body));
        }
        return;
      }
      ok := WriteBody(w.body, (i: nat) => early(i + 2), f);
      BetweenSecond(before, Stream(), Encode(w.header.value), BytesOf(w.body));
      Assoc(before, Encode(w.header.value), BytesOf(w.body));
    }

    // False when the length cannot be read, or when the message is wanted and
    // cannot be parsed; a frame cut short yields no message and no error, and
    // uses up the stream.
    method NextMessage(wanted: bool, parses: seq<byte> -> bool) returns (ok: bool, message: Option<seq<byte>>)
      modifies this`inbound
      ensures match ReadMessage(old(inbound))
              case NoLength => !ok && message == None && inbound == []
              case Cut => ok && message == None && inbound == []
              case Whole(m, rest) =>
                ok == (wanted ==> parses(m)) && message == (if ok then Some(m) else None) && inbound == rest
    {
      if |inbound| < 4 {
        inbound := [];
        return false, None;
      }
      var n := LengthOf(inbound[..4]);
      inbound := inbound[4..];
      if |inbound| < n {
        inbound := [];
        return true, None;
      }
      assert inbound[..n] == old(inbound)[4..4 + n] && inbound[n..] == old(inbound)[4 + n..];
      var data := inbound[..n];
      inbound := inbound[n..];
      ok := wanted ==> parses(data);
      message := if ok then Some(data) else None;
    }

    // ReadHeader never reports an error: without a message that can be parsed the
    // header stays blank.
    method ReadHeader(parses: seq<byte> -> bool) returns (header: Option<seq<byte>>)
      modifies this`inbound
      ensures match ReadMessage(old(inbound))
              case Whole(m, rest) => header == (if parses(m) then Some(m) else None) && inbound == rest
              case _ => header == None && inbound == []
    {
      var ok;
      ok, header := NextMessage(true, parses);
    }

    // A target that is no protobuf message is refused before anything is read;
    // a body that is not wanted is skipped.
    method ReadBody(target: Target, parses: seq<byte> -> bool) returns (ok: bool, body: Option<seq<byte>>)
      modifies this`inbound
      ensures target.NotAMessage? ==> !ok && body == None && inbound == old(inbound)
      ensures !target.NotAMessage? ==>
                match ReadMessage(old(inbound))
                case NoLength => !ok && body == None && inbound == []
                case Cut => ok && body == None && inbound == []
                case Whole(m, rest) =>
                  ok == (target.Into? ==> parses(m)) && body == (if ok then Some(m) else None) && inbound == rest
    {
      match target {
        case Nothing => ok, body := NextMessage(false, parses);
        case NotAMessage => return false, None;
        case Into => ok, body := NextMessage(true, parses);
      }
    }
  }

  // --- What the server makes of the frames -------------------------------------

  datatype Header = Header(seqNo: nat, service: string)

  // One request header and the body that belongs to it.
  datatype Sent = Sent(header: seq<byte>, body: seq<byte>)

  datatype Served = Refused(seqNo: nat) | Handled(seqNo: nat, body: Option<seq<byte>>)

  function Frames(requests: seq<Sent>): seq<seq<byte>> {
    if requests == [] then [] else [requests[0].header, requests[0].body] + Frames(requests[1..])
  }

  // A method is served if it is registered, and its body is read only if its
  // argument is a protobuf message. The server serves a request all the same
  // when its body could not be read.
  datatype Method = Unknown | TakesNoMessage | TakesMessage

  // readRequest in a loop, as far as these frames go, on a connection that stays
  // open. After a body that is not read the next frame, which is that body, is
  // taken for a header.
  function Serve(frames: seq<seq<byte>>, decode: seq<byte> -> Header, find: string -> Method): seq<Served> {
    if frames == [] then []
    else
      var h := decode(frames[0]);
      match find(h.service)
      case Unknown => [Refused(h.seqNo)] + Serve(frames[1..], decode, find)
      case TakesNoMessage => [Handled(h.seqNo, None)] + Serve(frames[1..], decode, find)
      case TakesMessage =>
        if |frames| == 1 then [Handled(h.seqNo, None)]
        else [Handled(h.seqNo, Some(frames[1]))] + Serve(frames[2..], decode, find)
  }

  function Expected(requests: seq<Sent>, decode: seq<byte> -> Header): seq<Served> {
    if requests == [] then []
    else [Handled(decode(requests[0].header).seqNo, Some(requests[0].body))] + Expected(requests[1..], decode)
  }

  lemma {:induction false} ExpectedLength(requests: seq<Sent>, decode: seq<byte> -> Header)
    ensures |Expected(requests, decode)| == |requests|
  {
    if requests != [] {
      ExpectedLength(requests[1..], decode);
    }
  }

  lemma {:induction false} ServeIsLongEnough(frames: seq<seq<byte>>, decode: seq<byte> -> Header,
                                             find: string -> Method)
    ensures 2 * |Serve(frames, decode, find)| >= |frames|
    decreases |frames|
  {
    if frames != [] {
      if !find(decode(frames[0]).service).TakesMessage? {
        ServeIsLongEnough(frames[1..], decode, find);
      } else if |frames| > 1 {
        ServeIsLongEnough(frames[2..], decode, find);
      }
    }
  }

  lemma {:induction false} FramesLength(requests: seq<Sent>)
    ensures |Frames(requests)| == 2 * |requests|
  {
    if requests != [] {
      FramesLength(requests[1..]);
    }
  }

  // Every request is for a method whose body will be read.
  predicate AllTaken(requests: seq<Sent>, decode: seq<byte> -> Header, find: string -> Method) {
    forall r <- requests :: find(decode(r.header).service).TakesMessage?
  }

  // The server answers request for request, each with its own body, exactly when
  // every method is known and takes a protobuf message; after one that is not or
  // does not, it answers more often than it was asked.
  lemma {:induction false} ServedOneForOneIffAllTaken(
      requests: seq<Sent>, decode: seq<byte> -> Header, find: string -> Method)
    ensures var served := Serve(Frames(requests), decode, find);
            && (AllTaken(requests, decode, find) <==> served == Expected(requests, decode))
            && (AllTaken(requests, decode, find) <==> |served| == |requests|)
            && (!AllTaken(requests, decode, find) <==> |served| > |requests|)
            && |Expected(requests, decode)| == |requests|
  {
    ExpectedLength(requests, decode);
    if requests != [] {
      var frames := Frames(requests);
      assert frames[2..] == Frames(requests[1..]);
      assert requests == [requests[0]] + requests[1..];
      ServedOneForOneIffAllTaken(requests[1..], decode, find);
      ExpectedLength(requests[1..], decode);
      if find(decode(requests[0].header).service).TakesMessage? {
        FirstIsServed(requests, decode, find);
      } else {
        ServeIsLongEnough(frames[1..], decode, find);
        FramesLength(requests);
      }
    }
  }

  lemma {:induction false} FirstIsServed(requests: seq<Sent>, decode: seq<byte> -> Header, find: string -> Method)
    requires requests != [] && find(decode(requests[0].header).service).TakesMessage?
    ensures var rest := Serve(Frames(requests[1..]), decode, find);
            var served := Serve(Frames(requests), decode, find);
            && |served| == |rest| + 1
            && (served == Expected(requests, decode) <==> rest == Expected(requests[1..], decode))
  {
    var frames := Frames(requests);
    assert frames[2..] == Frames(requests[1..]);
    var rest := Serve(Frames(requests[1..]), decode, find);
    var first := [Handled(decode(requests[0].header).seqNo, Some(requests[0].body))];
    assert Serve(frames, decode, find) == first + rest;
    if first + rest == first + Expected(requests[1..], decode) {
      assert rest == (first + rest)[1..];
    }
  }

  // The requests whose writing succeeded.
  function Requests(ws: seq<Outgoing>): seq<Sent> {
    if ws == [] then []
    else (if Writes(ws[0]) then [Sent(ws[0].header.value, BodyFrame(ws[0].body).value)] else []) + Requests(ws[1..])
  }

  lemma {:induction false} PairsAreRequests(ws: seq<Outgoing>)
    ensures SuccessfulPairs(ws) == Frames(Requests(ws))
  {
    if ws != [] {
      PairsAreRequests(ws[1..]);
      if Writes(ws[0]) {
        assert Requests(ws)[1..] == Requests(ws[1..]);
      } else {
        assert Requests(ws) == Requests(ws[1..]) && SuccessfulPairs(ws) == SuccessfulPairs(ws[1..]);
      }
    }
  }

  // What is on the connection after some writes, and what waits in the buffer: a
  // write that succeeds flushes, and no other does.
  function Written(ws: seq<Outgoing>): (seq<seq<byte>>, seq<seq<byte>>) {
    if ws == [] then ([], [])
    else
      var (out, buffer) := Written(ws[..|ws| - 1]);
      var frames := buffer + FramesOf(ws[|ws| - 1]);
      if Writes(ws[|ws| - 1]) then (out + frames, []) else (out, frames)
  }

  // The writes up to the last one that succeeded.
  function LastFlush(ws: seq<Outgoing>): (n: nat)
    ensures n <= |ws|
  {
    if ws == [] || Writes(ws[|ws| - 1]) then |ws| else LastFlush(ws[..|ws| - 1])
  }

  lemma {:induction false} AllFramesConcat(a: seq<Outgoing>, b: seq<Outgoing>)
    ensures AllFrames(a + b) == AllFrames(a) + AllFrames(b)
  {
    if a == [] {
      assert a + b == b;
    } else {
      assert (a + b)[1..] == a[1..] + b;
      AllFramesConcat(a[1..], b);
    }
  }

  lemma Rejoined<T>(s: seq<T>, n: nat)
    requires n <= |s|
    ensures s[..n] + s[n..] == s
  {
  }

  lemma {:induction false} AllFramesSplit(ws: seq<Outgoing>, n: nat)
    requires n <= |ws|
    ensures AllFrames(ws) == AllFrames(ws[..n]) + AllFrames(ws[n..])
  {
    AllFramesConcat(ws[..n], ws[n..]);
    Rejoined(ws, n);
  }

  lemma {:induction false} AllFramesOfOneMore(ws: seq<Outgoing>, last: Outgoing)
    ensures AllFrames(ws + [last]) == AllFrames(ws) + FramesOf(last)
  {
    assert AllFrames([last]) == FramesOf(last);
    AllFramesConcat(ws, [last]);
  }

  lemma {:induction false} WrittenThen(ws: seq<Outgoing>, last: Outgoing)
    ensures var (out, buffer) := Written(ws);
            Written(ws + [last]) == if Writes(last) then (out + (buffer + FramesOf(last)), [])
            else (out, buffer + FramesOf(last))
  {
    assert (ws + [last])[..|ws|] == ws;
  }

  lemma {:induction false} FlushTakesAll(ws: seq<Outgoing>, last: Outgoing, n: nat)
    requires n <= |ws| && Written(ws) == (AllFrames(ws[..n]), AllFrames(ws[n..])) && Writes(last)
    ensures Written(ws + [last]) == (AllFrames(ws + [last]), [])
  {
    WrittenThen(ws, last);
    AllFramesSplit(ws, n);
    AllFramesOfOneMore(ws, last);
    Assoc(AllFrames(ws[..n]), AllFrames(ws[n..]), FramesOf(last));
  }

  lemma SlicesOfOneMore<T>(s: seq<T>, x: T, n: nat)
    requires n <= |s|
    ensures (s + [x])[..n] == s[..n] && (s + [x])[n..] == s[n..] + [x]
  {
  }

  lemma {:induction false} OthersStayBehind(ws: seq<Outgoing>, last: Outgoing, n: nat)
    requires n <= |ws| && Written(ws) == (AllFrames(ws[..n]), AllFrames(ws[n..])) && !Writes(last)
    ensures Written(ws + [last]) == (AllFrames((ws + [last])[..n]), AllFrames((ws + [last])[n..]))
  {
    WrittenThen(ws, last);
    AllFramesOfOneMore(ws[n..], last);
    SlicesOfOneMore(ws, last, n);
  }

  lemma {:induction false} WrittenUpToLastFlush(ws: seq<Outgoing>)
    ensures var n := LastFlush(ws); Written(ws) == (AllFrames(ws[..n]), AllFrames(ws[n..]))
  {
    if ws != [] {
      var before, last := ws[..|ws| - 1], ws[|ws| - 1];
      WrittenUpToLastFlush(before);
      assert ws == before + [last];
      if Writes(last) {
        FlushTakesAll(before, last, LastFlush(before));
        assert ws[..|ws|] == ws && ws[|ws|..] == [];
      } else {
        OthersStayBehind(before, last, LastFlush(before));
      }
    }
  }

  lemma {:induction false} RequestsUpToLastFlush(ws: seq<Outgoing>)
    ensures Requests(ws[..LastFlush(ws)]) == Requests(ws)
  {
    if ws == [] || Writes(ws[|ws| - 1]) {
      assert ws[..|ws|] == ws;
    } else {
      var before, last := ws[..|ws| - 1], ws[|ws| - 1];
      RequestsUpToLastFlush(before);
      RequestsKept(before, last, LastFlush(before));
      assert ws == before + [last];
    }
  }

  lemma {:induction false} RequestsKept(ws: seq<Outgoing>, last: Outgoing, n: nat)
    requires n <= |ws| && Requests(ws[..n]) == Requests(ws) && !Writes(last)
    ensures Requests((ws + [last])[..n]) == Requests(ws + [last])
  {
    SlicesOfOneMore(ws, last, n);
    RequestsWithout(ws, last);
  }

  lemma {:induction false} RequestsWithout(ws: seq<Outgoing>, last: Outgoing)
    requires !Writes(last)
    ensures Requests(ws + [last]) == Requests(ws)
  {
    if ws == [] {
      assert Requests([last]) == [];
    } else {
      assert (ws + [last])[1..] == ws[1..] + [last];
      RequestsWithout(ws[1..], last);
    }
  }

  // A header left alone goes out with a later write.
  ghost predicate StrayGoesOut(ws: seq<Outgoing>) {
    exists i, j :: 0 <= i < j < |ws| && LeavesHeader(ws[i]) && Writes(ws[j])
  }

  lemma {:induction false} LastFlushWrites(ws: seq<Outgoing>)
    ensures LastFlush(ws) > 0 ==> Writes(ws[LastFlush(ws) - 1])
    ensures forall j :: LastFlush(ws) <= j < |ws| ==> !Writes(ws[j])
  {
    if ws != [] && !Writes(ws[|ws| - 1]) {
      LastFlushWrites(ws[..|ws| - 1]);
    }
  }

  lemma {:induction false} StraysUpToLastFlush(ws: seq<Outgoing>)
    ensures StrayGoesOut(ws) <==> !(forall w <- ws[..LastFlush(ws)] :: !LeavesHeader(w))
  {
    var n := LastFlush(ws);
    LastFlushWrites(ws);
    if w :| w in ws[..n] && LeavesHeader(w) {
      var i :| 0 <= i < n && ws[i] == w;
      assert i < n - 1 && Writes(ws[n - 1]);
    }
  }

  // From the client's writes to the server's answers: the requests that were
  // written successfully are served one for one, each with its own body, if and
  // only if no failed write left a header behind that went out, with a later
  // write or with the first `early` frames of a full buffer, and every method is
  // known and takes a protobuf message.
  lemma {:induction false} WritesServedOneForOneIff(
      ws: seq<Outgoing>, early: nat, decode: seq<byte> -> Header, find: string -> Method)
    requires early <= |Written(ws).1|
    ensures Serve(Written(ws).0 + Written(ws).1[..early], decode, find) == Expected(Requests(ws), decode)
            <==> !StrayGoesOut(ws) && early == 0 && AllTaken(Requests(ws), decode, find)
  {
    WrittenUpToLastFlush(ws);
    RequestsUpToLastFlush(ws);
    StraysUpToLastFlush(ws);
    var flushed := ws[..LastFlush(ws)];
    if early == 0 {
      assert Written(ws).0 + Written(ws).1[..0] == Written(ws).0;
      FramesServedOneForOneIff(flushed, decode, find);
    } else {
      FrameCounts(flushed);
      PairsAreRequests(flushed);
      MoreFramesThanRequests(AllFrames(flushed) + Written(ws).1[..early], Requests(ws), decode, find);
    }
  }

  lemma {:induction false} MoreFramesThanRequests(
      frames: seq<seq<byte>>, requests: seq<Sent>, decode: seq<byte> -> Header,
      find: string -> Method)
    requires |frames| > |Frames(requests)|
    ensures Serve(frames, decode, find) != Expected(requests, decode)
  {
    FramesLength(requests);
    ExpectedLength(requests, decode);
    ServeIsLongEnough(frames, decode, find);
  }

  lemma {:induction false} FramesServedOneForOneIff(
      ws: seq<Outgoing>, decode: seq<byte> -> Header, find: string -> Method)
    ensures Serve(AllFrames(ws), decode, find) == Expected(Requests(ws), decode)
            <==> (forall w <- ws :: !LeavesHeader(w)) && AllTaken(Requests(ws), decode, find)
  {
    PairsAreRequests(ws);
    StreamIsPairsIffNoHeaderLeft(ws);
    if forall w <- ws :: !LeavesHeader(w) {
      ServedOneForOneIffAllTaken(Requests(ws), decode, find);
    } else {
      MoreFramesThanPairs(ws);
      MoreFramesThanRequests(AllFrames(ws), Requests(ws), decode, find);
    }
  }

  lemma {:induction false} MoreFramesThanPairs(ws: seq<Outgoing>)
    requires !(forall w <- ws :: !LeavesHeader(w))
    ensures |AllFrames(ws)| > |SuccessfulPairs(ws)|
  {
    FrameCounts(ws);
  }

  // --- The end of the stream ---------------------------------------------------

  // The first n rounds of that loop when the peer closes the connection after
  // these frames: from then on ReadHeader leaves the header blank and reports no
  // error, so the loop goes on.
  function ServeRounds(frames: seq<seq<byte>>, decode: seq<byte> -> Header, find: string -> Method, n: nat)
    : seq<Served>
    decreases n
  {
    if n == 0 then []
    else
      var h := if frames == [] then Header(0, "") else decode(frames[0]);
      var rest := if frames == [] then [] else frames[1..];
      match find(h.service)
      case Unknown => [Refused(h.seqNo)] + ServeRounds(rest, decode, find, n - 1)
      case TakesNoMessage => [Handled(h.seqNo, None)] + ServeRounds(rest, decode, find, n - 1)
      case TakesMessage =>
        if rest == [] then [Handled(h.seqNo, None)] + ServeRounds([], decode, find, n - 1)
        else [Handled(h.seqNo, Some(rest[0]))] + ServeRounds(rest[1..], decode, find, n - 1)
  }

  // So the server answers the frames, and then number 0, as unknown, for ever.
  lemma {:induction false} ClosedStreamIsServedForEver(
      frames: seq<seq<byte>>, decode: seq<byte> -> Header, find: string -> Method, n: nat)
    requires find("").Unknown?
    ensures var served := Serve(frames, decode, find);
            ServeRounds(frames, decode, find, |served| + n) == served + seq(n, _ => Refused(0))
    decreases |frames|, n
  {
    var served := Serve(frames, decode, find);
    if frames != [] {
      var read := if find(decode(frames[0]).service).TakesMessage? && |frames| > 1 then 2 else 1;
      assert served == [served[0]] + Serve(frames[read..], decode, find);
      ClosedStreamIsServedForEver(frames[read..], decode, find, n);
      assert ServeRounds(frames, decode, find, |served| + n)
          == [served[0]] + ServeRounds(frames[read..], decode, find, |served| - 1 + n);
    } else if n > 0 {
      ClosedStreamIsServedForEver([], decode, find, n - 1);
      assert [Refused(0)] + seq(n - 1, _ => Refused(0)) == seq(n, _ => Refused(0));
    }
  }
}
