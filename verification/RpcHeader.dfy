// The bytes of a request header, as protobuf writes them: field 1 is the method's
// name, field 2 the number, and empty fields are left out. Method names are plain
// ASCII.
module RpcHeader {
  import opened Wrappers

  function Varint(n: nat): seq<byte> {
    if n < 128 then [n] else [n % 128 + 128] + Varint(n / 128)
  }

  function Ascii(s: string): seq<byte> {
    seq(|s|, i requires 0 <= i < |s| => s[i] as int % 256)
  }

  function HeaderBytes(service: string, seqNo: nat): seq<byte> {
    (if service == "" then [] else [0x0A] + Varint(|service|) + Ascii(service))
    + (if seqNo == 0 then [] else [0x10] + Varint(seqNo))
  }

  // --- Reading it back ---------------------------------------------------------

  function ReadVarint(bytes: seq<byte>): Option<(nat, seq<byte>)> {
    if bytes == [] then None
    else if bytes[0] < 128 then Some((bytes[0], bytes[1..]))
    else
      match ReadVarint(bytes[1..])
      case None => None
      case Some((n, rest)) => Some((bytes[0] - 128 + 128 * n, rest))
  }

  function Text(bytes: seq<byte>): string {
    seq(|bytes|, i requires 0 <= i < |bytes| => bytes[i] as char)
  }

  function ReadName(bytes: seq<byte>): Option<(string, seq<byte>)> {
    if bytes == [] || bytes[0] != 0x0A then Some(("", bytes))
    else
      match ReadVarint(bytes[1..])
      case None => None
      case Some((n, rest)) => if n <= |rest| then Some((Text(rest[..n]), rest[n..])) else None
  }

  function ReadNumber(bytes: seq<byte>): Option<nat> {
    if bytes == [] then Some(0)
    else if bytes[0] != 0x10 then None
    else
      match ReadVarint(bytes[1..])
      case None => None
      case Some((n, rest)) => if rest == [] then Some(n) else None
  }

  function ReadHeader(bytes: seq<byte>): Option<(string, nat)> {
    match ReadName(bytes)
    case None => None
    case Some((name, rest)) => if ReadNumber(rest).Some? then Some((name, ReadNumber(rest).value)) else None
  }

  lemma {:induction false} VarintIsRead(n: nat, rest: seq<byte>)
    ensures ReadVarint(Varint(n) + rest) == Some((n, rest))
  {
    var bytes := Varint(n) + rest;
    if n < 128 {
      assert bytes[1..] == rest;
    } else {
      assert bytes[1..] == Varint(n / 128) + rest;
      VarintIsRead(n / 128, rest);
    }
  }

  predicate IsAscii(s: string) {
    forall c <- s :: c as int < 128
  }

  lemma TextOfAscii(s: string)
    requires IsAscii(s)
    ensures Text(Ascii(s)) == s
  {
    forall i | 0 <= i < |s| ensures Text(Ascii(s))[i] == s[i] {
      assert s[i] in s;
    }
  }

  lemma Halves(a: seq<byte>, b: seq<byte>)
    ensures (a + b)[..|a|] == a && (a + b)[|a|..] == b
  {
  }

  lemma Tail(first: byte, a: seq<byte>, b: seq<byte>, c: seq<byte>)
    ensures ([first] + a + b + c)[1..] == a + (b + c)
  {
  }

  lemma {:induction false} NameIsRead(service: string, rest: seq<byte>)
    requires IsAscii(service) && service != ""
    ensures ReadName([0x0A] + Varint(|service|) + Ascii(service) + rest) == Some((service, rest))
  {
    Tail(0x0A, Varint(|service|), Ascii(service), rest);
    VarintIsRead(|service|, Ascii(service) + rest);
    Halves(Ascii(service), rest);
    TextOfAscii(service);
  }

  lemma {:induction false} NumberIsRead(seqNo: nat)
    ensures ReadNumber(if seqNo == 0 then [] else [0x10] + Varint(seqNo)) == Some(seqNo)
  {
    if seqNo != 0 {
      assert ([0x10] + Varint(seqNo))[1..] == Varint(seqNo) + [];
      VarintIsRead(seqNo, []);
    }
  }

  // A header can be read back; so different headers have different bytes.
  lemma HeaderRoundTrip(service: string, seqNo: nat)
    requires IsAscii(service)
    ensures ReadHeader(HeaderBytes(service, seqNo)) == Some((service, seqNo))
  {
    var number := if seqNo == 0 then [] else [0x10] + Varint(seqNo);
    if service == "" {
      assert HeaderBytes(service, seqNo) == number;
    } else {
      NameIsRead(service, number);
    }
    NumberIsRead(seqNo);
  }
}
