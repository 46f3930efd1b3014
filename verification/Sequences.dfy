// Conversations, their keys in Redis, and the sequence number counters kept
// under these keys, one for each participant of a conversation.
module Sequences {
  import opened Wrappers
  import opened Decimal

  datatype Conv = Single(a: int, b: int) | Group(group: int) | AI(user: int)

  // An unordered pair of users is one conversation.
  predicate SameConv(c: Conv, d: Conv) {
    c == d || (c.Single? && d.Single? && c.a == d.b && c.b == d.a)
  }

  function SingleChatConvID(a: int, b: int): string {
    if a > b then Itoa(b) + "_" + Itoa(a) else Itoa(a) + "_" + Itoa(b)
  }

  function ConvID(c: Conv): string {
    match c
    case Single(a, b) => SingleChatConvID(a, b)
    case Group(group) => "group_" + Itoa(group)
    case AI(user) => "ai_" + Itoa(user)
  }

  function Key(convID: string, participant: int): string {
    "seq:" + convID + ":" + Itoa(participant)
  }

  // --- Which keys coincide -----------------------------------------------------

  // A string is cut at its first separator in one way only.
  lemma CutAtSeparator(p: string, q: string, p': string, q': string, sep: char)
    requires sep !in p && sep !in p' && p + [sep] + q == p' + [sep] + q'
    ensures p == p' && q == q'
  {
    var s := p + [sep] + q;
    assert s[|p|] == sep && s[|p'|] == sep;
    assert forall i :: 0 <= i < |p| ==> s[i] == p[i];
    assert forall i :: 0 <= i < |p'| ==> s[i] == p'[i];
    assert |p| == |p'|;
    assert p == s[..|p|] && p' == s[..|p|];
    assert q == s[|p| + 1..] && q' == s[|p| + 1..];
  }

  // What stands before and after the underscore.
  function Head(c: Conv): string {
    match c
    case Single(a, b) => Itoa(if a > b then b else a)
    case Group(_) => "group"
    case AI(_) => "ai"
  }

  function Tail(c: Conv): int {
    match c
    case Single(a, b) => if a > b then a else b
    case Group(group) => group
    case AI(user) => user
  }

  lemma ConvIDParts(c: Conv)
    ensures ConvID(c) == Head(c) + ['_'] + Itoa(Tail(c))
    ensures '_' !in Head(c) && ':' !in ConvID(c)
    ensures c.Single? ==> IsDigit(Head(c)[0]) || Head(c)[0] == '-'
  {
    ItoaChars(Tail(c));
    match c
    case Single(a, b) => ItoaChars(if a > b then b else a);
    case Group(group) => assert "group_" == "group" + ['_'];
    case AI(user) => assert "ai_" == "ai" + ['_'];
  }

  lemma HeadsDiffer(c: Conv, d: Conv)
    requires Head(c) == Head(d)
    ensures c.Single? <==> d.Single?
    ensures c.Group? <==> d.Group?
    ensures c.Single? ==> (if c.a > c.b then c.b else c.a) == (if d.a > d.b then d.b else d.a)
  {
    ConvIDParts(c);
    ConvIDParts(d);
    assert "group"[0] == 'g' && "ai"[0] == 'a';
    if c.Single? && d.Single? {
      ItoaInjective(if c.a > c.b then c.b else c.a, if d.a > d.b then d.b else d.a);
    }
  }

  // The conversation string is the same for both users of a pair, and
  // different for different conversations of any kind.
  lemma ConvIDIdentifiesConversation(c: Conv, d: Conv)
    ensures ConvID(c) == ConvID(d) <==> SameConv(c, d)
  {
    if ConvID(c) == ConvID(d) {
      ConvIDParts(c);
      ConvIDParts(d);
      CutAtSeparator(Head(c), Itoa(Tail(c)), Head(d), Itoa(Tail(d)), '_');
      HeadsDiffer(c, d);
      ItoaInjective(Tail(c), Tail(d));
    }
  }

  lemma KeyParts(conv: string, p: int, conv': string, q: int)
    requires ':' !in conv && ':' !in conv' && Key(conv, p) == Key(conv', q)
    ensures conv == conv' && p == q
  {
    assert Key(conv, p)[4..] == conv + [':'] + Itoa(p);
    assert Key(conv', q)[4..] == conv' + [':'] + Itoa(q);
    CutAtSeparator(conv, Itoa(p), conv', Itoa(q), ':');
    ItoaInjective(p, q);
  }

  lemma KeyIdentifiesParticipant(c: Conv, p: int, d: Conv, q: int)
    ensures Key(ConvID(c), p) == Key(ConvID(d), q) <==> SameConv(c, d) && p == q
  {
    ConvIDIdentifiesConversation(c, d);
    ConvIDParts(c);
    ConvIDParts(d);
    if Key(ConvID(c), p) == Key(ConvID(d), q) {
      KeyParts(ConvID(c), p, ConvID(d), q);
    }
  }

  // --- The counters ------------------------------------------------------------

  const MAX: int := 0x7FFF_FFFF_FFFF_FFFF

  type Counters = map<string, int>

  function Current(m: Counters, key: string): int {
    if key in m then m[key] else 0
  }

  // INCR: fails, and changes nothing, at the largest 64-bit integer.
  function Incr(m: Counters, key: string): (Option<int>, Counters) {
    if Current(m, key) >= MAX then (None, m)
    else (Some(Current(m, key) + 1), m[key := Current(m, key) + 1])
  }

  class ReliabilityManager {
    var counters: Counters

    constructor ()
      ensures counters == map[]
    {
      counters := map[];
    }

    // The command may fail without or after its effect; and it fails without
    // effect at the largest number.
    method GetNextSeqID(conversationID: string, participant: int, arrives: bool, answered: bool)
      returns (r: Option<int>)
      modifies this
      ensures var key := Key(conversationID, participant);
              var n := if key in old(counters) then old(counters)[key] else 0;
              && counters == (if arrives && n < MAX then old(counters)[key := n + 1] else old(counters))
              && r == (if arrives && answered && n < MAX then Some(n + 1) else None)
      ensures counters == if arrives then Incr(old(counters), Key(conversationID, participant)).1 else old(counters)
      ensures r == if arrives && answered then Incr(old(counters), Key(conversationID, participant)).0 else None
    {
      if !arrives {
        return None;
      }
      var key := Key(conversationID, participant);
      var n := 0;
      if key in counters {
        n := counters[key];
      }
      if n >= MAX {
        return None;
      }
      counters := counters[key := n + 1];
      return if answered then Some(n + 1) else None;
    }
  }

  // One message to be numbered.
  datatype Request = Request(conv: Conv, sender: int)

  predicate Alike(r: Request, q: Request) {
    SameConv(r.conv, q.conv) && r.sender == q.sender
  }

  function KeyOf(r: Request): string {
    Key(ConvID(r.conv), r.sender)
  }

  // The counters after a list of requests, in the order in which Redis took them.
  function Run(rs: seq<Request>): Counters {
    if rs == [] then map[] else Incr(Run(rs[..|rs| - 1]), KeyOf(rs[|rs| - 1])).1
  }

  function Number(rs: seq<Request>, i: nat): Option<int>
    requires i < |rs|
  {
    Incr(Run(rs[..i]), KeyOf(rs[i])).0
  }

  // How many of the requests are for r's conversation and sender.
  function Count(rs: seq<Request>, r: Request): nat {
    if rs == [] then 0
    else Count(rs[..|rs| - 1], r) + if Alike(rs[|rs| - 1], r) then 1 else 0
  }

  lemma {:induction false} CounterIsCount(rs: seq<Request>, r: Request)
    ensures Current(Run(rs), KeyOf(r)) == if Count(rs, r) <= MAX then Count(rs, r) else MAX
  {
    if rs != [] {
      var before, last := rs[..|rs| - 1], rs[|rs| - 1];
      CounterIsCount(before, r);
      KeyIdentifiesParticipant(last.conv, last.sender, r.conv, r.sender);
    }
  }

  // The number given to a message is its rank among the messages that the same
  // sender wrote in the same conversation, whatever else was numbered between.
  lemma {:induction false} NumberIsRank(rs: seq<Request>, i: nat)
    requires i < |rs|
    ensures Number(rs, i) == if Count(rs[..i], rs[i]) < MAX then Some(1 + Count(rs[..i], rs[i])) else None
  {
    CounterIsCount(rs[..i], rs[i]);
    IncrGivesNext(Run(rs[..i]), KeyOf(rs[i]), Count(rs[..i], rs[i]));
  }

  lemma IncrGivesNext(m: Counters, key: string, n: nat)
    requires Current(m, key) == if n <= MAX then n else MAX
    ensures Incr(m, key).0 == if n < MAX then Some(1 + n) else None
  {
  }

  lemma {:induction false} CountGrows(rs: seq<Request>, i: nat, j: nat, r: Request)
    requires i < j <= |rs| && Alike(rs[i], r)
    ensures Count(rs[..i], r) < Count(rs[..j], r)
    decreases j
  {
    assert rs[..j][..j - 1] == rs[..j - 1];
    if i < j - 1 {
      CountGrows(rs, i, j - 1, r);
    }
  }

  lemma {:induction false} CountAlike(rs: seq<Request>, r: Request, q: Request)
    requires Alike(r, q)
    ensures Count(rs, r) == Count(rs, q)
  {
    if rs != [] {
      CountAlike(rs[..|rs| - 1], r, q);
    }
  }

  // So the numbers of one sender in one conversation increase strictly.
  lemma {:induction false} NumbersIncrease(rs: seq<Request>, i: nat, j: nat)
    requires i < j < |rs| && Alike(rs[i], rs[j]) && Number(rs, j).Some?
    ensures Number(rs, i).Some? && Number(rs, i).value < Number(rs, j).value
  {
    NumberIsRank(rs, i);
    NumberIsRank(rs, j);
    CountGrows(rs, i, j, rs[j]);
    CountAlike(rs[..i], rs[i], rs[j]);
  }
}
