// Consistent hashing: every server has a number of points on a ring of 32-bit
// hashes, and a key belongs to the server of the first point at or after its
// own hash, going round. Points may collide; the server added last owns them.
module Ring {
  import opened Decimal
  import opened IntSets

  type uint32 = h: int | 0 <= h < 0x1_0000_0000

  type Hash = string -> uint32

  datatype Point = Point(position: uint32, server: string)

  // --- What the ring is --------------------------------------------------------

  // The replica number goes in front of the name, with nothing in between.
  function PointsOf(hash: Hash, replicas: int, server: string): seq<Point> {
    if replicas <= 0 then []
    else PointsOf(hash, replicas - 1, server) + [Point(hash(Itoa(replicas - 1) + server), server)]
  }

  function Points(hash: Hash, replicas: int, servers: seq<string>): seq<Point> {
    if servers == [] then []
    else Points(hash, replicas, servers[..|servers| - 1]) + PointsOf(hash, replicas, servers[|servers| - 1])
  }

  function Positions(ps: seq<Point>): seq<int> {
    seq(|ps|, i requires 0 <= i < |ps| => ps[i].position)
  }

  // The last server placed on a position owns it.
  function Owners(ps: seq<Point>): map<int, string> {
    if ps == [] then map[] else Owners(ps[..|ps| - 1])[ps[|ps| - 1].position := ps[|ps| - 1].server]
  }

  // The first point at or after `h`, or else the first point of all.
  ghost function Successor(positions: set<int>, h: int): (p: int)
    requires NonEmpty(positions)
    ensures p in positions
  {
    if NonEmpty(After(positions, h)) then Least(After(positions, h)) else Least(positions)
  }

  function After(positions: set<int>, h: int): set<int> {
    set p | p in positions && h <= p
  }

  ghost function Lookup(owners: map<int, string>, h: int): string {
    if NonEmpty(owners.Keys) then owners[Successor(owners.Keys, h)] else ""
  }

  // --- Moving keys -------------------------------------------------------------

  // A ring compared with one that lacks some servers' points: where it matters
  // they agree.
  ghost predicate AgreesOutside(owners: map<int, string>, fewer: map<int, string>, gone: set<string>) {
    && fewer.Keys <= owners.Keys
    && forall p <- owners :: owners[p] !in gone ==> p in fewer && fewer[p] == owners[p]
  }

  lemma SuccessorInFewer(positions: set<int>, fewer: set<int>, h: int)
    requires NonEmpty(positions) && fewer <= positions && Successor(positions, h) in fewer
    ensures NonEmpty(fewer) && Successor(fewer, h) == Successor(positions, h)
  {
    var p := Successor(positions, h);
    assert After(fewer, h) <= After(positions, h);
    if NonEmpty(After(positions, h)) {
      assert p in After(fewer, h);
    }
  }

  lemma KeysMoveOnlyWithTheirServer(owners: map<int, string>, fewer: map<int, string>, gone: set<string>, h: int)
    requires AgreesOutside(owners, fewer, gone)
    ensures Lookup(owners, h) in gone || Lookup(owners, h) == Lookup(fewer, h)
  {
    if NonEmpty(owners.Keys) && Lookup(owners, h) !in gone {
      SuccessorInFewer(owners.Keys, fewer.Keys, h);
    }
  }

  function Without(servers: seq<string>, gone: set<string>): seq<string> {
    if servers == [] then []
    else
      var last := servers[|servers| - 1];
      Without(servers[..|servers| - 1], gone) + if last in gone then [] else [last]
  }

  function PositionSet(ps: seq<Point>): set<int> {
    if ps == [] then {} else PositionSet(ps[..|ps| - 1]) + {ps[|ps| - 1].position}
  }

  lemma {:induction false} OwnersAppend(ps: seq<Point>, qs: seq<Point>, server: string)
    requires forall q <- qs :: q.server == server
    ensures var m, m' := Owners(ps), Owners(ps + qs);
            && m'.Keys == m.Keys + PositionSet(qs)
            && (forall p <- m' :: m'[p] == if p in PositionSet(qs) then server else m[p])
  {
    if qs == [] {
      assert ps + qs == ps;
    } else {
      assert (ps + qs)[..|ps + qs| - 1] == ps + qs[..|qs| - 1];
      OwnersAppend(ps, qs[..|qs| - 1], server);
    }
  }

  lemma {:induction false} PointsCarryServer(hash: Hash, replicas: int, server: string)
    ensures forall q <- PointsOf(hash, replicas, server) :: q.server == server
  {
    if replicas > 0 {
      PointsCarryServer(hash, replicas - 1, server);
    }
  }

  // Whatever the hash, and whatever collides: taking servers away moves no key
  // of the servers that stay. Read from right to left: bringing servers in, at
  // any places in the list, moves keys to them only.
  lemma {:induction false} RingsAgreeOutside(hash: Hash, replicas: int, servers: seq<string>, gone: set<string>)
    ensures AgreesOutside(Owners(Points(hash, replicas, servers)),
                          Owners(Points(hash, replicas, Without(servers, gone))), gone)
  {
    if servers != [] {
      var before, last := servers[..|servers| - 1], servers[|servers| - 1];
      var kept := Without(before, gone);
      RingsAgreeOutside(hash, replicas, before, gone);
      PointsCarryServer(hash, replicas, last);
      OwnersAppend(Points(hash, replicas, before), PointsOf(hash, replicas, last), last);
      if last !in gone {
        assert (kept + [last])[..|kept|] == kept;
        OwnersAppend(Points(hash, replicas, kept), PointsOf(hash, replicas, last), last);
      } else {
        assert Without(servers, gone) == kept;
      }
    }
  }

  lemma {:induction false} MinimalDisruption(hash: Hash, replicas: int, servers: seq<string>, gone: set<string>, h: int)
    ensures var before := Lookup(Owners(Points(hash, replicas, servers)), h);
            var after := Lookup(Owners(Points(hash, replicas, Without(servers, gone))), h);
            before in gone || before == after
  {
    RingsAgreeOutside(hash, replicas, servers, gone);
    KeysMoveOnlyWithTheirServer(Owners(Points(hash, replicas, servers)),
                                Owners(Points(hash, replicas, Without(servers, gone))), gone, h);
  }

  // Adding one server to an existing ring, even one that is on it already.
  lemma {:induction false} AddingMovesKeysOnlyToTheNewServer(
      hash: Hash, replicas: int, servers: seq<string>, server: string, h: int)
    ensures var before := Lookup(Owners(Points(hash, replicas, servers)), h);
            var after := Lookup(Owners(Points(hash, replicas, servers + [server])), h);
            after == server || after == before
  {
    assert (servers + [server])[..|servers|] == servers;
    PointsCarryServer(hash, replicas, server);
    OwnersAppend(Points(hash, replicas, servers), PointsOf(hash, replicas, server), server);
    KeysMoveOnlyWithTheirServer(Owners(Points(hash, replicas, servers + [server])),
                                Owners(Points(hash, replicas, servers)), {server}, h);
  }

  // --- Answers -----------------------------------------------------------------

  lemma {:induction false} OwnersAreServers(hash: Hash, replicas: int, servers: seq<string>)
    ensures forall p <- Owners(Points(hash, replicas, servers)) :: Owners(Points(hash, replicas, servers))[p] in servers
  {
    if servers != [] {
      var before, last := servers[..|servers| - 1], servers[|servers| - 1];
      OwnersAreServers(hash, replicas, before);
      PointsCarryServer(hash, replicas, last);
      OwnersAppend(Points(hash, replicas, before), PointsOf(hash, replicas, last), last);
      assert servers == before + [last];
    }
  }

  // As long as there is a server and it has a point, every key has an owner,
  // and that is one of the servers.
  lemma {:induction false} LookupFindsAServer(hash: Hash, replicas: int, servers: seq<string>, h: int)
    requires servers != [] && replicas > 0
    ensures Lookup(Owners(Points(hash, replicas, servers)), h) in servers
  {
    var before, last := servers[..|servers| - 1], servers[|servers| - 1];
    OwnersAreServers(hash, replicas, servers);
    PointsCarryServer(hash, replicas, last);
    OwnersAppend(Points(hash, replicas, before), PointsOf(hash, replicas, last), last);
    assert hash(Itoa(replicas - 1) + last) in Owners(Points(hash, replicas, servers));
  }

  // Replica 1 of "1a" and replica 11 of "a" have the same name, so they collide
  // under every hash, and the owner of that point depends on the order of adding.
  lemma {:induction false} CollisionForEveryHash(hash: Hash, replicas: int)
    requires replicas >= 12
    ensures var h := hash("11a");
            && Lookup(Owners(Points(hash, replicas, ["1a", "a"])), h) == "a"
            && Lookup(Owners(Points(hash, replicas, ["a", "1a"])), h) == "1a"
  {
    assert Itoa(1) + "1a" == "11a";
    assert Digits(11) == Digits(1) + [Digit(1)];
    assert Itoa(11) + "a" == "11a";
    LastServerOwns(hash, replicas, ["1a"], "a", 11);
    LastServerOwns(hash, replicas, ["a"], "1a", 1);
    assert ["1a", "a"] == ["1a"] + ["a"] && ["a", "1a"] == ["a"] + ["1a"];
  }

  lemma {:induction false} HasPoint(hash: Hash, replicas: int, server: string, i: nat)
    requires i < replicas
    ensures hash(Itoa(i) + server) in PositionSet(PointsOf(hash, replicas, server))
  {
    if i < replicas - 1 {
      HasPoint(hash, replicas - 1, server, i);
    }
  }

  lemma {:induction false} LastServerOwns(hash: Hash, replicas: int, servers: seq<string>, server: string, i: nat)
    requires i < replicas
    ensures Lookup(Owners(Points(hash, replicas, servers + [server])), hash(Itoa(i) + server)) == server
  {
    var h := hash(Itoa(i) + server);
    var owners := Owners(Points(hash, replicas, servers + [server]));
    assert (servers + [server])[..|servers|] == servers;
    PointsCarryServer(hash, replicas, server);
    HasPoint(hash, replicas, server, i);
    OwnersAppend(Points(hash, replicas, servers), PointsOf(hash, replicas, server), server);
    assert h in owners && h in After(owners.Keys, h);
    assert Successor(owners.Keys, h) == h;
  }

  // --- Sorting -----------------------------------------------------------------

  predicate Sorted(s: seq<int>) {
    forall i, j :: 0 <= i < j < |s| ==> s[i] <= s[j]
  }

  function InsertSorted(s: seq<int>, x: int): seq<int> {
    if s == [] || x <= s[0] then [x] + s else [s[0]] + InsertSorted(s[1..], x)
  }

  lemma {:induction false} InsertSortedKeepsOrder(s: seq<int>, x: int)
    requires Sorted(s)
    ensures var r := InsertSorted(s, x);
            Sorted(r) && r != [] && (r[0] == x || (s != [] && r[0] == s[0]))
  {
    if s != [] && s[0] < x {
      var r := InsertSorted(s[1..], x);
      InsertSortedKeepsOrder(s[1..], x);
      forall i | 0 <= i < |r| ensures s[0] <= r[i] {
        assert s[0] <= r[0] <= r[i];
      }
    }
  }

  lemma {:induction false} InsertSortedKeepsContents(s: seq<int>, x: int)
    ensures multiset(InsertSorted(s, x)) == multiset(s) + multiset{x}
  {
    if s != [] && s[0] < x {
      InsertSortedKeepsContents(s[1..], x);
      assert s == [s[0]] + s[1..];
    }
  }

  // sort.Ints
  function SortInts(s: seq<int>): (r: seq<int>)
    ensures Sorted(r) && multiset(r) == multiset(s)
  {
    if s == [] then []
    else
      var r := SortInts(s[1..]);
      InsertSortedKeepsOrder(r, s[0]);
      InsertSortedKeepsContents(r, s[0]);
      assert s == [s[0]] + s[1..];
      InsertSorted(r, s[0])
  }

  lemma SortedLast(a: seq<int>, b: seq<int>)
    requires Sorted(a) && Sorted(b) && multiset(a) == multiset(b) && a != [] && b != []
    ensures a[|a| - 1] == b[|b| - 1]
  {
    assert a[|a| - 1] in multiset(b) && b[|b| - 1] in multiset(a);
  }

  lemma DropLast(a: seq<int>)
    requires a != []
    ensures multiset(a[..|a| - 1]) == multiset(a) - multiset{a[|a| - 1]}
  {
    assert a == a[..|a| - 1] + [a[|a| - 1]];
  }

  lemma {:induction false} SortedUnique(a: seq<int>, b: seq<int>)
    requires Sorted(a) && Sorted(b) && multiset(a) == multiset(b)
    ensures a == b
  {
    assert |a| == |multiset(a)| == |multiset(b)| == |b|;
    if a != [] {
      SortedLast(a, b);
      SortedFront(a);
      SortedFront(b);
      SortedUnique(a[..|a| - 1], b[..|b| - 1]);
      assert a == a[..|a| - 1] + [a[|a| - 1]];
    }
  }

  lemma SortedFront(a: seq<int>)
    requires Sorted(a) && a != []
    ensures Sorted(a[..|a| - 1]) && multiset(a[..|a| - 1]) == multiset(a) - multiset{a[|a| - 1]}
  {
    DropLast(a);
  }

  lemma {:induction false} PositionsAreKeys(ps: seq<Point>)
    ensures Owners(ps).Keys == PositionSet(ps)
    ensures forall p :: p in Positions(ps) <==> p in PositionSet(ps)
  {
    if ps != [] {
      var before, last := ps[..|ps| - 1], ps[|ps| - 1];
      PositionsAreKeys(before);
      assert Positions(ps) == Positions(before) + [last.position];
    }
  }

  // The two fields of a ring represent these points, in whatever order of keys.
  ghost predicate Holds(keys: seq<int>, hashMap: map<int, string>, ps: seq<Point>) {
    multiset(keys) == multiset(Positions(ps)) && hashMap == Owners(ps)
  }

  lemma PlaceOne(keys: seq<int>, hashMap: map<int, string>, ps: seq<Point>, p: Point)
    requires Holds(keys, hashMap, ps)
    ensures Holds(keys + [p.position], hashMap[p.position := p.server], ps + [p])
  {
    assert (ps + [p])[..|ps|] == ps;
    assert Positions(ps + [p]) == Positions(ps) + [p.position];
  }

  lemma {:induction false} PointsStep(hash: Hash, replicas: int, servers: seq<string>, server: string)
    ensures Points(hash, replicas, servers + [server])
         == Points(hash, replicas, servers) + PointsOf(hash, replicas, server)
  {
    assert (servers + [server])[..|servers|] == servers;
  }

  lemma {:induction false} PointsAfterOneMore(
      hash: Hash, replicas: int, added: seq<string>, servers: seq<string>, n: nat)
    requires n < |servers|
    ensures Points(hash, replicas, added + servers[..n + 1])
         == Points(hash, replicas, added + servers[..n]) + PointsOf(hash, replicas, servers[n])
  {
    PointsStep(hash, replicas, added + servers[..n], servers[n]);
    assert added + servers[..n + 1] == added + servers[..n] + [servers[n]];
  }

  lemma {:induction false} KeysAreOwned(keys: seq<int>, ps: seq<Point>)
    requires multiset(keys) == multiset(Positions(ps))
    ensures forall k: int :: k in keys <==> k in Owners(ps).Keys
  {
    PositionsAreKeys(ps);
    forall k: int ensures k in keys <==> k in Positions(ps) {
      assert k in keys <==> k in multiset(keys);
      assert k in Positions(ps) <==> k in multiset(Positions(ps));
    }
  }

  // --- The ring object ---------------------------------------------------------

  class Map {
    const hash: Hash
    const replicas: int
    var keys: seq<int>
    var hashMap: map<int, string>
    ghost var added: seq<string>

    ghost predicate Valid()
      reads this
    {
      Sorted(keys) && Holds(keys, hashMap, Points(hash, replicas, added))
    }

    constructor (replicas: int, hash: Hash)
      ensures Valid() && added == [] && this.hash == hash && this.replicas == replicas
    {
      this.hash, this.replicas := hash, replicas;
      keys, hashMap, added := [], map[], [];
    }

    // The inner loop of Add: one server's points, not yet sorted in.
    method AddPoints(server: string, ghost ps: seq<Point>)
      requires Holds(keys, hashMap, ps)
      modifies this`keys, this`hashMap
      ensures Holds(keys, hashMap, ps + PointsOf(hash, replicas, server))
    {
      var i := 0;
      assert ps + PointsOf(hash, 0, server) == ps;
      while i < replicas
        invariant 0 <= i && (i <= replicas || i == 0)
        invariant Holds(keys, hashMap, ps + PointsOf(hash, i, server))
      {
        var h := hash(Itoa(i) + server);
        PlaceOne(keys, hashMap, ps + PointsOf(hash, i, server), Point(h, server));
        assert ps + PointsOf(hash, i, server) + [Point(h, server)] == ps + PointsOf(hash, i + 1, server);
        keys := keys + [h];
        hashMap := hashMap[h := server];
        i := i + 1;
      }
      assert PointsOf(hash, i, server) == PointsOf(hash, replicas, server);
    }

    method AddAll(servers: seq<string>)
      requires Holds(keys, hashMap, Points(hash, replicas, added))
      modifies this`keys, this`hashMap
      ensures Holds(keys, hashMap, Points(hash, replicas, added + servers))
    {
      var n := 0;
      assert added + servers[..0] == added;
      while n < |servers|
        invariant n <= |servers| && Holds(keys, hashMap, Points(hash, replicas, added + servers[..n]))
      {
        AddPoints(servers[n], Points(hash, replicas, added + servers[..n]));
        PointsAfterOneMore(hash, replicas, added, servers, n);
        n := n + 1;
      }
      assert servers[..n] == servers;
    }

    method Add(servers: seq<string>)
      requires Valid()
      modifies this
      ensures Valid() && added == old(added) + servers
    {
      AddAll(servers);
      keys := SortInts(keys);
      added := added + servers;
    }

    // sort.Search for the first position that is not before the key's hash; past
    // the end it starts again at the beginning.
    method Get(key: string) returns (server: string)
      requires Valid()
      ensures server == Lookup(Owners(Points(hash, replicas, added)), hash(key))
    {
      KeysAreOwned(keys, Points(hash, replicas, added));
      if |keys| == 0 {
        return "";
      }
      assert keys[0] in hashMap.Keys;
      var h := hash(key);
      var lo, hi := 0, |keys|;
      while lo < hi
        invariant 0 <= lo <= hi <= |keys|
        invariant forall k :: 0 <= k < lo ==> keys[k] < h
        invariant forall k :: hi <= k < |keys| ==> h <= keys[k]
      {
        var mid := (lo + hi) / 2;
        if keys[mid] >= h {
          hi := mid;
        } else {
          lo := mid + 1;
        }
      }
      SearchFindsSuccessor(keys, hashMap.Keys, h, lo);
      Wrap(lo, |keys|);
      return hashMap[keys[lo % |keys|]];
    }
  }

  lemma Wrap(i: nat, n: nat)
    requires i <= n && n > 0
    ensures i % n == if i < n then i else 0
  {
    if i < n {
      assert i / n == 0;
    }
  }

  lemma SearchFindsSuccessor(keys: seq<int>, positions: set<int>, h: int, idx: nat)
    requires keys != [] && Sorted(keys) && forall k :: k in keys <==> k in positions
    requires idx <= |keys|
    requires forall k :: 0 <= k < idx ==> keys[k] < h
    requires forall k :: idx <= k < |keys| ==> h <= keys[k]
    ensures NonEmpty(positions) && keys[if idx < |keys| then idx else 0] == Successor(positions, h)
  {
    assert keys[0] in positions;
    if idx < |keys| {
      assert keys[idx] in After(positions, h);
      forall p <- After(positions, h) ensures keys[idx] <= p {
        var k :| 0 <= k < |keys| && keys[k] == p;
        assert k >= idx;
      }
    } else {
      forall p <- positions ensures p < h && keys[0] <= p {
        var k :| 0 <= k < |keys| && keys[k] == p;
      }
    }
  }

  // What a ring contains depends only on the list of servers added to it: adding
  // them in one batch or in several leaves the same ring.
  lemma BatchesDoNotMatter(one: Map, other: Map)
    requires one.Valid() && other.Valid()
    requires one.hash == other.hash && one.replicas == other.replicas && one.added == other.added
    ensures one.keys == other.keys && one.hashMap == other.hashMap
  {
    SortedUnique(one.keys, other.keys);
  }
}
