// The manually kept server list: random choice, round robin and the hash ring.
module Discovery {
  import opened Wrappers
  import Ring

  const REPLICAS: int := 50

  datatype SelectMode = RandomSelect | RoundRobinSelect | ConsistentHash | Unknown

  datatype Error = NoServers | KeyRequired | UnsupportedMode

  // The list is the caller's own slice, which the caller may still write to; the
  // ring is built from what it held when it was handed over.
  class MultiServersDiscovery {
    const hash: Ring.Hash
    var servers: array<string>
    var index: int
    var ring: Ring.Map

    ghost predicate Valid()
      reads this, ring
    {
      && ring.Valid() && ring.hash == hash && ring.replicas == REPLICAS
      && |ring.added| == servers.Length
      && 0 <= index
    }

    // Nobody has changed the list since.
    ghost predicate Agrees()
      reads this, ring, servers
    {
      ring.added == servers[..]
    }

    // `start` is the random number below MaxInt32 - 1 with which the turns begin.
    constructor (servers: array<string>, hash: Ring.Hash, start: nat)
      ensures Valid() && Agrees() && fresh(ring)
      ensures this.servers == servers && index == start && this.hash == hash
    {
      this.hash, this.servers, index := hash, servers, start;
      var m := new Ring.Map(REPLICAS, hash);
      m.Add(servers[..]);
      ring := m;
    }

    method Update(servers: array<string>)
      modifies this`servers, this`ring
      ensures this.servers == servers && index == old(index) && fresh(ring)
      ensures old(Valid()) ==> Valid() && Agrees()
    {
      this.servers := servers;
      var m := new Ring.Map(REPLICAS, hash);
      m.Add(servers[..]);
      ring := m;
    }

    // `pick` stands for the random number drawn below the number of servers.
    method Get(mode: SelectMode, key: string, pick: nat) returns (r: Result<string, Error>)
      requires Valid() && (servers.Length > 0 ==> pick < servers.Length)
      modifies this`index
      ensures Valid()
      ensures servers.Length == 0 ==> r == Err(NoServers)
      ensures servers.Length > 0 && mode.RandomSelect? ==> r == Ok(servers[pick])
      ensures servers.Length > 0 && mode.RoundRobinSelect? ==>
                r == Ok(servers[old(index) % servers.Length]) && index == NextTurn(old(index), servers.Length)
      ensures servers.Length > 0 && mode.ConsistentHash? && key == "" ==> r == Err(KeyRequired)
      ensures servers.Length > 0 && mode.ConsistentHash? && key != "" ==>
                && r == Ok(Ring.Lookup(Ring.Owners(Ring.Points(hash, REPLICAS, ring.added)), hash(key)))
                && r.value in ring.added && (Agrees() ==> r.value in servers[..])
      ensures servers.Length > 0 && mode.Unknown? ==> r == Err(UnsupportedMode)
      ensures servers.Length == 0 || !mode.RoundRobinSelect? ==> index == old(index)
    {
      var n := servers.Length;
      if n == 0 {
        return Err(NoServers);
      }
      match mode {
        case RandomSelect => r := Ok(servers[pick]);
        case RoundRobinSelect =>
          r := Ok(servers[index % n]);
          index := (index + 1) % n;
        case ConsistentHash =>
          if key == "" {
            return Err(KeyRequired);
          }
          Ring.LookupFindsAServer(hash, REPLICAS, ring.added, hash(key));
          var server := ring.Get(key);
          r := Ok(server);
        case Unknown => r := Err(UnsupportedMode);
      }
    }

    // A copy, so that its receiver cannot change the list.
    method GetAll() returns (copy: array<string>)
      ensures fresh(copy) && copy[..] == servers[..]
    {
      copy := new string[servers.Length](i requires 0 <= i < servers.Length reads this, servers => servers[i]);
    }
  }

  // Under every hash: a caller that writes to its slice afterwards leaves a ring
  // that answers with the server that was there before.
  method RingOutlivesTheList(hash: Ring.Hash, former: string, present: string, key: string)
    returns (d: MultiServersDiscovery, r: Result<string, Error>)
    requires key != ""
    ensures fresh(d) && d.Valid() && d.servers[..] == [present] && r == Ok(former)
  {
    var mine := new string[1](_ => former);
    d := new MultiServersDiscovery(mine, hash, 0);
    assert mine[..] == [former];
    mine[0] := present;
    assert d.ring.added == [former];
    r := d.Get(ConsistentHash, key, 0);
  }

  // --- Round robin -------------------------------------------------------------

  function NextTurn(index: int, n: nat): int
    requires n > 0
  {
    (index + 1) % n
  }

  // The index after `k` turns over an unchanged list of `n` servers.
  function IndexAfter(index: nat, n: nat, k: nat): nat
    requires n > 0
  {
    if k == 0 then index else NextTurn(IndexAfter(index, n, k - 1), n)
  }

  function Turn(index: nat, n: nat, k: nat): nat
    requires n > 0
  {
    IndexAfter(index, n, k) % n
  }

  // How often position `p` is chosen in the first `m` turns.
  function Count(index: nat, n: nat, m: nat, p: nat): nat
    requires n > 0
  {
    if m == 0 then 0 else Count(index, n, m - 1, p) + if Turn(index, n, m - 1) == p then 1 else 0
  }

  lemma Spread(a: int, b: int, n: nat)
    requires a > b
    ensures a * n >= b * n + n
  {
    assert a * n == b * n + (a - b) * n;
    assert (a - b) * n == n + (a - b - 1) * n;
  }

  // Quotient and remainder are determined by their defining equation.
  lemma ModUnique(x: int, n: nat, q: int, r: nat)
    requires n > 0 && x == q * n + r && r < n
    ensures x / n == q && x % n == r
  {
    var q' := x / n;
    var r' := x % n;
    assert x == q' * n + r' && 0 <= r' < n;
    if q > q' {
      Spread(q, q', n);
    } else if q < q' {
      Spread(q', q, n);
    }
  }

  lemma ModStep(x: int, n: nat)
    requires n > 0
    ensures (x % n + 1) % n == (x + 1) % n
    ensures (x + 1) % n == if x % n == n - 1 then 0 else x % n + 1
    ensures (x + 1) / n == if x % n == n - 1 then x / n + 1 else x / n
  {
    if x % n == n - 1 {
      ModUnique(x + 1, n, x / n + 1, 0);
      ModUnique(x % n + 1, n, 1, 0);
    } else {
      ModUnique(x + 1, n, x / n, x % n + 1);
      ModUnique(x % n + 1, n, 0, x % n + 1);
    }
  }

  lemma {:induction false} TurnIsConsecutive(index: nat, n: nat, k: nat)
    requires n > 0
    ensures Turn(index, n, k) == (index + k) % n
  {
    if k > 0 {
      TurnIsConsecutive(index, n, k - 1);
      ModStep(IndexAfter(index, n, k - 1), n);
      ModStep(index + k - 1, n);
      ModUnique(IndexAfter(index, n, k), n, 0, IndexAfter(index, n, k));
    }
  }

  // The exact number of times: the turns between the first whole multiple and
  // the last, shifted by the position's distance from the start.
  lemma {:induction false} CountIsExact(index: nat, n: nat, m: nat, p: nat)
    requires p < n
    ensures Count(index, n, m, p) == (m + index + n - 1 - p) / n - (index + n - 1 - p) / n
  {
    if m > 0 {
      CountIsExact(index, n, m - 1, p);
      TurnIsConsecutive(index, n, m - 1);
      var x := m - 1 + index + n - 1 - p;
      ModStep(x, n);
      Distance(index + m - 1, n, p);
    }
  }

  lemma Distance(y: nat, n: nat, p: nat)
    requires p < n
    ensures y % n == p <==> (y + n - 1 - p) % n == n - 1
  {
    var q, r := y / n, y % n;
    assert y == q * n + r;
    if r <= p {
      ModUnique(y + n - 1 - p, n, q, r + n - 1 - p);
    } else {
      assert y + n - 1 - p == (q + 1) * n + (r - 1 - p);
      ModUnique(y + n - 1 - p, n, q + 1, r - 1 - p);
    }
  }

  // Wherever the turns start, each position is chosen floor(m/n) or ceil(m/n)
  // times in any m consecutive turns.
  lemma {:induction false} RoundRobinIsFair(index: nat, n: nat, m: nat, p: nat)
    requires p < n
    ensures m / n <= Count(index, n, m, p) <= (m + n - 1) / n
  {
    CountIsExact(index, n, m, p);
    FloorOfSum(m, index + n - 1 - p, n);
    CeilIsFloor(m, n);
  }

  lemma FloorOfSum(a: nat, b: nat, n: nat)
    requires n > 0
    ensures a / n <= (a + b) / n - b / n <= if a % n == 0 then a / n else a / n + 1
  {
    var qa, ra, qb, rb := a / n, a % n, b / n, b % n;
    assert a + b == (qa + qb) * n + (ra + rb);
    if ra + rb < n {
      ModUnique(a + b, n, qa + qb, ra + rb);
    } else {
      assert a + b == (qa + qb + 1) * n + (ra + rb - n);
      ModUnique(a + b, n, qa + qb + 1, ra + rb - n);
    }
  }

  lemma CeilIsFloor(m: nat, n: nat)
    requires n > 0
    ensures (m + n - 1) / n == if m % n == 0 then m / n else m / n + 1
  {
    var q, r := m / n, m % n;
    if r == 0 {
      ModUnique(m + n - 1, n, q, n - 1);
    } else {
      assert m + n - 1 == (q + 1) * n + (r - 1);
      ModUnique(m + n - 1, n, q + 1, r - 1);
    }
  }
}
