// Message numbers: a millisecond timestamp, a node number of 10 bits and a
// sequence number of 12 bits, packed into a signed 64-bit integer.
module Snowflake {

  const TWO_41: int := 0x200_0000_0000
  const TWO_63: int := 0x8000_0000_0000_0000
  const TWO_64: int := 0x1_0000_0000_0000_0000
  const EPOCH: int := 1288834974657

  // Signed 64-bit wrap-around.
  function Int64(x: int): int {
    (x + TWO_63) % TWO_64 - TWO_63
  }

  // The shifted timestamp may wrap; its low 22 bits are zero, so the bitwise
  // or with the other two fields, which fit there, is a sum.
  function Pack(timestamp: int, node: int, sequence: int): int {
    Int64(timestamp * 0x40_0000) + node * 0x1000 + sequence
  }

  datatype Info = Info(timestamp: int, node: int, sequence: int)

  // Arithmetic shifts and masks.
  function Parse(id: int): Info {
    Info(id / 0x40_0000 + EPOCH, id / 0x1000 % 0x400, id % 0x1000)
  }

  lemma OrIsSum(t: bv64, n: bv64, s: bv64)
    requires n < 0x400 && s < 0x1000
    ensures (t << 22) | (n << 12) | s == (t << 22) + (n << 12) + s
    ensures (((t << 22) | (n << 12) | s) >> 12) & 0x3FF == n
    ensures ((t << 22) | (n << 12) | s) & 0xFFF == s
  {
  }

  predicate Fields(timestamp: int, node: int, sequence: int) {
    0 <= timestamp && 0 <= node < 0x400 && 0 <= sequence < 0x1000
  }

  lemma WrappedShiftIsAligned(t: int)
    ensures Int64(t * 0x40_0000) % 0x40_0000 == 0
    ensures 0 <= t < TWO_41 ==> Int64(t * 0x40_0000) == t * 0x40_0000
    ensures TWO_41 <= t < 2 * TWO_41 ==> Int64(t * 0x40_0000) == (t - 2 * TWO_41) * 0x40_0000
  {
    var q := (t * 0x40_0000 + TWO_63) / TWO_64;
    assert Int64(t * 0x40_0000) == (t - q * (TWO_64 / 0x40_0000)) * 0x40_0000;
  }

  lemma ReadFields(k: int, node: int, sequence: int)
    requires 0 <= node < 0x400 && 0 <= sequence < 0x1000
    ensures var id := k * 0x40_0000 + node * 0x1000 + sequence;
            Parse(id) == Info(k + EPOCH, node, sequence)
  {
    var id := k * 0x40_0000 + node * 0x1000 + sequence;
    var upper := k * 0x400 + node;
    assert id == upper * 0x1000 + sequence;
    assert id / 0x1000 == upper && id % 0x1000 == sequence;
    assert upper % 0x400 == node;
  }

  // The node and the sequence number can be read back from any number, however
  // far its timestamp has wrapped. The timestamp comes back later by the epoch,
  // which packing never subtracts.
  lemma ParsePack(timestamp: int, node: int, sequence: int)
    requires Fields(timestamp, node, sequence)
    ensures var info := Parse(Pack(timestamp, node, sequence));
            && info.node == node && info.sequence == sequence
            && (timestamp < TWO_41 ==> info.timestamp == timestamp + EPOCH)
  {
    WrappedShiftIsAligned(timestamp);
    ReadFields(Int64(timestamp * 0x40_0000) / 0x40_0000, node, sequence);
  }

  // Numbers of different nodes, or of different moments, never collide.
  lemma PackInjective(t: int, n: int, s: int, t': int, n': int, s': int)
    requires Fields(t, n, s) && Fields(t', n', s') && t < TWO_41 && t' < TWO_41
    ensures Pack(t, n, s) == Pack(t', n', s') ==> t == t' && n == n' && s == s'
  {
    ParsePack(t, n, s);
    ParsePack(t', n', s');
  }

  // --- The generator -----------------------------------------------------------

  // Generate cannot use the clock's reading as it is.
  predicate MustWait(last: int, sequence: int, now: int) {
    now < last || (now == last && sequence == 0xFFF)
  }

  // One number follows another of the same generator.
  predicate Follows(last: int, sequence: int, last': int, sequence': int) {
    (last < last' && sequence' == 0) || (last == last' && sequence' == sequence + 1)
  }

  class Generator {
    var lastTimestamp: int
    var sequence: int
    const nodeID: int

    predicate Valid()
      reads this
    {
      Fields(lastTimestamp, nodeID, sequence)
    }

    constructor (nodeID: int)
      requires 0 <= nodeID <= 1023
      ensures Valid() && this.nodeID == nodeID && lastTimestamp == 0 && sequence == 0
    {
      this.nodeID := nodeID;
      lastTimestamp, sequence := 0, 0;
    }

    // `clock` gives the successive readings, from `start` on; `next` is the one
    // used. The call returns if the clock, when it has to be waited for, ever
    // passes the last timestamp.
    method Generate(clock: nat -> int, start: nat) returns (id: int, next: nat)
      requires Valid()
      requires MustWait(lastTimestamp, sequence, clock(start)) ==>
               exists k: nat :: start < k && lastTimestamp < clock(k)
      modifies this`lastTimestamp, this`sequence
      ensures Valid() && id == Pack(lastTimestamp, nodeID, sequence)
      ensures Follows(old(lastTimestamp), old(sequence), lastTimestamp, sequence)
      ensures lastTimestamp == clock(next)
      ensures if MustWait(old(lastTimestamp), old(sequence), clock(start))
              then start < next && forall k: nat :: start < k < next ==> clock(k) <= old(lastTimestamp)
              else next == start
    {
      next := start;
      var current := clock(next);
      ghost var passes: nat := start;
      if MustWait(lastTimestamp, sequence, current) {
        passes :| start < passes && lastTimestamp < clock(passes);
      }
      if current < lastTimestamp {
        while current <= lastTimestamp
          invariant start <= next <= passes && current == clock(next)
          invariant forall k: nat :: start < k < next ==> clock(k) <= lastTimestamp
          invariant next == start ==> current < lastTimestamp
          decreases passes - next
        {
          next := next + 1;
          current := clock(next);
        }
      }
      if current == lastTimestamp {
        sequence := (sequence + 1) % 0x1000;
        if sequence == 0 {
          while current <= lastTimestamp
            invariant start <= next <= passes && current == clock(next)
            invariant forall k: nat :: start < k < next ==> clock(k) <= lastTimestamp
            invariant next == start ==> current == lastTimestamp
            decreases passes - next
          {
            next := next + 1;
            current := clock(next);
          }
        }
      } else {
        sequence := 0;
      }
      lastTimestamp := current;
      id := Pack(current, nodeID, sequence);
    }
  }

  // --- Runs --------------------------------------------------------------------

  datatype Stamp = Stamp(timestamp: int, sequence: int)

  // The stamps of successive numbers of one generator, whatever its clock did.
  ghost predicate IsRun(run: seq<Stamp>) {
    && (forall i :: 0 <= i < |run| ==> Fields(run[i].timestamp, 0, run[i].sequence))
    && (forall i :: 0 < i < |run| ==>
          Follows(run[i - 1].timestamp, run[i - 1].sequence, run[i].timestamp, run[i].sequence))
  }

  // What Generate leaves behind continues a run.
  lemma GenerateExtendsRun(run: seq<Stamp>, node: int, timestamp: int, sequence: int)
    requires IsRun(run) && Fields(timestamp, node, sequence)
    requires run != [] ==> Follows(run[|run| - 1].timestamp, run[|run| - 1].sequence, timestamp, sequence)
    ensures IsRun(run + [Stamp(timestamp, sequence)])
  {
  }

  lemma {:induction false} RunAdvances(run: seq<Stamp>, i: nat, j: nat)
    requires IsRun(run) && i < j < |run|
    ensures || run[i].timestamp < run[j].timestamp
            || (run[i].timestamp == run[j].timestamp && run[j].sequence == run[i].sequence + (j - i))
  {
    if i + 1 < j {
      RunAdvances(run, i, j - 1);
    }
  }

  // At most 4096 numbers share a millisecond.
  lemma AtMost4096PerMillisecond(run: seq<Stamp>, i: nat, j: nat)
    requires IsRun(run) && i < j < |run| && run[i].timestamp == run[j].timestamp
    ensures j - i < 4096
  {
    RunAdvances(run, i, j);
  }

  ghost predicate Increasing(run: seq<Stamp>, node: int) {
    forall i, j :: 0 <= i < j < |run| ==>
      Pack(run[i].timestamp, node, run[i].sequence) < Pack(run[j].timestamp, node, run[j].sequence)
  }

  // The numbers of a run that starts within the 41 bits increase strictly exactly
  // as long as it stays within them; one bit further they turn negative.
  lemma IdsIncreaseWithin41Bits(run: seq<Stamp>, node: int)
    requires IsRun(run) && run != [] && 0 <= node < 0x400
    requires run[0].timestamp < TWO_41 && run[|run| - 1].timestamp < 2 * TWO_41
    ensures Increasing(run, node) <==> run[|run| - 1].timestamp < TWO_41
  {
    var n := |run| - 1;
    if run[n].timestamp < TWO_41 {
      forall i, j | 0 <= i < j < |run|
        ensures Pack(run[i].timestamp, node, run[i].sequence) < Pack(run[j].timestamp, node, run[j].sequence)
      {
        RunAdvances(run, i, j);
        if j < n {
          RunAdvances(run, j, n);
        }
        WrappedShiftIsAligned(run[i].timestamp);
        WrappedShiftIsAligned(run[j].timestamp);
      }
    } else {
      WrappedShiftIsAligned(run[0].timestamp);
      WrappedShiftIsAligned(run[n].timestamp);
      assert Pack(run[n].timestamp, node, run[n].sequence) < 0 <= Pack(run[0].timestamp, node, run[0].sequence);
    }
  }
}
