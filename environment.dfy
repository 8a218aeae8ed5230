/**
 * The harness's sources of nondeterminism, modelled as oracles: the global
 * stream of math/rand, the wall clock read by time.Now, and uuid.New.
 * Each oracle is a fixed function of how many values have been taken from it,
 * so every contract that mentions a random value names the draw it came from.
 */
module Environment {

  /** A reading of Go's monotonic clock, in nanoseconds. */
  type Instant = int

  /** The textual form of a version-4 UUID has 36 characters. */
  type Uuid = s: string | |s| == 36 witness "00000000-0000-0000-0000-000000000000"

  /** Exclusive upper bound of rand.Int63 (and of rand.Int on 64-bit platforms). */
  const INT63_BOUND: int := 0x8000_0000_0000_0000

  /** math/rand's process-wide stream: draw(k) is the k-th value it produces. */
  class Rng {
    const draw: nat -> nat
    var pos: nat

    constructor (draw: nat -> nat)
      ensures this.draw == draw && pos == 0
    {
      this.draw := draw;
      pos := 0;
    }

    /** rand.Intn: a value in [0, n); Go panics when n <= 0. */
    method Intn(n: int) returns (r: int)
      requires n > 0
      modifies this
      ensures 0 <= r < n
      ensures r == draw(old(pos)) % n && pos == old(pos) + 1
    {
      r := draw(pos) % n;
      pos := pos + 1;
    }

    /** rand.Int63: a non-negative value below 2^63. */
    method Int63() returns (r: int)
      modifies this
      ensures 0 <= r < INT63_BOUND
      ensures r == draw(old(pos)) % INT63_BOUND && pos == old(pos) + 1
    {
      r := draw(pos) % INT63_BOUND;
      pos := pos + 1;
    }

    /** rand.Int: on a 64-bit platform the same draw as Int63. */
    method Int() returns (r: int)
      modifies this
      ensures 0 <= r < INT63_BOUND
      ensures r == draw(old(pos)) % INT63_BOUND && pos == old(pos) + 1
    {
      r := Int63();
    }
  }

  /** Go's time.Now carries a monotonic reading, and Sub uses it: later calls never read less. */
  ghost predicate Monotone(reading: nat -> Instant) {
    forall i: nat, j: nat :: i <= j ==> reading(i) <= reading(j)
  }

  /** The wall clock: reading(k) is what the k-th call of time.Now returns. */
  class Clock {
    const reading: nat -> Instant
    var ticks: nat

    constructor (reading: nat -> Instant)
      ensures this.reading == reading && ticks == 0
    {
      this.reading := reading;
      ticks := 0;
    }

    method Now() returns (t: Instant)
      modifies this
      ensures t == reading(old(ticks)) && ticks == old(ticks) + 1
    {
      t := reading(ticks);
      ticks := ticks + 1;
    }
  }

  /** uuid.New: next(k) is the k-th identifier handed out. */
  class UuidSource {
    const next: nat -> Uuid
    var issued: nat

    constructor (next: nat -> Uuid)
      ensures this.next == next && issued == 0
    {
      this.next := next;
      issued := 0;
    }

    method New() returns (u: Uuid)
      modifies this
      ensures u == next(old(issued)) && issued == old(issued) + 1
    {
      u := next(issued);
      issued := issued + 1;
    }
  }
}
