/**
 * The unique string generator: random strings over a fixed alphabet, never
 * the same string twice from one generator.
 *
 * A string of length L is sampled from L consecutive draws of the random
 * stream, each draw picking one alphabet character. When the sample was
 * handed out before, the generator samples again from the following draws,
 * with no bound on the number of attempts. That loop ends only if the stream
 * eventually offers an unused string, which is the oracle assumption `Spread`.
 */
module Generator {
  import opened Environment

  /** Every character of s is drawn from the alphabet. */
  ghost predicate Over(s: string, alphabet: string) {
    forall i :: 0 <= i < |s| ==> s[i] in alphabet
  }

  /**
   * The string sampled from the `length` draws starting at stream position
   * `start`: the draws are taken in order, each appending one character.
   */
  ghost function Candidate(draw: nat -> nat, alphabet: string, start: nat, length: nat): (c: string)
    requires |alphabet| > 0
    ensures |c| == length
  {
    seq(length, i requires 0 <= i < length => alphabet[draw(start + i) % |alphabet|])
  }

  /** A sample takes every character from the alphabet. */
  lemma CandidateOver(draw: nat -> nat, alphabet: string, start: nat, length: nat)
    requires |alphabet| > 0
    ensures Over(Candidate(draw, alphabet, start, length), alphabet)
  {
  }

  /** The distinct strings among the first h samples of a retry sequence that starts at stream position `start`. */
  ghost function Attempts(draw: nat -> nat, alphabet: string, start: nat, length: nat, h: nat): set<string>
    requires |alphabet| > 0
    decreases h
  {
    if h == 0 then {} else {Candidate(draw, alphabet, start, length)} + Attempts(draw, alphabet, start + length, length, h - 1)
  }

  /**
   * The oracle assumption behind the unbounded retry: wherever a retry
   * sequence starts, its samples eventually hold at least m distinct strings.
   * A generator that has handed out fewer than m strings of this length then
   * finds an unused one after finitely many attempts.
   */
  ghost predicate Spread(draw: nat -> nat, alphabet: string, length: nat, m: nat)
    requires |alphabet| > 0
  {
    forall p: nat :: SpreadFrom(draw, alphabet, length, m, p)
  }

  /** The retry sequence that starts at stream position p eventually holds at least m distinct strings. */
  ghost predicate SpreadFrom(draw: nat -> nat, alphabet: string, length: nat, m: nat, p: nat)
    requires |alphabet| > 0
  {
    exists h: nat :: |Attempts(draw, alphabet, p, length, h)| >= m
  }

  lemma SpreadMonotone(draw: nat -> nat, alphabet: string, length: nat, m: nat, m': nat)
    requires |alphabet| > 0
    requires Spread(draw, alphabet, length, m) && m' <= m
    ensures Spread(draw, alphabet, length, m')
  {
    forall p: nat
      ensures SpreadFrom(draw, alphabet, length, m', p)
    {
      assert SpreadFrom(draw, alphabet, length, m, p);
    }
  }

  /** How many samples from stream position p suffice to hold m distinct strings. */
  lemma SpreadAt(draw: nat -> nat, alphabet: string, length: nat, m: nat, p: nat) returns (h: nat)
    requires |alphabet| > 0 && Spread(draw, alphabet, length, m)
    ensures |Attempts(draw, alphabet, p, length, h)| >= m
  {
    assert SpreadFrom(draw, alphabet, length, m, p);
    h :| |Attempts(draw, alphabet, p, length, h)| >= m;
  }

  /**
   * s is the string the retry loop hands out when its first sample starts at
   * stream position `start`, and `end` is the stream position after it: the
   * sample at `start` when it is not in `used`, otherwise the loop's result
   * from the next `length` draws on.
   */
  ghost predicate FirstFresh(draw: nat -> nat, alphabet: string, used: set<string>, start: nat, length: nat, s: string, end: nat)
    requires |alphabet| > 0
    decreases end - start
  {
    && 1 <= length && start + length <= end
    && if Candidate(draw, alphabet, start, length) !in used then
         s == Candidate(draw, alphabet, start, length) && end == start + length
       else
         FirstFresh(draw, alphabet, used, start + length, length, s, end)
  }

  /** The retry loop's result and the stream position it stops at are determined by the stream and the used set. */
  lemma {:induction false} FirstFreshUnique(draw: nat -> nat, alphabet: string, used: set<string>, start: nat, length: nat,
                                            s: string, end: nat, s': string, end': nat)
    requires |alphabet| > 0
    requires FirstFresh(draw, alphabet, used, start, length, s, end)
    requires FirstFresh(draw, alphabet, used, start, length, s', end')
    ensures s == s' && end == end'
    decreases end - start
  {
    if Candidate(draw, alphabet, start, length) in used {
      FirstFreshUnique(draw, alphabet, used, start + length, length, s, end, s', end');
    }
  }

  /**
   * The retry loop that started at stream position p0 reaches position q:
   * every sample it took before q was already used.
   */
  ghost predicate Retries(draw: nat -> nat, alphabet: string, used: set<string>, p0: nat, q: nat, length: nat)
    requires |alphabet| > 0
    decreases q - p0
  {
    p0 == q || (1 <= length && p0 + length <= q && Candidate(draw, alphabet, p0, length) in used && Retries(draw, alphabet, used, p0 + length, q, length))
  }

  /** One more used sample takes the retry loop `length` draws further. */
  lemma {:induction false} RetriesSnoc(draw: nat -> nat, alphabet: string, used: set<string>, p0: nat, q: nat, length: nat)
    requires |alphabet| > 0 && 1 <= length
    requires Retries(draw, alphabet, used, p0, q, length) && Candidate(draw, alphabet, q, length) in used
    ensures Retries(draw, alphabet, used, p0, q + length, length)
    decreases q - p0
  {
    if p0 != q {
      RetriesSnoc(draw, alphabet, used, p0 + length, q, length);
    }
  }

  /** What the retry loop hands out from a position it reached is what it hands out from its start. */
  lemma {:induction false} RetriesFirstFresh(draw: nat -> nat, alphabet: string, used: set<string>, p0: nat, q: nat, length: nat, s: string, end: nat)
    requires |alphabet| > 0
    requires Retries(draw, alphabet, used, p0, q, length) && FirstFresh(draw, alphabet, used, q, length, s, end)
    ensures FirstFresh(draw, alphabet, used, p0, length, s, end)
    decreases q - p0
  {
    if p0 != q {
      RetriesFirstFresh(draw, alphabet, used, p0 + length, q, length, s, end);
    }
  }

  /** One of the r samples from stream position q on is not in `used`. */
  ghost predicate HasFresh(draw: nat -> nat, alphabet: string, used: set<string>, q: nat, length: nat, r: nat)
    requires |alphabet| > 0
    decreases r
  {
    r > 0 && (Candidate(draw, alphabet, q, length) !in used || HasFresh(draw, alphabet, used, q + length, length, r - 1))
  }

  /** Samples that are all used hold no more distinct strings than the used set. */
  lemma {:induction false} NoFreshCovered(draw: nat -> nat, alphabet: string, used: set<string>, q: nat, length: nat, r: nat)
    requires |alphabet| > 0 && !HasFresh(draw, alphabet, used, q, length, r)
    ensures Attempts(draw, alphabet, q, length, r) <= used
    decreases r
  {
    if r > 0 {
      NoFreshCovered(draw, alphabet, used, q + length, length, r - 1);
    }
  }

  /** More distinct samples than used strings: one of them is unused. */
  lemma SpreadFresh(draw: nat -> nat, alphabet: string, used: set<string>, q: nat, length: nat, r: nat)
    requires |alphabet| > 0 && |Attempts(draw, alphabet, q, length, r)| >= |used| + 1
    ensures HasFresh(draw, alphabet, used, q, length, r)
  {
    if !HasFresh(draw, alphabet, used, q, length, r) {
      NoFreshCovered(draw, alphabet, used, q, length, r);
      SubsetCardinality(Attempts(draw, alphabet, q, length, r), used);
      assert false;
    }
  }

  /** The stream position after a run of calls that ended at the given positions. */
  ghost function RunEnd(ends: seq<nat>, start: nat): nat
  {
    if ends == [] then start else ends[|ends| - 1]
  }

  /**
   * ss are the strings handed out, in order, by consecutive RandomString
   * calls from stream position `start` on a generator whose used set was
   * `used`, and ends[i] is the stream position after the i-th call.
   */
  ghost predicate StringsRun(draw: nat -> nat, alphabet: string, used: set<string>, ss: seq<string>, ends: seq<nat>, length: nat, start: nat)
    requires |alphabet| > 0
  {
    && |ends| == |ss|
    && (ss != [] ==>
          var n := |ss| - 1;
          && StringsRun(draw, alphabet, used, ss[..n], ends[..n], length, start)
          && FirstFresh(draw, alphabet, used + Elements(ss[..n]), RunEnd(ends[..n], start), length, ss[n], ends[n]))
  }

  lemma StringsRunSnoc(draw: nat -> nat, alphabet: string, used: set<string>, ss: seq<string>, ends: seq<nat>, length: nat, start: nat,
                       s: string, end: nat)
    requires |alphabet| > 0 && StringsRun(draw, alphabet, used, ss, ends, length, start)
    requires FirstFresh(draw, alphabet, used + Elements(ss), RunEnd(ends, start), length, s, end)
    ensures StringsRun(draw, alphabet, used, ss + [s], ends + [end], length, start)
  {
    assert (ss + [s])[..|ss|] == ss;
    assert (ends + [end])[..|ends|] == ends;
  }

  /**
   * The state after a run of RandomString calls from stream position p0 on a
   * generator whose used set was u0: they handed out ret, ending at the
   * stream positions ends, and left the used set `used` and the stream at `pos`.
   */
  ghost predicate Produced(draw: nat -> nat, alphabet: string, u0: set<string>, p0: nat, length: int,
                            ret: seq<string>, ends: seq<nat>, used: set<string>, pos: nat)
  {
    && |ends| == |ret|
    && pos == RunEnd(ends, p0)
    && (length < 1 ==> used == u0 && pos == p0 && forall j :: 0 <= j < |ret| ==> ret[j] == "")
    && (length >= 1 ==>
          && (forall j :: 0 <= j < |ret| ==> |ret[j]| == length && Over(ret[j], alphabet))
          && used == u0 + Elements(ret) && |used| == |u0| + |ret|
          && (|alphabet| > 0 ==> StringsRun(draw, alphabet, u0, ret, ends, length, p0)))
  }

  /** One more RandomString call, with the outcome its contract promises, extends the run. */
  lemma ProducedSnoc(draw: nat -> nat, alphabet: string, u0: set<string>, p0: nat, length: int,
                      ret: seq<string>, ends: seq<nat>, used: set<string>, pos: nat,
                      s: string, used': set<string>, pos': nat)
    requires Produced(draw, alphabet, u0, p0, length, ret, ends, used, pos)
    requires length < 1 ==> s == "" && used' == used && pos' == pos
    requires length >= 1 ==> |alphabet| > 0 && |s| == length && Over(s, alphabet) && s !in used && used' == used + {s}
    requires length >= 1 ==> FirstFresh(draw, alphabet, used, pos, length, s, pos')
    ensures Produced(draw, alphabet, u0, p0, length, ret + [s], ends + [pos'], used', pos')
  {
    ElementsSnoc(ret, s);
    if length >= 1 {
      StringsRunSnoc(draw, alphabet, u0, ret, ends, length, p0, s, pos');
    }
  }

  /** The strings occurring in a list. */
  ghost function Elements(ss: seq<string>): set<string> {
    if ss == [] then {} else Elements(ss[..|ss| - 1]) + {ss[|ss| - 1]}
  }

  lemma ElementsSnoc(ss: seq<string>, s: string)
    ensures Elements(ss + [s]) == Elements(ss) + {s}
  {
    assert (ss + [s])[..|ss|] == ss;
  }

  lemma {:induction false} ElementsMember(ss: seq<string>, x: string)
    ensures x in Elements(ss) <==> x in ss
  {
    if ss != [] {
      var n := |ss| - 1;
      ElementsMember(ss[..n], x);
      assert ss == ss[..n] + [ss[n]];
    }
  }

  lemma {:induction false} ElementsAppend(a: seq<string>, b: seq<string>)
    ensures Elements(a + b) == Elements(a) + Elements(b)
  {
    if b == [] {
      assert a + b == a;
    } else {
      var n := |b| - 1;
      ElementsAppend(a, b[..n]);
      assert a + b == (a + b[..n]) + [b[n]];
      ElementsSnoc(a + b[..n], b[n]);
      ElementsSnoc(b[..n], b[n]);
      assert b == b[..n] + [b[n]];
    }
  }

  /** A list holds at most as many distinct strings as it is long. */
  lemma {:induction false} ElementsBound(ss: seq<string>)
    ensures |Elements(ss)| <= |ss|
  {
    if ss != [] {
      ElementsBound(ss[..|ss| - 1]);
    }
  }

  /** A list with a repeated string holds fewer distinct strings than it is long. */
  lemma DuplicateShrinks(ss: seq<string>, i: int, j: int)
    requires 0 <= i < j < |ss| && ss[i] == ss[j]
    ensures |Elements(ss)| < |ss|
  {
    var front, back := ss[..j], ss[j + 1..];
    ElementsMember(front, ss[j]);
    assert front[i] == ss[j];
    ElementsSnoc(front, ss[j]);
    assert Elements(front + [ss[j]]) == Elements(front);
    assert ss == (front + [ss[j]]) + back;
    ElementsAppend(front + [ss[j]], back);
    ElementsBound(front);
    ElementsBound(back);
  }

  lemma SubsetCardinality(a: set<string>, b: set<string>)
    requires a <= b
    ensures |a| <= |b|
  {
    assert b == a + (b - a);
  }

  class StringGenerator {
    var used: set<string>
    const alphabet: string

    /** NewStringGenerator. */
    constructor (alphabet: string)
      ensures this.alphabet == alphabet && used == {}
    {
      this.alphabet := alphabet;
      used := {};
    }

    /** Fills a fresh buffer of `length` characters, one draw each. */
    method Sample(length: nat, rng: Rng) returns (s: string)
      requires |alphabet| > 0
      modifies rng
      ensures s == Candidate(rng.draw, alphabet, old(rng.pos), length)
      ensures rng.pos == old(rng.pos) + length
    {
      var b := new char[length];
      for i := 0 to length
        invariant rng.pos == old(rng.pos) + i
        invariant forall j :: 0 <= j < i ==> b[j] == alphabet[rng.draw(old(rng.pos) + j) % |alphabet|]
      {
        var x := rng.Intn(|alphabet|);
        b[i] := alphabet[x];
      }
      s := b[..];
    }

    method RandomString(length: int, rng: Rng) returns (s: string)
      requires length >= 1 ==> |alphabet| > 0 && Spread(rng.draw, alphabet, length, |used| + 1)
      modifies this, rng
      ensures length < 1 ==> s == "" && used == old(used) && rng.pos == old(rng.pos)
      ensures length >= 1 ==> |s| == length && Over(s, alphabet)
      ensures length >= 1 ==> s !in old(used) && used == old(used) + {s}
      ensures length >= 1 ==> FirstFresh(rng.draw, alphabet, old(used), old(rng.pos), length, s, rng.pos)
    {
      if length < 1 {
        return "";
      }
      ghost var p0 := rng.pos;
      ghost var r := SpreadAt(rng.draw, alphabet, length, |used| + 1, p0);
      SpreadFresh(rng.draw, alphabet, used, p0, length, r);
      ghost var q: nat := p0;
      s := Sample(length, rng);
      while s in used
        modifies rng
        invariant rng.pos == q + length && s == Candidate(rng.draw, alphabet, q, length)
        invariant Retries(rng.draw, alphabet, used, p0, q, length)
        invariant HasFresh(rng.draw, alphabet, used, q, length, r)
        decreases r
      {
        RetriesSnoc(rng.draw, alphabet, used, p0, q, length);
        r, q := r - 1, q + length;
        s := Sample(length, rng);
      }
      RetriesFirstFresh(rng.draw, alphabet, used, p0, q, length, s, rng.pos);
      CandidateOver(rng.draw, alphabet, q, length);
      used := used + {s};
    }

    /**
     * `got` lists the strings handed out, in order, by a run of calls that
     * took the used set from `before` to `after`.
     */
    ghost predicate Handed(got: seq<string>, before: set<string>, after: set<string>, length: int)
      reads this
    {
      && (forall j :: 0 <= j < |got| ==> |got[j]| == length && Over(got[j], alphabet) && got[j] !in before)
      && (forall j, j' :: 0 <= j < j' < |got| ==> got[j] != got[j'])
      && after == before + Elements(got)
      && |after| == |before| + |got|
    }

    /**
     * A run of calls hands out its strings as soon as each string has the
     * length and the alphabet, and the used set grew by exactly the strings
     * handed out, one element per string: no string can then repeat, or have
     * been used before.
     */
    lemma HandedByCount(got: seq<string>, before: set<string>, after: set<string>, length: int)
      requires forall j :: 0 <= j < |got| ==> |got[j]| == length && Over(got[j], alphabet)
      requires after == before + Elements(got) && |after| == |before| + |got|
      ensures Handed(got, before, after, length)
    {
      ElementsBound(got);
      assert |before + Elements(got)| + |before * Elements(got)| == |before| + |Elements(got)|;
      var common := before * Elements(got);
      assert |common| == 0;
      assert common == {};
      forall j | 0 <= j < |got| ensures got[j] !in before {
        ElementsMember(got, got[j]);
        assert got[j] in Elements(got) && got[j] !in common;
      }
      forall j, j' | 0 <= j < j' < |got| ensures got[j] != got[j'] {
        if got[j] == got[j'] {
          DuplicateShrinks(got, j, j');
        }
      }
    }

    /** Two consecutive runs of calls hand out their strings together. */
    lemma HandedChain(a: seq<string>, b: seq<string>, s0: set<string>, s1: set<string>, s2: set<string>, length: int)
      requires Handed(a, s0, s1, length) && Handed(b, s1, s2, length)
      ensures Handed(a + b, s0, s2, length)
    {
      var ab := a + b;
      forall j | 0 <= j < |ab| ensures |ab[j]| == length && Over(ab[j], alphabet) {
        if j >= |a| { assert ab[j] == b[j - |a|]; }
      }
      ElementsAppend(a, b);
      HandedByCount(ab, s0, s2, length);
    }

    method GenerateNRandomStrings(number: int, length: int, rng: Rng) returns (ret: seq<string>, ghost ends: seq<nat>)
      requires number >= 0
      requires length >= 1 && number > 0 ==> |alphabet| > 0 && Spread(rng.draw, alphabet, length, |used| + number)
      modifies this, rng
      ensures |ret| == number
      ensures length < 1 ==> used == old(used) && rng.pos == old(rng.pos) && forall i :: 0 <= i < number ==> ret[i] == ""
      ensures length >= 1 ==> forall i :: 0 <= i < number ==> |ret[i]| == length && Over(ret[i], alphabet) && ret[i] !in old(used)
      ensures length >= 1 ==> forall i, j :: 0 <= i < j < number ==> ret[i] != ret[j]
      ensures length >= 1 ==> used == old(used) + Elements(ret)
      ensures length >= 1 ==> Handed(ret, old(used), used, length)
      ensures number == 0 ==> used == old(used) && rng.pos == old(rng.pos)
      ensures length >= 1 && number > 0 ==>
        StringsRun(rng.draw, alphabet, old(used), ret, ends, length, old(rng.pos)) && rng.pos == RunEnd(ends, old(rng.pos))
    {
      ret, ends := [], [];
      for i := 0 to number
        invariant |ret| == i
        invariant Produced(rng.draw, alphabet, old(used), old(rng.pos), length, ret, ends, used, rng.pos)
      {
        if length >= 1 {
          SpreadMonotone(rng.draw, alphabet, length, |old(used)| + number, |used| + 1);
        }
        ghost var u, pos := used, rng.pos;
        var s := RandomString(length, rng);
        ProducedSnoc(rng.draw, alphabet, old(used), old(rng.pos), length, ret, ends, u, pos, s, used, rng.pos);
        ret, ends := ret + [s], ends + [rng.pos];
      }
      if length >= 1 {
        HandedByCount(ret, old(used), used, length);
      }
    }
  }
}
