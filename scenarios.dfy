/**
 * The fourteen document scenarios of BENCH_MetadataQuery. Each scenario is an
 * Issue method, the loop that sends one call per document to the provider,
 * and a Bench method that times it: it reads the clock, issues the calls,
 * and reports the elapsed time as one point. `block` is the sequence of
 * calls a scenario sent, which its contract ties to a function of the
 * documents and of the random draws it consumed.
 */
module Scenarios {
  import opened Environment
  import opened Queries
  import opened Generator
  import opened Reporting
  import opened Workload

  // ---------------------------------------------------------------- reads

  method IssueInsertDocument(p: FakeProvider, docs: seq<KVList>) returns (ghost block: seq<Call>)
    modifies p
    ensures block == InsertBlock(docs, |docs|) && p.calls == old(p.calls) + block
  {
    block := [];
    for i := 0 to |docs|
      invariant p.calls == old(p.calls) + block
      invariant block == InsertBlock(docs, i)
    {
      p.InsertDocument([docs[i]]);
      LogSnoc(old(p.calls), block, Call.InsertDocument([docs[i]]));
      block := block + [Call.InsertDocument([docs[i]])];
    }
  }

  method BenchInsertDocument(p: FakeProvider, report: Reporter, clock: Clock, prefix: string, run: int, docs: seq<KVList>)
    returns (ghost block: seq<Call>)
    modifies p, report, clock
    ensures block == InsertBlock(docs, |docs|) && p.calls == old(p.calls) + block
    ensures report.metrics == old(report.metrics) + [TimedPoint(prefix + SCENARIOS[0], run, clock.reading, old(clock.ticks))]
    ensures clock.ticks == old(clock.ticks) + 2
    ensures report.ok == old(report.ok) && report.fatalMsg == old(report.fatalMsg)
  {
    var st := report.StartTimer(clock);
    block := IssueInsertDocument(p, docs);
    report.DeltaMetric(prefix + SCENARIOS[0], run, st, clock);
  }

  method IssueGetDocumentUnique(p: FakeProvider, docs: seq<KVList>) returns (ghost block: seq<Call>)
    requires Indexable(docs)
    modifies p
    ensures block == UniqueBlock(docs, |docs|) && p.calls == old(p.calls) + block
  {
    block := [];
    for i := 0 to |docs|
      invariant p.calls == old(p.calls) + block
      invariant block == UniqueBlock(docs, i)
    {
      var uuid := docs[i][0].1;
      p.GetDocumentUnique(uuid);
      LogSnoc(old(p.calls), block, Call.GetDocumentUnique(uuid));
      block := block + [Call.GetDocumentUnique(uuid)];
    }
  }

  method BenchGetDocumentUnique(p: FakeProvider, report: Reporter, clock: Clock, prefix: string, run: int, docs: seq<KVList>)
    returns (ghost block: seq<Call>)
    requires Indexable(docs)
    modifies p, report, clock
    ensures block == UniqueBlock(docs, |docs|) && p.calls == old(p.calls) + block
    ensures report.metrics == old(report.metrics) + [TimedPoint(prefix + SCENARIOS[1], run, clock.reading, old(clock.ticks))]
    ensures clock.ticks == old(clock.ticks) + 2
    ensures report.ok == old(report.ok) && report.fatalMsg == old(report.fatalMsg)
  {
    var st := report.StartTimer(clock);
    block := IssueGetDocumentUnique(p, docs);
    report.DeltaMetric(prefix + SCENARIOS[1], run, st, clock);
  }

  method IssueGetDocumentSetWhere1Doc(p: FakeProvider, docs: seq<KVList>) returns (ghost block: seq<Call>)
    modifies p
    ensures block == WhereOneBlock(docs, |docs|) && p.calls == old(p.calls) + block
  {
    block := [];
    for i := 0 to |docs|
      invariant p.calls == old(p.calls) + block
      invariant block == WhereOneBlock(docs, i)
    {
      p.GetDocumentSetWhere(docs[i]);
      LogSnoc(old(p.calls), block, Call.GetDocumentSetWhere(docs[i]));
      block := block + [Call.GetDocumentSetWhere(docs[i])];
    }
  }

  method BenchGetDocumentSetWhere1Doc(p: FakeProvider, report: Reporter, clock: Clock, prefix: string, run: int, docs: seq<KVList>)
    returns (ghost block: seq<Call>)
    modifies p, report, clock
    ensures block == WhereOneBlock(docs, |docs|) && p.calls == old(p.calls) + block
    ensures report.metrics == old(report.metrics) + [TimedPoint(prefix + SCENARIOS[2], run, clock.reading, old(clock.ticks))]
    ensures clock.ticks == old(clock.ticks) + 2
    ensures report.ok == old(report.ok) && report.fatalMsg == old(report.fatalMsg)
  {
    var st := report.StartTimer(clock);
    block := IssueGetDocumentSetWhere1Doc(p, docs);
    report.DeltaMetric(prefix + SCENARIOS[2], run, st, clock);
  }

  /** One pass of the GetDocumentSetWhereManyDoc loop: a pool key and one of the document's values. */
  method WhereManyStep(p: FakeProvider, rng: Rng, doc: KVList, tlk: seq<string>) returns (ghost c: Call)
    requires IndexableDoc(doc) && |tlk| == KEYS
    modifies p, rng
    ensures c == WhereManyCall(doc, tlk, rng.draw(old(rng.pos)), rng.draw(old(rng.pos) + 1))
    ensures p.calls == old(p.calls) + [c] && rng.pos == old(rng.pos) + 2
  {
    var a := rng.Intn(KEYS);
    var b := rng.Intn(KEYS);
    var where := [(tlk[a], doc[b].1)];
    p.GetDocumentSetWhere(where);
    c := Call.GetDocumentSetWhere(where);
  }

  method IssueGetDocumentSetWhereManyDoc(p: FakeProvider, rng: Rng, docs: seq<KVList>, tlk: seq<string>) returns (ghost block: seq<Call>)
    requires Indexable(docs) && |tlk| == KEYS
    modifies p, rng
    ensures block == WhereManyBlock(docs, |docs|, tlk, rng.draw, old(rng.pos)) && p.calls == old(p.calls) + block
    ensures rng.pos == old(rng.pos) + 2 * |docs|
  {
    block := [];
    for i := 0 to |docs|
      invariant p.calls == old(p.calls) + block
      invariant rng.pos == old(rng.pos) + 2 * i
      invariant block == WhereManyBlock(docs, i, tlk, rng.draw, old(rng.pos))
    {
      ghost var pos := rng.pos;
      var c := WhereManyStep(p, rng, docs[i], tlk);
      WhereManyNext(docs, i, tlk, rng.draw, old(rng.pos), pos, c);
      LogSnoc(old(p.calls), block, c);
      block := block + [c];
    }
  }

  method BenchGetDocumentSetWhereManyDoc(p: FakeProvider, report: Reporter, clock: Clock, rng: Rng, prefix: string, run: int, docs: seq<KVList>, tlk: seq<string>)
    returns (ghost block: seq<Call>)
    requires Indexable(docs) && |tlk| == KEYS
    modifies p, report, clock, rng
    ensures block == WhereManyBlock(docs, |docs|, tlk, rng.draw, old(rng.pos)) && p.calls == old(p.calls) + block
    ensures rng.pos == old(rng.pos) + 2 * |docs|
    ensures report.metrics == old(report.metrics) + [TimedPoint(prefix + SCENARIOS[3], run, clock.reading, old(clock.ticks))]
    ensures clock.ticks == old(clock.ticks) + 2
    ensures report.ok == old(report.ok) && report.fatalMsg == old(report.fatalMsg)
  {
    var st := report.StartTimer(clock);
    block := IssueGetDocumentSetWhereManyDoc(p, rng, docs, tlk);
    report.DeltaMetric(prefix + SCENARIOS[3], run, st, clock);
  }

  /** One pass of the GetUniqueValues loop: the key of a random pair of the document. */
  method UniqueValuesStep(p: FakeProvider, rng: Rng, doc: KVList) returns (ghost c: Call)
    requires IndexableDoc(doc)
    modifies p, rng
    ensures c == UniqueValuesCall(doc, rng.draw(old(rng.pos)))
    ensures p.calls == old(p.calls) + [c] && rng.pos == old(rng.pos) + 1
  {
    var k := rng.Intn(KEYS);
    var key := doc[k].0;
    p.GetUniqueValues(key);
    c := Call.GetUniqueValues(key);
  }

  method IssueGetUniqueValues(p: FakeProvider, rng: Rng, docs: seq<KVList>) returns (ghost block: seq<Call>)
    requires Indexable(docs)
    modifies p, rng
    ensures block == UniqueValuesBlock(docs, |docs|, rng.draw, old(rng.pos)) && p.calls == old(p.calls) + block
    ensures rng.pos == old(rng.pos) + |docs|
  {
    block := [];
    for i := 0 to |docs|
      invariant p.calls == old(p.calls) + block
      invariant rng.pos == old(rng.pos) + i
      invariant block == UniqueValuesBlock(docs, i, rng.draw, old(rng.pos))
    {
      ghost var pos := rng.pos;
      var c := UniqueValuesStep(p, rng, docs[i]);
      UniqueValuesNext(docs, i, rng.draw, old(rng.pos), pos, c);
      LogSnoc(old(p.calls), block, c);
      block := block + [c];
    }
  }

  method BenchGetUniqueValues(p: FakeProvider, report: Reporter, clock: Clock, rng: Rng, prefix: string, run: int, docs: seq<KVList>)
    returns (ghost block: seq<Call>)
    requires Indexable(docs)
    modifies p, report, clock, rng
    ensures block == UniqueValuesBlock(docs, |docs|, rng.draw, old(rng.pos)) && p.calls == old(p.calls) + block
    ensures rng.pos == old(rng.pos) + |docs|
    ensures report.metrics == old(report.metrics) + [TimedPoint(prefix + SCENARIOS[4], run, clock.reading, old(clock.ticks))]
    ensures clock.ticks == old(clock.ticks) + 2
    ensures report.ok == old(report.ok) && report.fatalMsg == old(report.fatalMsg)
  {
    var st := report.StartTimer(clock);
    block := IssueGetUniqueValues(p, rng, docs);
    report.DeltaMetric(prefix + SCENARIOS[4], run, st, clock);
  }

  /** One pass of the GetDocumentSetValueGlob loop: a random pair's key, and a glob on the first character of its value. */
  method ValueGlobStep(p: FakeProvider, rng: Rng, doc: KVList) returns (ghost c: Call)
    requires IndexableDoc(doc)
    modifies p, rng
    ensures c == ValueGlobCall(doc, rng.draw(old(rng.pos)))
    ensures p.calls == old(p.calls) + [c] && rng.pos == old(rng.pos) + 1
  {
    var k := rng.Intn(KEYS);
    var key, glob := doc[k].0, [doc[k].1[0]] + ".*";
    p.GetDocumentSetValueGlob(key, glob);
    c := Call.GetDocumentSetValueGlob(key, glob);
  }

  method IssueGetDocumentSetValueGlob(p: FakeProvider, rng: Rng, docs: seq<KVList>) returns (ghost block: seq<Call>)
    requires Indexable(docs)
    modifies p, rng
    ensures block == ValueGlobBlock(docs, |docs|, rng.draw, old(rng.pos)) && p.calls == old(p.calls) + block
    ensures rng.pos == old(rng.pos) + |docs|
  {
    block := [];
    for i := 0 to |docs|
      invariant p.calls == old(p.calls) + block
      invariant rng.pos == old(rng.pos) + i
      invariant block == ValueGlobBlock(docs, i, rng.draw, old(rng.pos))
    {
      ghost var pos := rng.pos;
      var c := ValueGlobStep(p, rng, docs[i]);
      ValueGlobNext(docs, i, rng.draw, old(rng.pos), pos, c);
      LogSnoc(old(p.calls), block, c);
      block := block + [c];
    }
  }

  method BenchGetDocumentSetValueGlob(p: FakeProvider, report: Reporter, clock: Clock, rng: Rng, prefix: string, run: int, docs: seq<KVList>)
    returns (ghost block: seq<Call>)
    requires Indexable(docs)
    modifies p, report, clock, rng
    ensures block == ValueGlobBlock(docs, |docs|, rng.draw, old(rng.pos)) && p.calls == old(p.calls) + block
    ensures rng.pos == old(rng.pos) + |docs|
    ensures report.metrics == old(report.metrics) + [TimedPoint(prefix + SCENARIOS[5], run, clock.reading, old(clock.ticks))]
    ensures clock.ticks == old(clock.ticks) + 2
    ensures report.ok == old(report.ok) && report.fatalMsg == old(report.fatalMsg)
  {
    var st := report.StartTimer(clock);
    block := IssueGetDocumentSetValueGlob(p, rng, docs);
    report.DeltaMetric(prefix + SCENARIOS[5], run, st, clock);
  }

  /** One pass of the GetKeyGlob loop: a glob on the first character of a random pair's key. */
  method KeyGlobStep(p: FakeProvider, rng: Rng, doc: KVList) returns (ghost c: Call)
    requires IndexableDoc(doc)
    modifies p, rng
    ensures c == KeyGlobCall(doc, rng.draw(old(rng.pos)))
    ensures p.calls == old(p.calls) + [c] && rng.pos == old(rng.pos) + 1
  {
    var k := rng.Intn(KEYS);
    var glob := [doc[k].0[0]] + ".*";
    p.GetKeyGlob(glob);
    c := Call.GetKeyGlob(glob);
  }

  method IssueGetKeyGlob(p: FakeProvider, rng: Rng, docs: seq<KVList>) returns (ghost block: seq<Call>)
    requires Indexable(docs)
    modifies p, rng
    ensures block == KeyGlobBlock(docs, |docs|, rng.draw, old(rng.pos)) && p.calls == old(p.calls) + block
    ensures rng.pos == old(rng.pos) + |docs|
  {
    block := [];
    for i := 0 to |docs|
      invariant p.calls == old(p.calls) + block
      invariant rng.pos == old(rng.pos) + i
      invariant block == KeyGlobBlock(docs, i, rng.draw, old(rng.pos))
    {
      ghost var pos := rng.pos;
      var c := KeyGlobStep(p, rng, docs[i]);
      KeyGlobNext(docs, i, rng.draw, old(rng.pos), pos, c);
      LogSnoc(old(p.calls), block, c);
      block := block + [c];
    }
  }

  method BenchGetKeyGlob(p: FakeProvider, report: Reporter, clock: Clock, rng: Rng, prefix: string, run: int, docs: seq<KVList>)
    returns (ghost block: seq<Call>)
    requires Indexable(docs)
    modifies p, report, clock, rng
    ensures block == KeyGlobBlock(docs, |docs|, rng.draw, old(rng.pos)) && p.calls == old(p.calls) + block
    ensures rng.pos == old(rng.pos) + |docs|
    ensures report.metrics == old(report.metrics) + [TimedPoint(prefix + SCENARIOS[6], run, clock.reading, old(clock.ticks))]
    ensures clock.ticks == old(clock.ticks) + 2
    ensures report.ok == old(report.ok) && report.fatalMsg == old(report.fatalMsg)
  {
    var st := report.StartTimer(clock);
    block := IssueGetKeyGlob(p, rng, docs);
    report.DeltaMetric(prefix + SCENARIOS[6], run, st, clock);
  }

  // ---------------------------------------------------------------- writes

  /**
   * k and v are the strings two consecutive RandomString(10) calls hand out
   * from stream position `from` on a generator whose used set is `used`: the
   * key's retry loop stops at `mid`, where the value's starts, and the
   * value's stops at `end`.
   */
  ghost predicate PairFrom(draw: nat -> nat, alphabet: string, used: set<string>, from: nat, k: string, v: string, mid: nat, end: nat)
    requires |alphabet| > 0
  {
    && FirstFresh(draw, alphabet, used, from, STRING_LENGTH, k, mid)
    && FirstFresh(draw, alphabet, used + {k}, mid, STRING_LENGTH, v, end)
  }

  /** The stream position where the pass after the passes `at` starts: `post` draws after the last pair's end. */
  ghost function PassStart(at: seq<PassAt>, post: nat, start: nat): nat
  {
    if at == [] then start else at[|at| - 1].2 + post
  }

  /**
   * The passes of one writing scenario, from stream position `start` on a
   * generator whose used set was `used`: each pass starts where the previous
   * one ended (`PassStart`), takes `pre` draws, then hands out its pair by
   * two retry loops that stop at at[i].1 and at[i].2, and takes `post` more
   * draws.
   */
  ghost predicate PairsRun(draw: nat -> nat, alphabet: string, used: set<string>, pairs: seq<(string, string)>, at: seq<PassAt>,
                           pre: nat, post: nat, start: nat)
    requires |alphabet| > 0
  {
    && |at| == |pairs|
    && (pairs != [] ==>
          var n := |pairs| - 1;
          && PairsRun(draw, alphabet, used, pairs[..n], at[..n], pre, post, start)
          && at[n].0 == PassStart(at[..n], post, start)
          && PairFrom(draw, alphabet, used + Elements(Flatten(pairs[..n])), at[n].0 + pre, pairs[n].0, pairs[n].1, at[n].1, at[n].2))
  }

  lemma PairsRunSnoc(draw: nat -> nat, alphabet: string, used: set<string>, pairs: seq<(string, string)>, at: seq<PassAt>,
                     pre: nat, post: nat, start: nat, u: set<string>, from: nat, k: string, v: string, a: PassAt)
    requires |alphabet| > 0 && PairsRun(draw, alphabet, used, pairs, at, pre, post, start)
    requires a.0 == PassStart(at, post, start) && u == used + Elements(Flatten(pairs)) && from == a.0 + pre
    requires PairFrom(draw, alphabet, u, from, k, v, a.1, a.2)
    ensures PairsRun(draw, alphabet, used, pairs + [(k, v)], at + [a], pre, post, start)
  {
    assert (pairs + [(k, v)])[..|pairs|] == pairs;
    assert (at + [a])[..|at|] == at;
  }

  /**
   * The pairs a writing scenario hands out, and the stream positions of its
   * passes, are determined by the stream, the used set and the position the
   * scenario starts at.
   */
  lemma {:induction false} PairsRunUnique(draw: nat -> nat, alphabet: string, used: set<string>,
                                          pairs: seq<(string, string)>, at: seq<PassAt>, pairs': seq<(string, string)>, at': seq<PassAt>,
                                          pre: nat, post: nat, start: nat)
    requires |alphabet| > 0 && |pairs| == |pairs'|
    requires PairsRun(draw, alphabet, used, pairs, at, pre, post, start) && PairsRun(draw, alphabet, used, pairs', at', pre, post, start)
    ensures pairs == pairs' && at == at'
  {
    if pairs != [] {
      var n := |pairs| - 1;
      PairsRunUnique(draw, alphabet, used, pairs[..n], at[..n], pairs'[..n], at'[..n], pre, post, start);
      var u := used + Elements(Flatten(pairs[..n]));
      FirstFreshUnique(draw, alphabet, u, at[n].0 + pre, STRING_LENGTH, pairs[n].0, at[n].1, pairs'[n].0, at'[n].1);
      FirstFreshUnique(draw, alphabet, u + {pairs[n].0}, at[n].1, STRING_LENGTH, pairs[n].1, at[n].2, pairs'[n].1, at'[n].2);
      assert pairs == pairs[..n] + [pairs[n]] && pairs' == pairs'[..n] + [pairs'[n]];
      assert at == at[..n] + [at[n]] && at' == at'[..n] + [at'[n]];
    }
  }

  /** The pair of sg.RandomString(10), sg.RandomString(10): two strings never handed out before. */
  method FreshPair(rng: Rng, sg: StringGenerator, ghost budget: nat) returns (k: string, v: string, ghost mid: nat)
    requires |sg.alphabet| > 0 && Spread(rng.draw, sg.alphabet, STRING_LENGTH, budget) && |sg.used| + 2 <= budget
    modifies rng, sg
    ensures k != v && k !in old(sg.used) && v !in old(sg.used)
    ensures |k| == STRING_LENGTH && Over(k, sg.alphabet) && |v| == STRING_LENGTH && Over(v, sg.alphabet)
    ensures sg.used == old(sg.used) + {k, v}
    ensures PairFrom(rng.draw, sg.alphabet, old(sg.used), old(rng.pos), k, v, mid, rng.pos)
  {
    SpreadMonotone(rng.draw, sg.alphabet, STRING_LENGTH, budget, |sg.used| + 1);
    k := sg.RandomString(STRING_LENGTH, rng);
    mid := rng.pos;
    SpreadMonotone(rng.draw, sg.alphabet, STRING_LENGTH, budget, |sg.used| + 1);
    v := sg.RandomString(STRING_LENGTH, rng);
  }

  /** Strings handed out so far: the right length, over the alphabet, and each one added to the used set. */
  ghost predicate Generated(alphabet: string, used: set<string>, got: seq<string>, before: set<string>)
  {
    && (forall j :: 0 <= j < |got| ==> |got[j]| == STRING_LENGTH && Over(got[j], alphabet))
    && used == before + Elements(got)
    && |used| == |before| + |got|
  }

  /** Extends the strings handed out by one fresh pair. */
  lemma GeneratedPair(alphabet: string, u0: set<string>, u1: set<string>, pairs: seq<(string, string)>, before: set<string>, k: string, v: string)
    requires Generated(alphabet, u0, Flatten(pairs), before)
    requires k != v && k !in u0 && v !in u0
    requires |k| == STRING_LENGTH && Over(k, alphabet) && |v| == STRING_LENGTH && Over(v, alphabet)
    requires u1 == u0 + {k, v}
    ensures Generated(alphabet, u1, Flatten(pairs + [(k, v)]), before)
  {
    assert (pairs + [(k, v)])[..|pairs|] == pairs;
    var got := Flatten(pairs);
    var g := got + [k, v];
    ElementsSnoc(got, k);
    ElementsSnoc(got + [k], v);
    assert g == got + [k] + [v];
    forall j | 0 <= j < |g| ensures |g[j]| == STRING_LENGTH && Over(g[j], alphabet) {
      if j < |got| { assert g[j] == got[j]; }
    }
  }

  /** One pass of the SetKVDocumentUnique loop: a fresh pair set on the document addressed by its uuid. */
  method SetUniqueStep(p: FakeProvider, rng: Rng, sg: StringGenerator, doc: KVList, ghost budget: nat)
    returns (k: string, v: string, ghost a: PassAt, ghost c: Call)
    requires IndexableDoc(doc)
    requires |sg.alphabet| > 0 && Spread(rng.draw, sg.alphabet, STRING_LENGTH, budget) && |sg.used| + 2 <= budget
    modifies p, rng, sg
    ensures k != v && k !in old(sg.used) && v !in old(sg.used)
    ensures |k| == STRING_LENGTH && Over(k, sg.alphabet) && |v| == STRING_LENGTH && Over(v, sg.alphabet)
    ensures sg.used == old(sg.used) + {k, v}
    ensures a.0 == old(rng.pos) && PairFrom(rng.draw, sg.alphabet, old(sg.used), a.0, k, v, a.1, a.2) && rng.pos == a.2
    ensures c == Call.SetKVDocumentUnique([(k, v)], doc[0].1) && p.calls == old(p.calls) + [c]
  {
    ghost var mid;
    k, v, mid := FreshPair(rng, sg, budget);
    a := (old(rng.pos), mid, rng.pos);
    var randomkv := [(k, v)];
    p.SetKVDocumentUnique(randomkv, doc[0].1);
    c := Call.SetKVDocumentUnique(randomkv, doc[0].1);
  }

  /** SetUniqueStep for document i, extending the ghost record of the pairs handed out, their positions and the calls sent. */
  method SetUniquePass(p: FakeProvider, rng: Rng, sg: StringGenerator, docs: seq<KVList>, i: nat, ghost budget: nat,
                       ghost before: set<string>, ghost pairs: seq<(string, string)>, ghost at: seq<PassAt>, ghost start: nat)
    returns (k: string, v: string, ghost a: PassAt, ghost c: Call)
    requires Indexable(docs) && |pairs| == i < |docs|
    requires |sg.alphabet| > 0 && Spread(rng.draw, sg.alphabet, STRING_LENGTH, budget) && |sg.used| + 2 <= budget
    requires Generated(sg.alphabet, sg.used, Flatten(pairs), before)
    requires PairsRun(rng.draw, sg.alphabet, before, pairs, at, 0, 0, start) && rng.pos == PassStart(at, 0, start)
    modifies p, rng, sg
    ensures Generated(sg.alphabet, sg.used, Flatten(pairs + [(k, v)]), before)
    ensures PairsRun(rng.draw, sg.alphabet, before, pairs + [(k, v)], at + [a], 0, 0, start) && rng.pos == a.2
    ensures SetUniqueBlock(docs, pairs + [(k, v)]) == SetUniqueBlock(docs, pairs) + [c]
    ensures p.calls == old(p.calls) + [c]
  {
    ghost var u0 := sg.used;
    k, v, a, c := SetUniqueStep(p, rng, sg, docs[i], budget);
    SetUniqueNext(docs, pairs, k, v, c);
    GeneratedPair(sg.alphabet, u0, sg.used, pairs, before, k, v);
    PairsRunSnoc(rng.draw, sg.alphabet, before, pairs, at, 0, 0, start, u0, a.0, k, v, a);
  }

  method IssueSetKVDocumentUnique(p: FakeProvider, rng: Rng, sg: StringGenerator, docs: seq<KVList>, ghost budget: nat)
    returns (ghost block: seq<Call>, ghost pairs: seq<(string, string)>, ghost at: seq<PassAt>)
    requires Indexable(docs)
    requires |sg.alphabet| > 0 && Spread(rng.draw, sg.alphabet, STRING_LENGTH, budget) && |sg.used| + 2 * |docs| <= budget
    modifies p, rng, sg
    ensures |pairs| == |docs| && block == SetUniqueBlock(docs, pairs) && p.calls == old(p.calls) + block
    ensures sg.Handed(Flatten(pairs), old(sg.used), sg.used, STRING_LENGTH)
    ensures |sg.used| == |old(sg.used)| + 2 * |docs|
    ensures PairsRun(rng.draw, sg.alphabet, old(sg.used), pairs, at, 0, 0, old(rng.pos)) && rng.pos == PassStart(at, 0, old(rng.pos))
  {
    block, pairs, at := [], [], [];
    for i := 0 to |docs|
      invariant p.calls == old(p.calls) + block
      invariant |pairs| == i && block == SetUniqueBlock(docs, pairs)
      invariant Generated(sg.alphabet, sg.used, Flatten(pairs), old(sg.used))
      invariant PairsRun(rng.draw, sg.alphabet, old(sg.used), pairs, at, 0, 0, old(rng.pos)) && rng.pos == PassStart(at, 0, old(rng.pos))
    {
      var k, v, a, c := SetUniquePass(p, rng, sg, docs, i, budget, old(sg.used), pairs, at, old(rng.pos));
      LogSnoc(old(p.calls), block, c);
      block, pairs, at := block + [c], pairs + [(k, v)], at + [a];
    }
    sg.HandedByCount(Flatten(pairs), old(sg.used), sg.used, STRING_LENGTH);
  }

  method BenchSetKVDocumentUnique(p: FakeProvider, report: Reporter, clock: Clock, rng: Rng, sg: StringGenerator, prefix: string, run: int, docs: seq<KVList>, ghost budget: nat)
    returns (ghost block: seq<Call>, ghost pairs: seq<(string, string)>, ghost at: seq<PassAt>)
    requires Indexable(docs)
    requires |sg.alphabet| > 0 && Spread(rng.draw, sg.alphabet, STRING_LENGTH, budget) && |sg.used| + 2 * |docs| <= budget
    modifies p, report, clock, rng, sg
    ensures |pairs| == |docs| && block == SetUniqueBlock(docs, pairs) && p.calls == old(p.calls) + block
    ensures sg.Handed(Flatten(pairs), old(sg.used), sg.used, STRING_LENGTH)
    ensures |sg.used| == |old(sg.used)| + 2 * |docs|
    ensures PairsRun(rng.draw, sg.alphabet, old(sg.used), pairs, at, 0, 0, old(rng.pos)) && rng.pos == PassStart(at, 0, old(rng.pos))
    ensures report.metrics == old(report.metrics) + [TimedPoint(prefix + SCENARIOS[7], run, clock.reading, old(clock.ticks))]
    ensures clock.ticks == old(clock.ticks) + 2
    ensures report.ok == old(report.ok) && report.fatalMsg == old(report.fatalMsg)
  {
    var st := report.StartTimer(clock);
    block, pairs, at := IssueSetKVDocumentUnique(p, rng, sg, docs, budget);
    report.DeltaMetric(prefix + SCENARIOS[7], run, st, clock);
  }

  /**
   * One pass of the SetKVDocumentWhere loop: a fresh pair, then a where
   * clause from the two draws that follow it.
   */
  method SetWhereStep(p: FakeProvider, rng: Rng, sg: StringGenerator, doc: KVList, tlk: seq<string>, ghost budget: nat)
    returns (k: string, v: string, ghost a: PassAt, ghost c: Call)
    requires IndexableDoc(doc) && |tlk| == KEYS
    requires |sg.alphabet| > 0 && Spread(rng.draw, sg.alphabet, STRING_LENGTH, budget) && |sg.used| + 2 <= budget
    modifies p, rng, sg
    ensures k != v && k !in old(sg.used) && v !in old(sg.used)
    ensures |k| == STRING_LENGTH && Over(k, sg.alphabet) && |v| == STRING_LENGTH && Over(v, sg.alphabet)
    ensures sg.used == old(sg.used) + {k, v}
    ensures a.0 == old(rng.pos) && PairFrom(rng.draw, sg.alphabet, old(sg.used), a.0, k, v, a.1, a.2) && rng.pos == a.2 + 2
    ensures c == SetWhereCall(doc, [(k, v)], tlk, rng.draw(a.2), rng.draw(a.2 + 1)) && p.calls == old(p.calls) + [c]
  {
    ghost var mid;
    k, v, mid := FreshPair(rng, sg, budget);
    a := (old(rng.pos), mid, rng.pos);
    var randomkv := [(k, v)];
    var x := rng.Intn(KEYS);
    var y := rng.Intn(KEYS);
    var where := [(tlk[x], doc[y].1)];
    p.SetKVDocumentWhere(randomkv, where);
    c := Call.SetKVDocumentWhere(randomkv, where);
  }

  /** SetWhereStep for document i, extending the ghost record of the pairs handed out, their positions and the calls sent. */
  method SetWherePass(p: FakeProvider, rng: Rng, sg: StringGenerator, docs: seq<KVList>, tlk: seq<string>, i: nat, ghost budget: nat,
                      ghost before: set<string>, ghost pairs: seq<(string, string)>, ghost at: seq<PassAt>, ghost start: nat)
    returns (k: string, v: string, ghost a: PassAt, ghost c: Call)
    requires Indexable(docs) && |tlk| == KEYS && |pairs| == i < |docs|
    requires |sg.alphabet| > 0 && Spread(rng.draw, sg.alphabet, STRING_LENGTH, budget) && |sg.used| + 2 <= budget
    requires Generated(sg.alphabet, sg.used, Flatten(pairs), before)
    requires PairsRun(rng.draw, sg.alphabet, before, pairs, at, 0, 2, start) && rng.pos == PassStart(at, 2, start)
    modifies p, rng, sg
    ensures Generated(sg.alphabet, sg.used, Flatten(pairs + [(k, v)]), before)
    ensures PairsRun(rng.draw, sg.alphabet, before, pairs + [(k, v)], at + [a], 0, 2, start) && rng.pos == a.2 + 2
    ensures SetWhereBlock(docs, tlk, pairs + [(k, v)], rng.draw, at + [a]) == SetWhereBlock(docs, tlk, pairs, rng.draw, at) + [c]
    ensures p.calls == old(p.calls) + [c]
  {
    ghost var u0 := sg.used;
    k, v, a, c := SetWhereStep(p, rng, sg, docs[i], tlk, budget);
    SetWhereNext(docs, tlk, pairs, rng.draw, at, k, v, a, c);
    GeneratedPair(sg.alphabet, u0, sg.used, pairs, before, k, v);
    PairsRunSnoc(rng.draw, sg.alphabet, before, pairs, at, 0, 2, start, u0, a.0, k, v, a);
  }

  method IssueSetKVDocumentWhere(p: FakeProvider, rng: Rng, sg: StringGenerator, docs: seq<KVList>, tlk: seq<string>, ghost budget: nat)
    returns (ghost block: seq<Call>, ghost pairs: seq<(string, string)>, ghost at: seq<PassAt>)
    requires Indexable(docs) && |tlk| == KEYS
    requires |sg.alphabet| > 0 && Spread(rng.draw, sg.alphabet, STRING_LENGTH, budget) && |sg.used| + 2 * |docs| <= budget
    modifies p, rng, sg
    ensures |pairs| == |docs| && |at| == |docs| && block == SetWhereBlock(docs, tlk, pairs, rng.draw, at) && p.calls == old(p.calls) + block
    ensures sg.Handed(Flatten(pairs), old(sg.used), sg.used, STRING_LENGTH)
    ensures |sg.used| == |old(sg.used)| + 2 * |docs|
    ensures PairsRun(rng.draw, sg.alphabet, old(sg.used), pairs, at, 0, 2, old(rng.pos)) && rng.pos == PassStart(at, 2, old(rng.pos))
  {
    block, pairs, at := [], [], [];
    for i := 0 to |docs|
      invariant p.calls == old(p.calls) + block
      invariant |pairs| == i && |at| == i && block == SetWhereBlock(docs, tlk, pairs, rng.draw, at)
      invariant Generated(sg.alphabet, sg.used, Flatten(pairs), old(sg.used))
      invariant PairsRun(rng.draw, sg.alphabet, old(sg.used), pairs, at, 0, 2, old(rng.pos)) && rng.pos == PassStart(at, 2, old(rng.pos))
    {
      var k, v, a, c := SetWherePass(p, rng, sg, docs, tlk, i, budget, old(sg.used), pairs, at, old(rng.pos));
      LogSnoc(old(p.calls), block, c);
      block, pairs, at := block + [c], pairs + [(k, v)], at + [a];
    }
    sg.HandedByCount(Flatten(pairs), old(sg.used), sg.used, STRING_LENGTH);
  }

  method BenchSetKVDocumentWhere(p: FakeProvider, report: Reporter, clock: Clock, rng: Rng, sg: StringGenerator, prefix: string, run: int, docs: seq<KVList>, tlk: seq<string>, ghost budget: nat)
    returns (ghost block: seq<Call>, ghost pairs: seq<(string, string)>, ghost at: seq<PassAt>)
    requires Indexable(docs) && |tlk| == KEYS
    requires |sg.alphabet| > 0 && Spread(rng.draw, sg.alphabet, STRING_LENGTH, budget) && |sg.used| + 2 * |docs| <= budget
    modifies p, report, clock, rng, sg
    ensures |pairs| == |docs| && |at| == |docs| && block == SetWhereBlock(docs, tlk, pairs, rng.draw, at) && p.calls == old(p.calls) + block
    ensures sg.Handed(Flatten(pairs), old(sg.used), sg.used, STRING_LENGTH)
    ensures |sg.used| == |old(sg.used)| + 2 * |docs|
    ensures PairsRun(rng.draw, sg.alphabet, old(sg.used), pairs, at, 0, 2, old(rng.pos)) && rng.pos == PassStart(at, 2, old(rng.pos))
    ensures report.metrics == old(report.metrics) + [TimedPoint(prefix + SCENARIOS[8], run, clock.reading, old(clock.ticks))]
    ensures clock.ticks == old(clock.ticks) + 2
    ensures report.ok == old(report.ok) && report.fatalMsg == old(report.fatalMsg)
  {
    var st := report.StartTimer(clock);
    block, pairs, at := IssueSetKVDocumentWhere(p, rng, sg, docs, tlk, budget);
    report.DeltaMetric(prefix + SCENARIOS[8], run, st, clock);
  }

  /**
   * One pass of the SetKVDocumentValueGlob loop: the draw at the current
   * stream position picks one of the document's pairs, then a fresh pair is
   * set on documents whose picked key has a value starting like the picked one.
   */
  method SetValueGlobStep(p: FakeProvider, rng: Rng, sg: StringGenerator, doc: KVList, ghost budget: nat)
    returns (k: string, v: string, ghost a: PassAt, ghost c: Call)
    requires IndexableDoc(doc)
    requires |sg.alphabet| > 0 && Spread(rng.draw, sg.alphabet, STRING_LENGTH, budget) && |sg.used| + 2 <= budget
    modifies p, rng, sg
    ensures k != v && k !in old(sg.used) && v !in old(sg.used)
    ensures |k| == STRING_LENGTH && Over(k, sg.alphabet) && |v| == STRING_LENGTH && Over(v, sg.alphabet)
    ensures sg.used == old(sg.used) + {k, v}
    ensures a.0 == old(rng.pos) && PairFrom(rng.draw, sg.alphabet, old(sg.used), a.0 + 1, k, v, a.1, a.2) && rng.pos == a.2
    ensures c == SetValueGlobCall(doc, [(k, v)], rng.draw(a.0)) && p.calls == old(p.calls) + [c]
  {
    var j := rng.Intn(KEYS);
    ghost var mid;
    k, v, mid := FreshPair(rng, sg, budget);
    a := (old(rng.pos), mid, rng.pos);
    var randomkv := [(k, v)];
    var key, glob := doc[j].0, [doc[j].1[0]] + ".*";
    p.SetKVDocumentValueGlob(randomkv, key, glob);
    c := Call.SetKVDocumentValueGlob(randomkv, key, glob);
  }

  /** SetValueGlobStep for document i, extending the ghost record of the pairs handed out, their positions and the calls sent. */
  method SetValueGlobPass(p: FakeProvider, rng: Rng, sg: StringGenerator, docs: seq<KVList>, i: nat, ghost budget: nat,
                          ghost before: set<string>, ghost pairs: seq<(string, string)>, ghost at: seq<PassAt>, ghost start: nat)
    returns (k: string, v: string, ghost a: PassAt, ghost c: Call)
    requires Indexable(docs) && |pairs| == i < |docs|
    requires |sg.alphabet| > 0 && Spread(rng.draw, sg.alphabet, STRING_LENGTH, budget) && |sg.used| + 2 <= budget
    requires Generated(sg.alphabet, sg.used, Flatten(pairs), before)
    requires PairsRun(rng.draw, sg.alphabet, before, pairs, at, 1, 0, start) && rng.pos == PassStart(at, 0, start)
    modifies p, rng, sg
    ensures Generated(sg.alphabet, sg.used, Flatten(pairs + [(k, v)]), before)
    ensures PairsRun(rng.draw, sg.alphabet, before, pairs + [(k, v)], at + [a], 1, 0, start) && rng.pos == a.2
    ensures SetValueGlobBlock(docs, pairs + [(k, v)], rng.draw, at + [a]) == SetValueGlobBlock(docs, pairs, rng.draw, at) + [c]
    ensures p.calls == old(p.calls) + [c]
  {
    ghost var u0 := sg.used;
    k, v, a, c := SetValueGlobStep(p, rng, sg, docs[i], budget);
    SetValueGlobNext(docs, pairs, rng.draw, at, k, v, a, c);
    GeneratedPair(sg.alphabet, u0, sg.used, pairs, before, k, v);
    PairsRunSnoc(rng.draw, sg.alphabet, before, pairs, at, 1, 0, start, u0, a.0 + 1, k, v, a);
  }

  method IssueSetKVDocumentValueGlob(p: FakeProvider, rng: Rng, sg: StringGenerator, docs: seq<KVList>, ghost budget: nat)
    returns (ghost block: seq<Call>, ghost pairs: seq<(string, string)>, ghost at: seq<PassAt>)
    requires Indexable(docs)
    requires |sg.alphabet| > 0 && Spread(rng.draw, sg.alphabet, STRING_LENGTH, budget) && |sg.used| + 2 * |docs| <= budget
    modifies p, rng, sg
    ensures |pairs| == |docs| && |at| == |docs| && block == SetValueGlobBlock(docs, pairs, rng.draw, at) && p.calls == old(p.calls) + block
    ensures sg.Handed(Flatten(pairs), old(sg.used), sg.used, STRING_LENGTH)
    ensures |sg.used| == |old(sg.used)| + 2 * |docs|
    ensures PairsRun(rng.draw, sg.alphabet, old(sg.used), pairs, at, 1, 0, old(rng.pos)) && rng.pos == PassStart(at, 0, old(rng.pos))
  {
    block, pairs, at := [], [], [];
    for i := 0 to |docs|
      invariant p.calls == old(p.calls) + block
      invariant |pairs| == i && |at| == i && block == SetValueGlobBlock(docs, pairs, rng.draw, at)
      invariant Generated(sg.alphabet, sg.used, Flatten(pairs), old(sg.used))
      invariant PairsRun(rng.draw, sg.alphabet, old(sg.used), pairs, at, 1, 0, old(rng.pos)) && rng.pos == PassStart(at, 0, old(rng.pos))
    {
      var k, v, a, c := SetValueGlobPass(p, rng, sg, docs, i, budget, old(sg.used), pairs, at, old(rng.pos));
      LogSnoc(old(p.calls), block, c);
      block, pairs, at := block + [c], pairs + [(k, v)], at + [a];
    }
    sg.HandedByCount(Flatten(pairs), old(sg.used), sg.used, STRING_LENGTH);
  }

  method BenchSetKVDocumentValueGlob(p: FakeProvider, report: Reporter, clock: Clock, rng: Rng, sg: StringGenerator, prefix: string, run: int, docs: seq<KVList>, ghost budget: nat)
    returns (ghost block: seq<Call>, ghost pairs: seq<(string, string)>, ghost at: seq<PassAt>)
    requires Indexable(docs)
    requires |sg.alphabet| > 0 && Spread(rng.draw, sg.alphabet, STRING_LENGTH, budget) && |sg.used| + 2 * |docs| <= budget
    modifies p, report, clock, rng, sg
    ensures |pairs| == |docs| && |at| == |docs| && block == SetValueGlobBlock(docs, pairs, rng.draw, at) && p.calls == old(p.calls) + block
    ensures sg.Handed(Flatten(pairs), old(sg.used), sg.used, STRING_LENGTH)
    ensures |sg.used| == |old(sg.used)| + 2 * |docs|
    ensures PairsRun(rng.draw, sg.alphabet, old(sg.used), pairs, at, 1, 0, old(rng.pos)) && rng.pos == PassStart(at, 0, old(rng.pos))
    ensures report.metrics == old(report.metrics) + [TimedPoint(prefix + SCENARIOS[9], run, clock.reading, old(clock.ticks))]
    ensures clock.ticks == old(clock.ticks) + 2
    ensures report.ok == old(report.ok) && report.fatalMsg == old(report.fatalMsg)
  {
    var st := report.StartTimer(clock);
    block, pairs, at := IssueSetKVDocumentValueGlob(p, rng, sg, docs, budget);
    report.DeltaMetric(prefix + SCENARIOS[9], run, st, clock);
  }

  // ---------------------------------------------------------------- deletions

  method IssueDeleteKeyDocumentUnique(p: FakeProvider, docs: seq<KVList>, keys: seq<string>) returns (ghost block: seq<Call>)
    requires Indexable(docs) && |keys| >= 2
    modifies p
    ensures block == DeleteUniqueBlock(docs, |docs|, keys[..2]) && p.calls == old(p.calls) + block
  {
    block := [];
    for i := 0 to |docs|
      invariant p.calls == old(p.calls) + block
      invariant block == DeleteUniqueBlock(docs, i, keys[..2])
    {
      var uuid := docs[i][0].1;
      p.DeleteKeyDocumentUnique(keys[..2], uuid);
      LogSnoc(old(p.calls), block, Call.DeleteKeyDocumentUnique(keys[..2], uuid));
      block := block + [Call.DeleteKeyDocumentUnique(keys[..2], uuid)];
    }
  }

  method BenchDeleteKeyDocumentUnique(p: FakeProvider, report: Reporter, clock: Clock, prefix: string, run: int, docs: seq<KVList>, keys: seq<string>)
    returns (ghost block: seq<Call>)
    requires Indexable(docs) && |keys| >= 2
    modifies p, report, clock
    ensures block == DeleteUniqueBlock(docs, |docs|, keys[..2]) && p.calls == old(p.calls) + block
    ensures report.metrics == old(report.metrics) + [TimedPoint(prefix + SCENARIOS[10], run, clock.reading, old(clock.ticks))]
    ensures clock.ticks == old(clock.ticks) + 2
    ensures report.ok == old(report.ok) && report.fatalMsg == old(report.fatalMsg)
  {
    var st := report.StartTimer(clock);
    block := IssueDeleteKeyDocumentUnique(p, docs, keys);
    report.DeltaMetric(prefix + SCENARIOS[10], run, st, clock);
  }

  /** One pass of the DeleteKeyDocumentWhere loop: the pool's first two keys, under a where clause on a random pool key. */
  method DeleteWhereStep(p: FakeProvider, rng: Rng, doc: KVList, keys: seq<string>) returns (ghost c: Call)
    requires IndexableDoc(doc) && |keys| == 8
    modifies p, rng
    ensures c == DeleteWhereCall(doc, keys, 8, rng.draw(old(rng.pos)), rng.draw(old(rng.pos) + 1))
    ensures p.calls == old(p.calls) + [c] && rng.pos == old(rng.pos) + 2
  {
    var a := rng.Intn(8);
    var b := rng.Intn(8);
    var where := [(keys[a], doc[b].1)];
    p.DeleteKeyDocumentWhere(keys[..2], where);
    c := Call.DeleteKeyDocumentWhere(keys[..2], where);
  }

  method IssueDeleteKeyDocumentWhere(p: FakeProvider, rng: Rng, docs: seq<KVList>, keys: seq<string>) returns (ghost block: seq<Call>)
    requires Indexable(docs) && |keys| == 8
    modifies p, rng
    ensures block == DeleteWhereBlock(docs, |docs|, keys, 8, rng.draw, old(rng.pos)) && p.calls == old(p.calls) + block
    ensures rng.pos == old(rng.pos) + 2 * |docs|
  {
    block := [];
    for i := 0 to |docs|
      invariant p.calls == old(p.calls) + block
      invariant rng.pos == old(rng.pos) + 2 * i
      invariant block == DeleteWhereBlock(docs, i, keys, 8, rng.draw, old(rng.pos))
    {
      ghost var pos := rng.pos;
      var c := DeleteWhereStep(p, rng, docs[i], keys);
      DeleteWhereNext(docs, i, keys, 8, rng.draw, old(rng.pos), pos, c);
      LogSnoc(old(p.calls), block, c);
      block := block + [c];
    }
  }

  method BenchDeleteKeyDocumentWhere(p: FakeProvider, report: Reporter, clock: Clock, rng: Rng, prefix: string, run: int, docs: seq<KVList>, keys: seq<string>)
    returns (ghost block: seq<Call>)
    requires Indexable(docs) && |keys| == 8
    modifies p, report, clock, rng
    ensures block == DeleteWhereBlock(docs, |docs|, keys, 8, rng.draw, old(rng.pos)) && p.calls == old(p.calls) + block
    ensures rng.pos == old(rng.pos) + 2 * |docs|
    ensures report.metrics == old(report.metrics) + [TimedPoint(prefix + SCENARIOS[11], run, clock.reading, old(clock.ticks))]
    ensures clock.ticks == old(clock.ticks) + 2
    ensures report.ok == old(report.ok) && report.fatalMsg == old(report.fatalMsg)
  {
    var st := report.StartTimer(clock);
    block := IssueDeleteKeyDocumentWhere(p, rng, docs, keys);
    report.DeltaMetric(prefix + SCENARIOS[11], run, st, clock);
  }

  method IssueDeleteKeyGlobDocumentUnique(p: FakeProvider, docs: seq<KVList>, keys: seq<string>) returns (ghost block: seq<Call>)
    requires Indexable(docs) && |keys| > 0 && |keys[0]| > 0
    modifies p
    ensures block == DeleteGlobUniqueBlock(docs, |docs|, keys[0]) && p.calls == old(p.calls) + block
  {
    block := [];
    for i := 0 to |docs|
      invariant p.calls == old(p.calls) + block
      invariant block == DeleteGlobUniqueBlock(docs, i, keys[0])
    {
      var glob, uuid := [keys[0][0]] + ".*", docs[i][0].1;
      p.DeleteKeyGlobDocumentUnique(glob, uuid);
      LogSnoc(old(p.calls), block, Call.DeleteKeyGlobDocumentUnique(glob, uuid));
      block := block + [Call.DeleteKeyGlobDocumentUnique(glob, uuid)];
    }
  }

  method BenchDeleteKeyGlobDocumentUnique(p: FakeProvider, report: Reporter, clock: Clock, prefix: string, run: int, docs: seq<KVList>, keys: seq<string>)
    returns (ghost block: seq<Call>)
    requires Indexable(docs) && |keys| > 0 && |keys[0]| > 0
    modifies p, report, clock
    ensures block == DeleteGlobUniqueBlock(docs, |docs|, keys[0]) && p.calls == old(p.calls) + block
    ensures report.metrics == old(report.metrics) + [TimedPoint(prefix + SCENARIOS[12], run, clock.reading, old(clock.ticks))]
    ensures clock.ticks == old(clock.ticks) + 2
    ensures report.ok == old(report.ok) && report.fatalMsg == old(report.fatalMsg)
  {
    var st := report.StartTimer(clock);
    block := IssueDeleteKeyGlobDocumentUnique(p, docs, keys);
    report.DeltaMetric(prefix + SCENARIOS[12], run, st, clock);
  }

  /** One pass of the DeleteKeyGlobDocumentWhere loop: keys starting like the pool's first, under a where clause on a random pool key. */
  method DeleteGlobWhereStep(p: FakeProvider, rng: Rng, doc: KVList, keys: seq<string>) returns (ghost c: Call)
    requires IndexableDoc(doc) && |keys| == 5 && |keys[0]| > 0
    modifies p, rng
    ensures c == DeleteGlobWhereCall(doc, keys, 5, rng.draw(old(rng.pos)), rng.draw(old(rng.pos) + 1))
    ensures p.calls == old(p.calls) + [c] && rng.pos == old(rng.pos) + 2
  {
    var a := rng.Intn(5);
    var b := rng.Intn(5);
    var where := [(keys[a], doc[b].1)];
    var glob := [keys[0][0]] + ".*";
    p.DeleteKeyGlobDocumentWhere(glob, where);
    c := Call.DeleteKeyGlobDocumentWhere(glob, where);
  }

  method IssueDeleteKeyGlobDocumentWhere(p: FakeProvider, rng: Rng, docs: seq<KVList>, keys: seq<string>) returns (ghost block: seq<Call>)
    requires Indexable(docs) && |keys| == 5 && |keys[0]| > 0
    modifies p, rng
    ensures block == DeleteGlobWhereBlock(docs, |docs|, keys, 5, rng.draw, old(rng.pos)) && p.calls == old(p.calls) + block
    ensures rng.pos == old(rng.pos) + 2 * |docs|
  {
    block := [];
    for i := 0 to |docs|
      invariant p.calls == old(p.calls) + block
      invariant rng.pos == old(rng.pos) + 2 * i
      invariant block == DeleteGlobWhereBlock(docs, i, keys, 5, rng.draw, old(rng.pos))
    {
      ghost var pos := rng.pos;
      var c := DeleteGlobWhereStep(p, rng, docs[i], keys);
      DeleteGlobWhereNext(docs, i, keys, 5, rng.draw, old(rng.pos), pos, c);
      LogSnoc(old(p.calls), block, c);
      block := block + [c];
    }
  }

  method BenchDeleteKeyGlobDocumentWhere(p: FakeProvider, report: Reporter, clock: Clock, rng: Rng, prefix: string, run: int, docs: seq<KVList>, keys: seq<string>)
    returns (ghost block: seq<Call>)
    requires Indexable(docs) && |keys| == 5 && |keys[0]| > 0
    modifies p, report, clock, rng
    ensures block == DeleteGlobWhereBlock(docs, |docs|, keys, 5, rng.draw, old(rng.pos)) && p.calls == old(p.calls) + block
    ensures rng.pos == old(rng.pos) + 2 * |docs|
    ensures report.metrics == old(report.metrics) + [TimedPoint(prefix + SCENARIOS[13], run, clock.reading, old(clock.ticks))]
    ensures clock.ticks == old(clock.ticks) + 2
    ensures report.ok == old(report.ok) && report.fatalMsg == old(report.fatalMsg)
  {
    var st := report.StartTimer(clock);
    block := IssueDeleteKeyGlobDocumentWhere(p, rng, docs, keys);
    report.DeltaMetric(prefix + SCENARIOS[13], run, st, clock);
  }
}
