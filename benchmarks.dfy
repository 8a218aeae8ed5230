/**
 * The benchmark driver: BENCH_BWQ_A, BENCH_MetadataQuery and the run loop of
 * benchmarks_entry. The provider is the logging provider of Queries, so each
 * contract states which calls were issued and in which order; the reporter's
 * points are stated through the functions of Workload.
 */
module Benchmarks {
  import opened Environment
  import opened Queries
  import opened Generator
  import opened Reporting
  import opened Workload
  import opened Scenarios

  /** BWUtil_GenVk: 32 bytes, each the low byte of one rand.Int draw. */
  method GenVk(rng: Rng) returns (vk: VK)
    modifies rng
    ensures |vk| == 32
    ensures forall i :: 0 <= i < 32 ==> vk[i] == rng.draw(old(rng.pos) + i) % INT63_BOUND % 256
    ensures rng.pos == old(rng.pos) + 32
  {
    var rv := new byte[32];
    for i := 0 to 32
      invariant rng.pos == old(rng.pos) + i
      invariant forall j :: 0 <= j < i ==> rv[j] == rng.draw(old(rng.pos) + j) % INT63_BOUND % 256
    {
      var x := rng.Int();
      rv[i] := x % 256;
    }
    vk := rv[..];
  }

  // ---------------------------------------------------------------- records

  /** The FACTOR records of BENCH_BWQ_A, each with an owner drawn by rand.Int63. */
  method BuildRecords(rng: Rng, run: int) returns (recs: array<BosswaveRecord>)
    modifies rng
    ensures fresh(recs) && RecordsFrom(recs[..], run, rng.draw, old(rng.pos))
    ensures rng.pos == old(rng.pos) + FACTOR
  {
    recs := new BosswaveRecord[FACTOR];
    for i := 0 to FACTOR
      invariant rng.pos == old(rng.pos) + i
      invariant forall j :: 0 <= j < i ==> recs[j] == BwqRecord(run, j, rng.draw(old(rng.pos) + j) % INT63_BOUND)
    {
      var owner := rng.Int63();
      recs[i] := BwqRecord(run, i, owner);
    }
  }

  /** The timed loop of BENCH_BWQ_A: the records inserted one by one, in index order. */
  method InsertRecords(p: FakeProvider, recs: array<BosswaveRecord>)
    modifies p
    ensures p.calls == old(p.calls) + InsertRecordCalls(recs[..])
  {
    for i := 0 to recs.Length
      invariant p.calls == old(p.calls) + InsertRecordCalls(recs[..i])
    {
      p.InsertRecord(recs[i]);
      assert recs[..i + 1][..i] == recs[..i];
      LogSnoc(old(p.calls), InsertRecordCalls(recs[..i]), Call.InsertRecord(recs[i]));
    }
    assert recs[..recs.Length] == recs[..];
  }

  /** BENCH_BWQ_A: builds FACTOR records, then times inserting them and reports one point. */
  method BenchRecordInsert(p: FakeProvider, report: Reporter, clock: Clock, rng: Rng, pfx: string, run: int)
    returns (ghost recs: seq<BosswaveRecord>)
    modifies p, report, clock, rng
    ensures RecordsFrom(recs, run, rng.draw, old(rng.pos))
    ensures p.calls == old(p.calls) + InsertRecordCalls(recs)
    ensures rng.pos == old(rng.pos) + FACTOR
    ensures report.metrics == old(report.metrics) + [TimedPoint(pfx + RECORD_SCENARIO, run, clock.reading, old(clock.ticks))]
    ensures clock.ticks == old(clock.ticks) + 2
    ensures report.ok == old(report.ok) && report.fatalMsg == old(report.fatalMsg)
  {
    var a := BuildRecords(rng, run);
    recs := a[..];
    var st := report.StartTimer(clock);
    InsertRecords(p, a);
    report.DeltaMetric(pfx + RECORD_SCENARIO, run, st, clock);
  }

  // ---------------------------------------------------------------- documents

  /** One document: the uuid pair, then one pair per top-level key with a value picked by rand.Intn(10). */
  method BuildDocument(u: Uuid, tlk: seq<string>, tlv: seq<string>, rng: Rng) returns (record: KVList)
    requires |tlk| == KEYS && |tlv| == KEYS
    modifies rng
    ensures record == Document(u, tlk, tlv, rng.draw, old(rng.pos))
    ensures rng.pos == old(rng.pos) + KEYS
  {
    record := [("uuid", u)];
    for j := 0 to KEYS
      invariant rng.pos == old(rng.pos) + j
      invariant record == [("uuid", u)] + seq(j, m requires 0 <= m < j => (tlk[m], tlv[rng.draw(old(rng.pos) + m) % KEYS]))
    {
      var x := rng.Intn(KEYS);
      record := record + [(tlk[j], tlv[x])];
    }
  }

  /** The FACTOR documents of one run, each with a fresh uuid. */
  method GenerateDocuments(tlk: seq<string>, tlv: seq<string>, rng: Rng, uuids: UuidSource) returns (docs: seq<KVList>)
    requires |tlk| == KEYS && |tlv| == KEYS
    modifies rng, uuids
    ensures DocumentsFrom(docs, tlk, tlv, uuids.next, old(uuids.issued), rng.draw, old(rng.pos))
    ensures rng.pos == old(rng.pos) + KEYS * FACTOR && uuids.issued == old(uuids.issued) + FACTOR
  {
    var recs := new KVList[FACTOR];
    for i := 0 to FACTOR
      invariant rng.pos == old(rng.pos) + KEYS * i && uuids.issued == old(uuids.issued) + i
      invariant forall j :: 0 <= j < i ==>
        recs[j] == Document(uuids.next(old(uuids.issued) + j), tlk, tlv, rng.draw, old(rng.pos) + KEYS * j)
      invariant forall j :: 0 <= j < i ==> WellFormed(recs[j], tlk, tlv)
    {
      var u := uuids.New();
      DocumentWellFormed(u, tlk, tlv, rng.draw, rng.pos);
      recs[i] := BuildDocument(u, tlk, tlv, rng);
    }
    docs := recs[..];
  }

  // ---------------------------------------------------------------- the fourteen scenarios, in four groups

  /** Scenarios 0-2, which take no random draw. */
  method FixedReads(p: FakeProvider, report: Reporter, clock: Clock, prefix: string, run: int, docs: seq<KVList>, ghost t0: nat)
    returns (ghost b0: seq<Call>, ghost b1: seq<Call>, ghost b2: seq<Call>)
    requires Indexable(docs)
    requires clock.ticks == t0
    modifies p, report, clock
    ensures b0 == InsertBlock(docs, |docs|) && b1 == UniqueBlock(docs, |docs|) && b2 == WhereOneBlock(docs, |docs|)
    ensures p.calls == old(p.calls) + b0 + b1 + b2
    ensures report.metrics == old(report.metrics) + [TimedPoint(prefix + SCENARIOS[0], run, clock.reading, t0)] + [TimedPoint(prefix + SCENARIOS[1], run, clock.reading, t0 + 2)] + [TimedPoint(prefix + SCENARIOS[2], run, clock.reading, t0 + 4)]
    ensures clock.ticks == t0 + 6
    ensures report.ok == old(report.ok) && report.fatalMsg == old(report.fatalMsg)
  {
    b0 := BenchInsertDocument(p, report, clock, prefix, run, docs);
    b1 := BenchGetDocumentUnique(p, report, clock, prefix, run, docs);
    b2 := BenchGetDocumentSetWhere1Doc(p, report, clock, prefix, run, docs);
  }

  /** Scenarios 3-6, each drawing its indices from the random stream. */
  method DrawnReads(p: FakeProvider, report: Reporter, clock: Clock, rng: Rng, prefix: string, run: int,
                    docs: seq<KVList>, tlk: seq<string>, ghost t0: nat)
    returns (ghost b3: seq<Call>, ghost b4: seq<Call>, ghost b5: seq<Call>, ghost b6: seq<Call>,
             ghost s1: nat, ghost s2: nat, ghost s3: nat)
    requires Indexable(docs) && |tlk| == KEYS
    requires clock.ticks == t0 + 6
    modifies p, report, clock, rng
    ensures b3 == WhereManyBlock(docs, |docs|, tlk, rng.draw, old(rng.pos)) && b4 == UniqueValuesBlock(docs, |docs|, rng.draw, s1)
    ensures b5 == ValueGlobBlock(docs, |docs|, rng.draw, s2) && b6 == KeyGlobBlock(docs, |docs|, rng.draw, s3)
    ensures p.calls == old(p.calls) + b3 + b4 + b5 + b6
    ensures s1 == old(rng.pos) + 2 * |docs| && s2 == s1 + |docs| && s3 == s2 + |docs|
    ensures rng.pos == old(rng.pos) + 5 * |docs|
    ensures report.metrics == old(report.metrics) + [TimedPoint(prefix + SCENARIOS[3], run, clock.reading, t0 + 6)] + [TimedPoint(prefix + SCENARIOS[4], run, clock.reading, t0 + 8)] + [TimedPoint(prefix + SCENARIOS[5], run, clock.reading, t0 + 10)] + [TimedPoint(prefix + SCENARIOS[6], run, clock.reading, t0 + 12)]
    ensures clock.ticks == t0 + 14
    ensures report.ok == old(report.ok) && report.fatalMsg == old(report.fatalMsg)
  {
    b3 := BenchGetDocumentSetWhereManyDoc(p, report, clock, rng, prefix, run, docs, tlk);
    s1 := rng.pos;
    b4 := BenchGetUniqueValues(p, report, clock, rng, prefix, run, docs);
    s2 := rng.pos;
    b5 := BenchGetDocumentSetValueGlob(p, report, clock, rng, prefix, run, docs);
    s3 := rng.pos;
    b6 := BenchGetKeyGlob(p, report, clock, rng, prefix, run, docs);
  }

  /**
   * The stream positions of scenarios 7-9, from stream position `start` on a
   * generator whose used set was `used`, up to `end`: each scenario's passes
   * start where the previous scenario's last pass ended, and each hands out
   * the strings the generator had not handed out before it.
   */
  ghost predicate WritesFrom(draw: nat -> nat, alphabet: string, used: set<string>,
                             unique: seq<(string, string)>, uniqueAt: seq<PassAt>,
                             where: seq<(string, string)>, whereAt: seq<PassAt>,
                             glob: seq<(string, string)>, globAt: seq<PassAt>, start: nat, end: nat)
    requires |alphabet| > 0
  {
    var w1 := PassStart(uniqueAt, 0, start);
    var w2 := PassStart(whereAt, 2, w1);
    && PairsRun(draw, alphabet, used, unique, uniqueAt, 0, 0, start)
    && PairsRun(draw, alphabet, used + Elements(Flatten(unique)), where, whereAt, 0, 2, w1)
    && PairsRun(draw, alphabet, used + Elements(Flatten(unique) + Flatten(where)), glob, globAt, 1, 0, w2)
    && end == PassStart(globAt, 0, w2)
  }

  /** Scenarios 7-9, each setting one fresh pair per document. */
  method Writes(p: FakeProvider, report: Reporter, clock: Clock, rng: Rng, sg: StringGenerator, prefix: string, run: int,
                docs: seq<KVList>, tlk: seq<string>, ghost t0: nat, ghost budget: nat)
    returns (ghost b7: seq<Call>, ghost b8: seq<Call>, ghost b9: seq<Call>,
             ghost unique: seq<(string, string)>, ghost uniqueAt: seq<PassAt>,
             ghost where: seq<(string, string)>, ghost whereAt: seq<PassAt>,
             ghost glob: seq<(string, string)>, ghost globAt: seq<PassAt>, ghost written: seq<string>)
    requires Indexable(docs) && |tlk| == KEYS
    requires |sg.alphabet| > 0 && Spread(rng.draw, sg.alphabet, STRING_LENGTH, budget) && |sg.used| + 6 * |docs| <= budget
    requires clock.ticks == t0 + 14
    modifies p, report, clock, rng, sg
    ensures |unique| == |where| == |whereAt| == |glob| == |globAt| == |docs|
    ensures WritesFrom(rng.draw, sg.alphabet, old(sg.used), unique, uniqueAt, where, whereAt, glob, globAt, old(rng.pos), rng.pos)
    ensures b7 == SetUniqueBlock(docs, unique) && b8 == SetWhereBlock(docs, tlk, where, rng.draw, whereAt)
    ensures b9 == SetValueGlobBlock(docs, glob, rng.draw, globAt)
    ensures p.calls == old(p.calls) + b7 + b8 + b9
    ensures written == Flatten(unique) + Flatten(where) + Flatten(glob) && sg.Handed(written, old(sg.used), sg.used, STRING_LENGTH)
    ensures report.metrics == old(report.metrics) + [TimedPoint(prefix + SCENARIOS[7], run, clock.reading, t0 + 14)] + [TimedPoint(prefix + SCENARIOS[8], run, clock.reading, t0 + 16)] + [TimedPoint(prefix + SCENARIOS[9], run, clock.reading, t0 + 18)]
    ensures clock.ticks == t0 + 20
    ensures report.ok == old(report.ok) && report.fatalMsg == old(report.fatalMsg)
  {
    ghost var u0 := sg.used;
    b7, unique, uniqueAt := BenchSetKVDocumentUnique(p, report, clock, rng, sg, prefix, run, docs, budget);
    ghost var u1, w1 := sg.used, rng.pos;
    b8, where, whereAt := BenchSetKVDocumentWhere(p, report, clock, rng, sg, prefix, run, docs, tlk, budget);
    sg.HandedChain(Flatten(unique), Flatten(where), u0, u1, sg.used, STRING_LENGTH);
    ghost var u2, w2 := sg.used, rng.pos;
    b9, glob, globAt := BenchSetKVDocumentValueGlob(p, report, clock, rng, sg, prefix, run, docs, budget);
    sg.HandedChain(Flatten(unique) + Flatten(where), Flatten(glob), u0, u2, sg.used, STRING_LENGTH);
    written := Flatten(unique) + Flatten(where) + Flatten(glob);
    ElementsAppend(Flatten(unique), Flatten(where));
  }

  /**
   * Scenarios 10-13. Between them the pool of top-level keys is re-sliced:
   * the first scenario removes keys 0-1, the pool then drops them, the
   * second removes keys 2-3 under a where clause on the eight remaining
   * keys, the pool drops those two as well, and the glob deletions use the
   * initials of key 4 and then of key 5.
   */
  method Deletes(p: FakeProvider, report: Reporter, clock: Clock, rng: Rng, prefix: string, run: int,
                 docs: seq<KVList>, tlk: seq<string>, ghost t0: nat)
    returns (ghost b10: seq<Call>, ghost b11: seq<Call>, ghost b12: seq<Call>, ghost b13: seq<Call>, ghost s13: nat)
    requires Indexable(docs) && |tlk| == KEYS && |tlk[4]| > 0 && |tlk[5]| > 0
    requires clock.ticks == t0 + 20
    modifies p, report, clock, rng
    ensures b10 == DeleteUniqueBlock(docs, |docs|, tlk[..2]) && b11 == DeleteWhereBlock(docs, |docs|, tlk[2..], 8, rng.draw, old(rng.pos))
    ensures b12 == DeleteGlobUniqueBlock(docs, |docs|, tlk[4]) && b13 == DeleteGlobWhereBlock(docs, |docs|, tlk[5..], 5, rng.draw, s13)
    ensures p.calls == old(p.calls) + b10 + b11 + b12 + b13
    ensures s13 == old(rng.pos) + 2 * |docs| && rng.pos == s13 + 2 * |docs|
    ensures report.metrics == old(report.metrics) + [TimedPoint(prefix + SCENARIOS[10], run, clock.reading, t0 + 20)] + [TimedPoint(prefix + SCENARIOS[11], run, clock.reading, t0 + 22)] + [TimedPoint(prefix + SCENARIOS[12], run, clock.reading, t0 + 24)] + [TimedPoint(prefix + SCENARIOS[13], run, clock.reading, t0 + 26)]
    ensures clock.ticks == t0 + 28
    ensures report.ok == old(report.ok) && report.fatalMsg == old(report.fatalMsg)
  {
    var keys := tlk;
    b10 := BenchDeleteKeyDocumentUnique(p, report, clock, prefix, run, docs, keys);
    keys := keys[2..];
    b11 := BenchDeleteKeyDocumentWhere(p, report, clock, rng, prefix, run, docs, keys);
    keys := keys[2..];
    assert keys[0] == tlk[4];
    b12 := BenchDeleteKeyGlobDocumentUnique(p, report, clock, prefix, run, docs, keys);
    keys := keys[1..];
    assert keys == tlk[5..];
    s13 := rng.pos;
    b13 := BenchDeleteKeyGlobDocumentWhere(p, report, clock, rng, prefix, run, docs, keys);
  }

  // ---------------------------------------------------------------- one run

  /**
   * The stream positions of the set-up of BENCH_MetadataQuery, from stream
   * position `start` up to `end`: the ten keys are what ten RandomString(10)
   * calls hand out on a fresh generator, the last stopping at ek[i], and the
   * ten values what ten more calls then hand out, stopping at ev[i].
   */
  ghost predicate PoolsFrom(draw: nat -> nat, tlk: seq<string>, tlv: seq<string>, ek: seq<nat>, ev: seq<nat>, start: nat, end: nat)
  {
    && StringsRun(draw, ALPHABET, {}, tlk, ek, STRING_LENGTH, start)
    && StringsRun(draw, ALPHABET, Elements(tlk), tlv, ev, STRING_LENGTH, RunEnd(ek, start))
    && end == RunEnd(ev, RunEnd(ek, start))
  }

  /** A fresh generator over the fixed alphabet, and the ten top-level keys and ten top-level values it hands out. */
  method GeneratePools(rng: Rng) returns (sg: StringGenerator, tlk: seq<string>, tlv: seq<string>, ghost ek: seq<nat>, ghost ev: seq<nat>)
    requires Spread(rng.draw, ALPHABET, STRING_LENGTH, STRINGS_PER_RUN)
    modifies rng
    ensures fresh(sg) && sg.alphabet == ALPHABET && sg.Handed(tlk + tlv, {}, sg.used, STRING_LENGTH) && Pools(tlk, tlv)
    ensures PoolsFrom(rng.draw, tlk, tlv, ek, ev, old(rng.pos), rng.pos)
  {
    sg := new StringGenerator(ALPHABET);
    SpreadMonotone(rng.draw, ALPHABET, STRING_LENGTH, STRINGS_PER_RUN, KEYS);
    tlk, ek := sg.GenerateNRandomStrings(KEYS, STRING_LENGTH, rng);
    ghost var u1 := sg.used;
    assert u1 == Elements(tlk);
    SpreadMonotone(rng.draw, ALPHABET, STRING_LENGTH, STRINGS_PER_RUN, |sg.used| + KEYS);
    tlv, ev := sg.GenerateNRandomStrings(KEYS, STRING_LENGTH, rng);
    sg.HandedChain(tlk, tlv, {}, u1, sg.used, STRING_LENGTH);
  }

  /**
   * The set-up of BENCH_MetadataQuery: the generator and the top-level pools,
   * then the FACTOR documents.
   */
  method PrepareDocuments(rng: Rng, uuids: UuidSource)
    returns (sg: StringGenerator, tlk: seq<string>, tlv: seq<string>, docs: seq<KVList>, ghost ek: seq<nat>, ghost ev: seq<nat>, ghost d0: nat)
    requires Spread(rng.draw, ALPHABET, STRING_LENGTH, STRINGS_PER_RUN)
    modifies rng, uuids
    ensures fresh(sg) && sg.alphabet == ALPHABET && sg.Handed(tlk + tlv, {}, sg.used, STRING_LENGTH)
    ensures PoolsFrom(rng.draw, tlk, tlv, ek, ev, old(rng.pos), d0)
    ensures Pools(tlk, tlv) && DocumentsFrom(docs, tlk, tlv, uuids.next, old(uuids.issued), rng.draw, d0) && Indexable(docs)
    ensures uuids.issued == old(uuids.issued) + FACTOR && rng.pos == d0 + KEYS * FACTOR
  {
    sg, tlk, tlv, ek, ev := GeneratePools(rng);
    d0 := rng.pos;
    docs := GenerateDocuments(tlk, tlv, rng, uuids);
    WellFormedIndexable(docs, tlk, tlv);
  }

  /** The fourteen document scenarios of one run, in order, each timed and reported once. */
  method RunScenarios(p: FakeProvider, report: Reporter, clock: Clock, rng: Rng, sg: StringGenerator, prefix: string, run: int,
                      docs: seq<KVList>, tlk: seq<string>, ghost prior: seq<string>)
    returns (ghost unique: seq<(string, string)>, ghost uniqueAt: seq<PassAt>,
             ghost where: seq<(string, string)>, ghost whereAt: seq<PassAt>,
             ghost glob: seq<(string, string)>, ghost globAt: seq<PassAt>,
             ghost written: seq<string>,
             ghost r1: nat, ghost s1: nat, ghost s2: nat, ghost s3: nat, ghost e0: nat, ghost s13: nat,
             ghost block: seq<Call>)
    requires Indexable(docs) && |docs| == FACTOR && |tlk| == KEYS && |tlk[4]| > 0 && |tlk[5]| > 0
    requires |sg.alphabet| > 0 && Spread(rng.draw, sg.alphabet, STRING_LENGTH, STRINGS_PER_RUN)
    requires sg.Handed(prior, {}, sg.used, STRING_LENGTH) && |sg.used| + 6 * FACTOR <= STRINGS_PER_RUN
    modifies p, report, clock, rng, sg
    ensures |unique| == |where| == |whereAt| == |glob| == |globAt| == FACTOR
    ensures written == Flatten(unique) + Flatten(where) + Flatten(glob) && sg.Handed(prior + written, {}, sg.used, STRING_LENGTH)
    ensures WritesFrom(rng.draw, sg.alphabet, Elements(prior), unique, uniqueAt, where, whereAt, glob, globAt, s3 + FACTOR, e0)
    ensures p.calls == old(p.calls) + block
    ensures block == InsertBlock(docs, |docs|) + UniqueBlock(docs, |docs|) + WhereOneBlock(docs, |docs|)
      + WhereManyBlock(docs, |docs|, tlk, rng.draw, r1)
      + UniqueValuesBlock(docs, |docs|, rng.draw, s1)
      + ValueGlobBlock(docs, |docs|, rng.draw, s2)
      + KeyGlobBlock(docs, |docs|, rng.draw, s3)
      + SetUniqueBlock(docs, unique)
      + SetWhereBlock(docs, tlk, where, rng.draw, whereAt)
      + SetValueGlobBlock(docs, glob, rng.draw, globAt)
      + DeleteUniqueBlock(docs, |docs|, tlk[..2])
      + DeleteWhereBlock(docs, |docs|, tlk[2..], 8, rng.draw, e0)
      + DeleteGlobUniqueBlock(docs, |docs|, tlk[4])
      + DeleteGlobWhereBlock(docs, |docs|, tlk[5..], 5, rng.draw, s13)
    ensures r1 == old(rng.pos) && s1 == r1 + 2 * FACTOR && s2 == s1 + FACTOR && s3 == s2 + FACTOR
    ensures s13 == e0 + 2 * FACTOR && rng.pos == s13 + 2 * FACTOR
    ensures report.metrics == Reported(old(report.metrics), prefix, run, clock.reading, old(clock.ticks), |SCENARIOS|)
    ensures clock.ticks == old(clock.ticks) + 2 * |SCENARIOS|
    ensures report.ok == old(report.ok) && report.fatalMsg == old(report.fatalMsg)
  {
    ghost var t0 := clock.ticks;
    r1 := rng.pos;
    ghost var b0, b1, b2 := FixedReads(p, report, clock, prefix, run, docs, t0);
    ghost var b3, b4, b5, b6;
    b3, b4, b5, b6, s1, s2, s3 := DrawnReads(p, report, clock, rng, prefix, run, docs, tlk, t0);
    ghost var b7, b8, b9;
    ghost var uw := sg.used;
    assert uw == Elements(prior);
    b7, b8, b9, unique, uniqueAt, where, whereAt, glob, globAt, written := Writes(p, report, clock, rng, sg, prefix, run, docs, tlk, t0, STRINGS_PER_RUN);
    sg.HandedChain(prior, written, {}, uw, sg.used, STRING_LENGTH);
    e0 := rng.pos;
    ghost var b10, b11, b12, b13;
    b10, b11, b12, b13, s13 := Deletes(p, report, clock, rng, prefix, run, docs, tlk, t0);
    LogAppendBlocks(old(p.calls), b0, b1, b2, b3, b4, b5, b6, b7, b8, b9, b10, b11, b12, b13);
    block := b0 + b1 + b2 + b3 + b4 + b5 + b6 + b7 + b8 + b9 + b10 + b11 + b12 + b13;
    ReportedAll(old(report.metrics), prefix, run, clock.reading, t0);
  }

  /**
   * BENCH_MetadataQuery: ten keys and ten values from a fresh generator,
   * FACTOR documents over them, then the fourteen scenarios in order, each
   * timed and reported once. Every string the generator hands out in the run
   * is distinct from every other one.
   */
  method BenchMetadataQuery(p: FakeProvider, report: Reporter, clock: Clock, rng: Rng, uuids: UuidSource, prefix: string, run: int)
    returns (tlk: seq<string>, tlv: seq<string>, docs: seq<KVList>, ghost ek: seq<nat>, ghost ev: seq<nat>, ghost d0: nat,
             ghost unique: seq<(string, string)>, ghost uniqueAt: seq<PassAt>,
             ghost where: seq<(string, string)>, ghost whereAt: seq<PassAt>,
             ghost glob: seq<(string, string)>, ghost globAt: seq<PassAt>, ghost written: seq<string>,
             ghost r1: nat, ghost s1: nat, ghost s2: nat, ghost s3: nat, ghost e0: nat, ghost s13: nat,
             ghost block: seq<Call>)
    requires Spread(rng.draw, ALPHABET, STRING_LENGTH, STRINGS_PER_RUN)
    modifies p, report, clock, rng, uuids
    ensures PoolsFrom(rng.draw, tlk, tlv, ek, ev, old(rng.pos), d0)
    ensures Pools(tlk, tlv) && DocumentsFrom(docs, tlk, tlv, uuids.next, old(uuids.issued), rng.draw, d0)
    ensures |unique| == |where| == |whereAt| == |glob| == |globAt| == FACTOR
    ensures WritesFrom(rng.draw, ALPHABET, Elements(tlk + tlv), unique, uniqueAt, where, whereAt, glob, globAt, s3 + FACTOR, e0)
    ensures written == Flatten(unique) + Flatten(where) + Flatten(glob) && NoDuplicates(tlk + tlv + written)
    ensures p.calls == old(p.calls) + block
    ensures block == InsertBlock(docs, |docs|) + UniqueBlock(docs, |docs|) + WhereOneBlock(docs, |docs|)
      + WhereManyBlock(docs, |docs|, tlk, rng.draw, r1)
      + UniqueValuesBlock(docs, |docs|, rng.draw, s1)
      + ValueGlobBlock(docs, |docs|, rng.draw, s2)
      + KeyGlobBlock(docs, |docs|, rng.draw, s3)
      + SetUniqueBlock(docs, unique)
      + SetWhereBlock(docs, tlk, where, rng.draw, whereAt)
      + SetValueGlobBlock(docs, glob, rng.draw, globAt)
      + DeleteUniqueBlock(docs, |docs|, tlk[..2])
      + DeleteWhereBlock(docs, |docs|, tlk[2..], 8, rng.draw, e0)
      + DeleteGlobUniqueBlock(docs, |docs|, tlk[4])
      + DeleteGlobWhereBlock(docs, |docs|, tlk[5..], 5, rng.draw, s13)
    ensures r1 == d0 + KEYS * FACTOR && s1 == r1 + 2 * FACTOR && s2 == s1 + FACTOR && s3 == s2 + FACTOR
    ensures s13 == e0 + 2 * FACTOR && rng.pos == s13 + 2 * FACTOR
    ensures report.metrics == Reported(old(report.metrics), prefix, run, clock.reading, old(clock.ticks), |SCENARIOS|)
    ensures clock.ticks == old(clock.ticks) + 2 * |SCENARIOS|
    ensures report.ok == old(report.ok) && report.fatalMsg == old(report.fatalMsg)
    ensures uuids.issued == old(uuids.issued) + FACTOR
  {
    var sg;
    sg, tlk, tlv, docs, ek, ev, d0 := PrepareDocuments(rng, uuids);
    unique, uniqueAt, where, whereAt, glob, globAt, written, r1, s1, s2, s3, e0, s13, block := RunScenarios(p, report, clock, rng, sg, prefix, run, docs, tlk, tlk + tlv);
  }

  /**
   * One iteration of the run loop of benchmarks_entry: a new provider is
   * initialised, then the record scenario and the fourteen document
   * scenarios run against it, reporting POINTS_PER_RUN points in order.
   */
  method BenchRun(report: Reporter, clock: Clock, rng: Rng, uuids: UuidSource, prefix: string, run: int)
    returns (p: FakeProvider, ghost recs: seq<BosswaveRecord>, ghost documentCalls: seq<Call>)
    requires Spread(rng.draw, ALPHABET, STRING_LENGTH, STRINGS_PER_RUN)
    modifies report, clock, rng, uuids
    ensures fresh(p) && p.calls == [Call.Initialize] + InsertRecordCalls(recs) + documentCalls
    ensures RecordsFrom(recs, run, rng.draw, old(rng.pos))
    ensures report.metrics == old(report.metrics) + RunPoints(prefix, run, clock.reading, old(clock.ticks))
    ensures clock.ticks == old(clock.ticks) + TICKS_PER_RUN
    ensures report.ok == old(report.ok) && report.fatalMsg == old(report.fatalMsg)
    ensures uuids.issued == old(uuids.issued) + FACTOR
  {
    p := new FakeProvider();
    p.Initialize();
    assert p.calls == [Call.Initialize];
    recs := BenchRecordInsert(p, report, clock, rng, prefix, run);
    ghost var first := [TimedPoint(prefix + RECORD_SCENARIO, run, clock.reading, old(clock.ticks))];
    ghost var t2 := clock.ticks;
    RunPointsSplit(old(report.metrics), prefix, run, clock.reading, old(clock.ticks), t2);
    var tlk, tlv, docs;
    ghost var ek, ev, d0, unique, uniqueAt, where, whereAt, glob, globAt, written, r1, s1, s2, s3, e0, s13;
    tlk, tlv, docs, ek, ev, d0, unique, uniqueAt, where, whereAt, glob, globAt, written, r1, s1, s2, s3, e0, s13, documentCalls := BenchMetadataQuery(p, report, clock, rng, uuids, prefix, run);
  }

  /**
   * benchmarks_entry: reads the clock for the seed, performs RUNS runs with
   * indices 0, 1, ... in increasing order, the record scenario before the
   * document scenarios in each, then writes the report out.
   */
  method BenchmarksEntry(report: Reporter, clock: Clock, rng: Rng, uuids: UuidSource)
    returns (written: ReportDoc, ghost runs: seq<seq<BPoint>>)
    requires Spread(rng.draw, ALPHABET, STRING_LENGTH, STRINGS_PER_RUN)
    modifies report, clock, rng, uuids
    ensures |runs| == RUNS && RunsFrom(runs, "mongo", clock.reading, old(clock.ticks) + 1)
    ensures report.metrics == old(report.metrics) + Concat(runs)
    ensures clock.ticks == old(clock.ticks) + 1 + TICKS_PER_RUN * RUNS
    ensures report.ok == old(report.ok) && report.fatalMsg == old(report.fatalMsg)
    ensures uuids.issued == old(uuids.issued) + FACTOR * RUNS
    ensures written == ReportDoc(report.ok, report.fatalMsg, report.metrics)
  {
    var sd := clock.Now();
    ghost var t1 := clock.ticks;
    runs := [];
    for run := 0 to RUNS
      invariant |runs| == run && RunsFrom(runs, "mongo", clock.reading, t1)
      invariant report.metrics == old(report.metrics) + Concat(runs)
      invariant clock.ticks == t1 + TICKS_PER_RUN * run
      invariant report.ok == old(report.ok) && report.fatalMsg == old(report.fatalMsg)
      invariant uuids.issued == old(uuids.issued) + FACTOR * run
    {
      ghost var tr := clock.ticks;
      var p, recs, documentCalls := BenchRun(report, clock, rng, uuids, "mongo", run);
      ghost var points := RunPoints("mongo", run, clock.reading, tr);
      RunsFromSnoc(runs, "mongo", clock.reading, t1, tr);
      ConcatLogSnoc(old(report.metrics), runs, points);
      runs := runs + [points];
    }
    written := report.WriteOut();
  }
}

