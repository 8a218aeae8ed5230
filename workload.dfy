/**
 * The workload the benchmark driver generates: record keys, synthetic
 * documents, and, for each document scenario, the calls it issues. Everything
 * here is a value; the driver that produces it step by step is in Benchmarks.
 */
module Workload {
  import opened Environment
  import opened Queries
  import opened Reporting

  /** Every benchmark size is relative to this constant. */
  const FACTOR := 1024

  /** benchmarks_entry performs FACTOR / 10 runs. */
  const RUNS := FACTOR / 10

  /** The alphabet of the document scenarios' string generator. */
  const ALPHABET := "ABCDEFGHIJKLMNOPQRSTUVWXYZabcdefghijklmnopqrstuvwxyz0123456789-_"

  /** Number of top-level keys and of top-level values; also the bound of the draws that pick one of them. */
  const KEYS := 10

  /** Length of every string the document scenarios generate. */
  const STRING_LENGTH := 10

  /**
   * Strings one document-scenario run takes from its generator: the keys and
   * values, then a fresh key and value per document in three scenarios.
   */
  const STRINGS_PER_RUN := 2 * KEYS + 6 * FACTOR

  /** The metric id suffixes of BENCH_MetadataQuery, in the order they are reported. */
  const SCENARIOS: seq<string> := [
    ".InsertDocument", ".GetDocumentUnique", ".GetDocumentSetWhere1Doc",
    ".GetDocumentSetWhereManyDoc", ".GetUniqueValues", ".GetDocumentSetValueGlob",
    ".GetKeyGlob", ".SetKVDocumentUnique", ".SetKVDocumentWhere",
    ".SetKVDocumentValueGlob", ".DeleteKeyDocumentUnique", ".DeleteKeyDocumentWhere",
    ".DeleteKeyGlobDocumentUnique", ".DeleteKeyGlobDocumentWhere"]

  /** The metric id suffix of BENCH_BWQ_A. */
  const RECORD_SCENARIO := ".A"

  // ---------------------------------------------------------------- integers as text

  function DigitChar(d: int): (c: char)
    requires 0 <= d < 10
    ensures '0' <= c <= '9' && c as int - '0' as int == d
  {
    ('0' as int + d) as char
  }

  /** The decimal digits of n, most significant first. */
  function Digits(n: nat): (s: string)
    ensures |s| > 0
    ensures forall i :: 0 <= i < |s| ==> '0' <= s[i] <= '9'
  {
    if n < 10 then [DigitChar(n)] else Digits(n / 10) + [DigitChar(n % 10)]
  }

  /** What fmt's %d verb prints for an integer. */
  function FormatInt(n: int): (s: string)
    ensures '/' !in s
  {
    if n < 0 then "-" + Digits(-n) else Digits(n)
  }

  /** The value of a string of decimal digits. */
  function DigitsValue(s: string): int
  {
    if s == [] then 0 else DigitsValue(s[..|s| - 1]) * 10 + (s[|s| - 1] as int - '0' as int)
  }

  /** Reading back an optionally signed decimal numeral. */
  function ParseInt(s: string): int
  {
    if |s| > 0 && s[0] == '-' then -DigitsValue(s[1..]) else DigitsValue(s)
  }

  lemma {:induction false} DigitsRoundTrip(n: nat)
    ensures DigitsValue(Digits(n)) == n
  {
    if n >= 10 {
      DigitsRoundTrip(n / 10);
      var s := Digits(n);
      assert s[..|s| - 1] == Digits(n / 10);
    }
  }

  /** Printing an integer with %d loses nothing. */
  lemma FormatIntRoundTrip(n: int)
    ensures ParseInt(FormatInt(n)) == n
  {
    if n < 0 {
      DigitsRoundTrip(-n);
      assert FormatInt(n)[1..] == Digits(-n);
    } else {
      DigitsRoundTrip(n);
    }
  }

  lemma FormatIntInjective(m: int, n: int)
    requires FormatInt(m) == FormatInt(n)
    ensures m == n
  {
    FormatIntRoundTrip(m);
    FormatIntRoundTrip(n);
  }

  // ---------------------------------------------------------------- keyed records

  /** The key of record i in run `run`. */
  function RecordKey(run: int, i: nat): string
  {
    "/foo/bar/" + FormatInt(run) + "/" + FormatInt(i % 100) + "/" + FormatInt(i % 10) + "/" + FormatInt(i)
  }

  /** Record i of BENCH_BWQ_A in run `run`; only the owner is random. */
  function BwqRecord(run: int, i: nat, owner: int): (r: BosswaveRecord)
    ensures r.key == RecordKey(run, i) && r.allocset == i % 100 && r.owner == owner
    ensures r.size == 0 && r.value == []
  {
    BosswaveRecord(RecordKey(run, i), i % 100, owner, 0, [])
  }

  /** A key segment after the last slash is determined by the key, and so is what precedes the slash. */
  lemma LastSegment(a: string, x: string, b: string, y: string)
    requires '/' !in x && '/' !in y
    requires a + "/" + x == b + "/" + y
    ensures x == y && a == b
  {
    var s := a + "/" + x;
    var s' := b + "/" + y;
    assert s[|a|] == '/' && s'[|b|] == '/';
    if |a| != |b| {
      assert false;
    }
    assert x == s[|s| - |x|..] && y == s'[|s'| - |y|..];
    assert a == s[..|a|] && b == s'[..|b|];
  }

  /** Record keys never repeat: the run and the record index are both part of the key. */
  lemma RecordKeyInjective(run: int, i: nat, run': int, j: nat)
    requires RecordKey(run, i) == RecordKey(run', j)
    ensures run == run' && i == j
  {
    var p := "/foo/bar/";
    var a2 := p + FormatInt(run) + "/" + FormatInt(i % 100);
    var b2 := p + FormatInt(run') + "/" + FormatInt(j % 100);
    LastSegment(a2 + "/" + FormatInt(i % 10), FormatInt(i), b2 + "/" + FormatInt(j % 10), FormatInt(j));
    LastSegment(a2, FormatInt(i % 10), b2, FormatInt(j % 10));
    LastSegment(p + FormatInt(run), FormatInt(i % 100), p + FormatInt(run'), FormatInt(j % 100));
    assert FormatInt(run) == (p + FormatInt(run))[|p|..];
    assert FormatInt(run') == (p + FormatInt(run'))[|p|..];
    FormatIntInjective(run, run');
    FormatIntInjective(i, j);
  }

  /** The FACTOR records of one run of BENCH_BWQ_A, the owners drawn from stream position start on. */
  ghost predicate RecordsFrom(recs: seq<BosswaveRecord>, run: int, draw: nat -> nat, start: nat)
  {
    |recs| == FACTOR && forall i :: 0 <= i < FACTOR ==> recs[i] == BwqRecord(run, i, draw(start + i) % INT63_BOUND)
  }

  /** The records of one run have pairwise distinct keys. */
  lemma RecordsFromDistinctKeys(recs: seq<BosswaveRecord>, run: int, draw: nat -> nat, start: nat)
    requires RecordsFrom(recs, run, draw, start)
    ensures forall i, j :: 0 <= i < j < |recs| ==> recs[i].key != recs[j].key
  {
    forall i, j | 0 <= i < j < |recs| ensures recs[i].key != recs[j].key {
      if recs[i].key == recs[j].key {
        RecordKeyInjective(run, i, run, j);
      }
    }
  }

  /** The InsertRecord calls for a list of records, in list order. */
  function InsertRecordCalls(recs: seq<BosswaveRecord>): (calls: seq<Call>)
    ensures |calls| == |recs|
    ensures forall i :: 0 <= i < |recs| ==> calls[i] == Call.InsertRecord(recs[i])
  {
    if recs == [] then [] else InsertRecordCalls(recs[..|recs| - 1]) + [Call.InsertRecord(recs[|recs| - 1])]
  }

  // ---------------------------------------------------------------- documents

  /**
   * The document built around a uuid: the pair ("uuid", uuid), then one pair per
   * top-level key, in pool order, whose value is the top-level value picked by
   * the draw at position start + j.
   */
  function Document(uuid: string, tlk: seq<string>, tlv: seq<string>, draw: nat -> nat, start: nat): KVList
    requires |tlv| == KEYS
  {
    [("uuid", uuid)] + seq(|tlk|, j requires 0 <= j < |tlk| => (tlk[j], tlv[draw(start + j) % KEYS]))
  }

  /** The shape every generated document has. */
  ghost predicate WellFormed(d: KVList, tlk: seq<string>, tlv: seq<string>)
  {
    && |d| == |tlk| + 1
    && d[0].0 == "uuid" && |d[0].1| == 36
    && forall j :: 1 <= j < |d| ==> d[j].0 == tlk[j - 1] && d[j].1 in tlv
  }

  /** The top-level keys and values: ten strings of ten characters each. */
  ghost predicate Pools(tlk: seq<string>, tlv: seq<string>)
  {
    && |tlk| == KEYS && |tlv| == KEYS
    && (forall j :: 0 <= j < KEYS ==> |tlk[j]| == STRING_LENGTH)
    && (forall j :: 0 <= j < KEYS ==> |tlv[j]| == STRING_LENGTH)
  }

  /** Every index the scenarios take into a document lands on a pair with a non-empty key and value. */
  ghost predicate Indexable(docs: seq<KVList>)
  {
    forall i :: 0 <= i < |docs| ==> IndexableDoc(docs[i])
  }

  ghost predicate IndexableDoc(d: KVList)
  {
    |d| == KEYS + 1 && forall k :: 0 <= k <= KEYS ==> |d[k].0| > 0 && |d[k].1| > 0
  }

  lemma DocumentWellFormed(uuid: string, tlk: seq<string>, tlv: seq<string>, draw: nat -> nat, start: nat)
    requires |tlv| == KEYS && |uuid| == 36
    ensures WellFormed(Document(uuid, tlk, tlv, draw, start), tlk, tlv)
  {
    var d := Document(uuid, tlk, tlv, draw, start);
    forall j | 1 <= j < |d| ensures d[j].0 == tlk[j - 1] && d[j].1 in tlv {
      assert d[j] == (tlk[j - 1], tlv[draw(start + j - 1) % KEYS]);
    }
  }

  /**
   * The FACTOR documents of one run: document i carries the i-th uuid issued
   * from n0 on, and its values come from the KEYS draws starting at stream
   * position d0 + KEYS * i.
   */
  ghost predicate DocumentsFrom(docs: seq<KVList>, tlk: seq<string>, tlv: seq<string>, next: nat -> Uuid, n0: nat, draw: nat -> nat, d0: nat)
    requires |tlv| == KEYS
  {
    && |docs| == FACTOR
    && (forall i :: 0 <= i < FACTOR ==> docs[i] == Document(next(n0 + i), tlk, tlv, draw, d0 + KEYS * i))
    && (forall i :: 0 <= i < FACTOR ==> WellFormed(docs[i], tlk, tlv))
  }

  /** Documents of the generated shape keep every random index of the scenarios in bounds. */
  lemma WellFormedIndexable(docs: seq<KVList>, tlk: seq<string>, tlv: seq<string>)
    requires Pools(tlk, tlv)
    requires forall i :: 0 <= i < |docs| ==> WellFormed(docs[i], tlk, tlv)
    ensures Indexable(docs)
  {
    forall i | 0 <= i < |docs| ensures IndexableDoc(docs[i]) {
      forall k | 0 <= k <= KEYS ensures |docs[i][k].0| > 0 && |docs[i][k].1| > 0 {
        assert WellFormed(docs[i], tlk, tlv);
        if k > 0 {
          assert docs[i][k].0 == tlk[k - 1];
          var v := docs[i][k].1;
          assert v in tlv;
          var m :| 0 <= m < KEYS && tlv[m] == v;
        }
      }
    }
  }

  // ---------------------------------------------------------------- the document scenarios' calls

  /*
   * Each scenario's calls are given by a function of the documents and of the
   * random draws it consumed: XBlock(docs, n, ...) is the sequence of calls
   * the scenario makes for the first n documents, one call per document.
   */

  /** InsertDocument: each document inserted on its own. */
  function InsertBlock(docs: seq<KVList>, n: nat): seq<Call>
    requires n <= |docs|
  {
    if n == 0 then [] else InsertBlock(docs, n - 1) + [Call.InsertDocument([docs[n - 1]])]
  }

  /** GetDocumentUnique: each document fetched by its uuid. */
  function UniqueBlock(docs: seq<KVList>, n: nat): seq<Call>
    requires Indexable(docs) && n <= |docs|
  {
    if n == 0 then [] else UniqueBlock(docs, n - 1) + [Call.GetDocumentUnique(docs[n - 1][0].1)]
  }

  /** GetDocumentSetWhere1Doc: each document used as its own where clause. */
  function WhereOneBlock(docs: seq<KVList>, n: nat): seq<Call>
    requires n <= |docs|
  {
    if n == 0 then [] else WhereOneBlock(docs, n - 1) + [Call.GetDocumentSetWhere(docs[n - 1])]
  }

  /** A where clause of one pair: a pool key picked by draw `a`, a document value picked by draw `b`. */
  function RandomWhere(pool: seq<string>, doc: KVList, bound: nat, a: nat, b: nat): KVList
    requires 0 < bound <= |pool| && bound <= |doc|
  {
    [(pool[a % bound], doc[b % bound].1)]
  }

  /** GetDocumentSetWhereManyDoc's call for one document, from its two draws. */
  function WhereManyCall(doc: KVList, tlk: seq<string>, a: nat, b: nat): Call
    requires IndexableDoc(doc) && |tlk| == KEYS
  {
    Call.GetDocumentSetWhere(RandomWhere(tlk, doc, KEYS, a, b))
  }

  /** GetDocumentSetWhereManyDoc: two draws per document, the key's first. */
  function WhereManyBlock(docs: seq<KVList>, n: nat, tlk: seq<string>, draw: nat -> nat, start: nat): seq<Call>
    requires Indexable(docs) && n <= |docs| && |tlk| == KEYS
  {
    if n == 0 then []
    else WhereManyBlock(docs, n - 1, tlk, draw, start) + [WhereManyCall(docs[n - 1], tlk, draw(start + 2 * (n - 1)), draw(start + 2 * (n - 1) + 1))]
  }

  /** One more call extends the block; a step lemma that keeps the issuing loop cheap to verify. */
  lemma WhereManyNext(docs: seq<KVList>, n: nat, tlk: seq<string>, draw: nat -> nat, start: nat, pos: nat, c: Call)
    requires Indexable(docs) && n < |docs| && |tlk| == KEYS && pos == start + 2 * n
    requires c == WhereManyCall(docs[n], tlk, draw(pos), draw(pos + 1))
    ensures WhereManyBlock(docs, n + 1, tlk, draw, start) == WhereManyBlock(docs, n, tlk, draw, start) + [c]
  {
  }

  /** GetUniqueValues' call for one document: the key of the pair the draw picks. */
  function UniqueValuesCall(doc: KVList, a: nat): Call
    requires IndexableDoc(doc)
  {
    Call.GetUniqueValues(doc[a % KEYS].0)
  }

  /** GetUniqueValues: one draw per document. */
  function UniqueValuesBlock(docs: seq<KVList>, n: nat, draw: nat -> nat, start: nat): seq<Call>
    requires Indexable(docs) && n <= |docs|
  {
    if n == 0 then [] else UniqueValuesBlock(docs, n - 1, draw, start) + [UniqueValuesCall(docs[n - 1], draw(start + n - 1))]
  }

  /** One more call extends the block; a step lemma that keeps the issuing loop cheap to verify. */
  lemma UniqueValuesNext(docs: seq<KVList>, n: nat, draw: nat -> nat, start: nat, pos: nat, c: Call)
    requires Indexable(docs) && n < |docs| && pos == start + n
    requires c == UniqueValuesCall(docs[n], draw(pos))
    ensures UniqueValuesBlock(docs, n + 1, draw, start) == UniqueValuesBlock(docs, n, draw, start) + [c]
  {
  }

  /** A glob matching strings that start with the first character of s. */
  function PrefixGlob(s: string): (glob: string)
    requires |s| > 0
    ensures |glob| == 3 && glob[0] == s[0]
  {
    [s[0]] + ".*"
  }

  /** GetDocumentSetValueGlob's call for one document: the picked pair's key, and a glob on its value. */
  function ValueGlobCall(doc: KVList, a: nat): Call
    requires IndexableDoc(doc)
  {
    Call.GetDocumentSetValueGlob(doc[a % KEYS].0, PrefixGlob(doc[a % KEYS].1))
  }

  /** GetDocumentSetValueGlob: one draw per document. */
  function ValueGlobBlock(docs: seq<KVList>, n: nat, draw: nat -> nat, start: nat): seq<Call>
    requires Indexable(docs) && n <= |docs|
  {
    if n == 0 then [] else ValueGlobBlock(docs, n - 1, draw, start) + [ValueGlobCall(docs[n - 1], draw(start + n - 1))]
  }

  /** One more call extends the block; a step lemma that keeps the issuing loop cheap to verify. */
  lemma ValueGlobNext(docs: seq<KVList>, n: nat, draw: nat -> nat, start: nat, pos: nat, c: Call)
    requires Indexable(docs) && n < |docs| && pos == start + n
    requires c == ValueGlobCall(docs[n], draw(pos))
    ensures ValueGlobBlock(docs, n + 1, draw, start) == ValueGlobBlock(docs, n, draw, start) + [c]
  {
  }

  /** GetKeyGlob's call for one document: a glob on the picked pair's key. */
  function KeyGlobCall(doc: KVList, a: nat): Call
    requires IndexableDoc(doc)
  {
    Call.GetKeyGlob(PrefixGlob(doc[a % KEYS].0))
  }

  /** GetKeyGlob: one draw per document. */
  function KeyGlobBlock(docs: seq<KVList>, n: nat, draw: nat -> nat, start: nat): seq<Call>
    requires Indexable(docs) && n <= |docs|
  {
    if n == 0 then [] else KeyGlobBlock(docs, n - 1, draw, start) + [KeyGlobCall(docs[n - 1], draw(start + n - 1))]
  }

  /** One more call extends the block; a step lemma that keeps the issuing loop cheap to verify. */
  lemma KeyGlobNext(docs: seq<KVList>, n: nat, draw: nat -> nat, start: nat, pos: nat, c: Call)
    requires Indexable(docs) && n < |docs| && pos == start + n
    requires c == KeyGlobCall(docs[n], draw(pos))
    ensures KeyGlobBlock(docs, n + 1, draw, start) == KeyGlobBlock(docs, n, draw, start) + [c]
  {
  }

  /** The strings of a list of pairs, each pair's key before its value. */
  function Flatten(pairs: seq<(string, string)>): (ss: seq<string>)
    ensures |ss| == 2 * |pairs|
  {
    if pairs == [] then [] else Flatten(pairs[..|pairs| - 1]) + [pairs[|pairs| - 1].0, pairs[|pairs| - 1].1]
  }

  /** SetKVDocumentUnique: document j's fresh pair, pairs[j], set by its uuid. */
  function SetUniqueBlock(docs: seq<KVList>, pairs: seq<(string, string)>): seq<Call>
    requires Indexable(docs) && |pairs| <= |docs|
  {
    if pairs == [] then []
    else SetUniqueBlock(docs, pairs[..|pairs| - 1]) + [Call.SetKVDocumentUnique([pairs[|pairs| - 1]], docs[|pairs| - 1][0].1)]
  }

  /** One more call extends the block; a step lemma that keeps the issuing loop cheap to verify. */
  lemma SetUniqueNext(docs: seq<KVList>, pairs: seq<(string, string)>, k: string, v: string, c: Call)
    requires Indexable(docs) && |pairs| < |docs|
    requires c == Call.SetKVDocumentUnique([(k, v)], docs[|pairs|][0].1)
    ensures SetUniqueBlock(docs, pairs + [(k, v)]) == SetUniqueBlock(docs, pairs) + [c]
  {
    assert (pairs + [(k, v)])[..|pairs|] == pairs;
  }

  /** SetKVDocumentWhere's call for one document: the fresh pair, under a random where clause over the whole key pool. */
  function SetWhereCall(doc: KVList, kv: KVList, tlk: seq<string>, a: nat, b: nat): Call
    requires IndexableDoc(doc) && |tlk| == KEYS
  {
    Call.SetKVDocumentWhere(kv, RandomWhere(tlk, doc, KEYS, a, b))
  }

  /**
   * The stream positions of one pass of a scenario that sets a fresh pair:
   * where the pass starts, where the fresh key's retry loop stops, and where
   * the fresh value's retry loop stops.
   */
  type PassAt = (nat, nat, nat)

  /**
   * SetKVDocumentWhere: document j's fresh pair is pairs[j], and its where
   * clause comes from the two draws that follow the pair's retry loops, at
   * stream positions at[j].2 and at[j].2 + 1.
   */
  function SetWhereBlock(docs: seq<KVList>, tlk: seq<string>, pairs: seq<(string, string)>, draw: nat -> nat, at: seq<PassAt>): seq<Call>
    requires Indexable(docs) && |tlk| == KEYS && |at| <= |docs| && |pairs| == |at|
  {
    seq(|at|, j requires 0 <= j < |at| => SetWhereCall(docs[j], [pairs[j]], tlk, draw(at[j].2), draw(at[j].2 + 1)))
  }

  /** One more call extends the block; a step lemma that keeps the issuing loop cheap to verify. */
  lemma SetWhereNext(docs: seq<KVList>, tlk: seq<string>, pairs: seq<(string, string)>, draw: nat -> nat, at: seq<PassAt>, k: string, v: string, a: PassAt, c: Call)
    requires Indexable(docs) && |tlk| == KEYS && |at| < |docs| && |pairs| == |at|
    requires c == SetWhereCall(docs[|at|], [(k, v)], tlk, draw(a.2), draw(a.2 + 1))
    ensures SetWhereBlock(docs, tlk, pairs + [(k, v)], draw, at + [a]) == SetWhereBlock(docs, tlk, pairs, draw, at) + [c]
  {
  }

  /** SetKVDocumentValueGlob's call for one document: the fresh pair, the picked pair's key and a glob on its value. */
  function SetValueGlobCall(doc: KVList, kv: KVList, a: nat): Call
    requires IndexableDoc(doc)
  {
    Call.SetKVDocumentValueGlob(kv, doc[a % KEYS].0, PrefixGlob(doc[a % KEYS].1))
  }

  /**
   * SetKVDocumentValueGlob: document j's existing pair is picked by the draw
   * at the start of its pass, stream position at[j].0, taken before its fresh
   * pair, pairs[j], is generated.
   */
  function SetValueGlobBlock(docs: seq<KVList>, pairs: seq<(string, string)>, draw: nat -> nat, at: seq<PassAt>): seq<Call>
    requires Indexable(docs) && |at| <= |docs| && |pairs| == |at|
  {
    if at == [] then []
    else SetValueGlobBlock(docs, pairs[..|at| - 1], draw, at[..|at| - 1]) + [SetValueGlobCall(docs[|at| - 1], [pairs[|at| - 1]], draw(at[|at| - 1].0))]
  }

  /** One more call extends the block; a step lemma that keeps the issuing loop cheap to verify. */
  lemma SetValueGlobNext(docs: seq<KVList>, pairs: seq<(string, string)>, draw: nat -> nat, at: seq<PassAt>, k: string, v: string, a: PassAt, c: Call)
    requires Indexable(docs) && |at| < |docs| && |pairs| == |at|
    requires c == SetValueGlobCall(docs[|at|], [(k, v)], draw(a.0))
    ensures SetValueGlobBlock(docs, pairs + [(k, v)], draw, at + [a]) == SetValueGlobBlock(docs, pairs, draw, at) + [c]
  {
    assert (pairs + [(k, v)])[..|at|] == pairs;
    assert (at + [a])[..|at|] == at;
  }

  /** DeleteKeyDocumentUnique: the same keys removed from each document, addressed by uuid. */
  function DeleteUniqueBlock(docs: seq<KVList>, n: nat, keys: seq<string>): seq<Call>
    requires Indexable(docs) && n <= |docs|
  {
    if n == 0 then [] else DeleteUniqueBlock(docs, n - 1, keys) + [Call.DeleteKeyDocumentUnique(keys, docs[n - 1][0].1)]
  }

  /** DeleteKeyDocumentWhere's call for one document: the pool's first two keys, under a random where clause. */
  function DeleteWhereCall(doc: KVList, pool: seq<string>, bound: nat, a: nat, b: nat): Call
    requires IndexableDoc(doc) && 2 <= bound <= |pool| && bound <= KEYS
  {
    Call.DeleteKeyDocumentWhere(pool[..2], RandomWhere(pool, doc, bound, a, b))
  }

  /** DeleteKeyDocumentWhere: two draws per document, the key's first. */
  function DeleteWhereBlock(docs: seq<KVList>, n: nat, pool: seq<string>, bound: nat, draw: nat -> nat, start: nat): seq<Call>
    requires Indexable(docs) && n <= |docs| && 2 <= bound <= |pool| && bound <= KEYS
  {
    if n == 0 then []
    else DeleteWhereBlock(docs, n - 1, pool, bound, draw, start) + [DeleteWhereCall(docs[n - 1], pool, bound, draw(start + 2 * (n - 1)), draw(start + 2 * (n - 1) + 1))]
  }

  /** One more call extends the block; a step lemma that keeps the issuing loop cheap to verify. */
  lemma DeleteWhereNext(docs: seq<KVList>, n: nat, pool: seq<string>, bound: nat, draw: nat -> nat, start: nat, pos: nat, c: Call)
    requires Indexable(docs) && n < |docs| && 2 <= bound <= |pool| && bound <= KEYS && pos == start + 2 * n
    requires c == DeleteWhereCall(docs[n], pool, bound, draw(pos), draw(pos + 1))
    ensures DeleteWhereBlock(docs, n + 1, pool, bound, draw, start) == DeleteWhereBlock(docs, n, pool, bound, draw, start) + [c]
  {
  }

  /** DeleteKeyGlobDocumentUnique: keys starting like the pool's first key removed by uuid. */
  function DeleteGlobUniqueBlock(docs: seq<KVList>, n: nat, key: string): seq<Call>
    requires Indexable(docs) && n <= |docs| && |key| > 0
  {
    if n == 0 then [] else DeleteGlobUniqueBlock(docs, n - 1, key) + [Call.DeleteKeyGlobDocumentUnique(PrefixGlob(key), docs[n - 1][0].1)]
  }

  /** DeleteKeyGlobDocumentWhere's call for one document: keys starting like the pool's first, under a random where clause. */
  function DeleteGlobWhereCall(doc: KVList, pool: seq<string>, bound: nat, a: nat, b: nat): Call
    requires IndexableDoc(doc) && 0 < bound <= |pool| && bound <= KEYS && |pool[0]| > 0
  {
    Call.DeleteKeyGlobDocumentWhere(PrefixGlob(pool[0]), RandomWhere(pool, doc, bound, a, b))
  }

  /** DeleteKeyGlobDocumentWhere: two draws per document, the key's first. */
  function DeleteGlobWhereBlock(docs: seq<KVList>, n: nat, pool: seq<string>, bound: nat, draw: nat -> nat, start: nat): seq<Call>
    requires Indexable(docs) && n <= |docs| && 0 < bound <= |pool| && bound <= KEYS && |pool[0]| > 0
  {
    if n == 0 then []
    else DeleteGlobWhereBlock(docs, n - 1, pool, bound, draw, start) + [DeleteGlobWhereCall(docs[n - 1], pool, bound, draw(start + 2 * (n - 1)), draw(start + 2 * (n - 1) + 1))]
  }

  /** One more call extends the block; a step lemma that keeps the issuing loop cheap to verify. */
  lemma DeleteGlobWhereNext(docs: seq<KVList>, n: nat, pool: seq<string>, bound: nat, draw: nat -> nat, start: nat, pos: nat, c: Call)
    requires Indexable(docs) && n < |docs| && 0 < bound <= |pool| && bound <= KEYS && |pool[0]| > 0 && pos == start + 2 * n
    requires c == DeleteGlobWhereCall(docs[n], pool, bound, draw(pos), draw(pos + 1))
    ensures DeleteGlobWhereBlock(docs, n + 1, pool, bound, draw, start) == DeleteGlobWhereBlock(docs, n, pool, bound, draw, start) + [c]
  {
  }

  /**
   * The delete scenarios work on disjoint parts of the top-level key pool:
   * keys 0-1 are removed by uuid, then the pool drops them and keys 2-3 are
   * removed by where clause, then key 4's initial and then key 5's initial
   * drive the glob deletions.
   */
  lemma DeletePoolsDisjoint(tlk: seq<string>)
    requires |tlk| == KEYS
    requires forall i, j :: 0 <= i < j < |tlk| ==> tlk[i] != tlk[j]
    ensures tlk[2..][..2] == tlk[2..4] && tlk[2..][2..][0] == tlk[4] && tlk[2..][2..][1..][0] == tlk[5]
    ensures forall k :: k in tlk[..2] ==> k !in tlk[2..4] && k != tlk[4] && k != tlk[5]
    ensures forall k :: k in tlk[2..4] ==> k != tlk[4] && k != tlk[5]
    ensures tlk[4] != tlk[5]
  {
  }

  // ---------------------------------------------------------------- metrics

  /** The point a scenario reports when its timer read the clock at tick t0 and again at t0 + 1. */
  function TimedPoint(id: string, run: int, reading: nat -> Instant, t0: nat): BPoint
  {
    BPoint(id, run, Elapsed(reading(t0), reading(t0 + 1)))
  }

  /**
   * The reporter's points once document scenarios 0 .. n - 1 of one run have
   * reported on top of `before`, scenario k timed by the clock readings at
   * ticks t0 + 2k and t0 + 2k + 1.
   */
  function Reported(before: seq<BPoint>, prefix: string, run: int, reading: nat -> Instant, t0: nat, n: nat): seq<BPoint>
    requires n <= |SCENARIOS|
  {
    if n == 0 then before
    else Reported(before, prefix, run, reading, t0, n - 1) + [TimedPoint(prefix + SCENARIOS[n - 1], run, reading, t0 + 2 * (n - 1))]
  }

  /** One more scenario appends its point. */
  lemma ReportedSnoc(before: seq<BPoint>, prefix: string, run: int, reading: nat -> Instant, t0: nat, n: nat)
    requires n < |SCENARIOS|
    ensures Reported(before, prefix, run, reading, t0, n + 1)
         == Reported(before, prefix, run, reading, t0, n) + [TimedPoint(prefix + SCENARIOS[n], run, reading, t0 + 2 * n)]
  {
  }

  /**
   * Under a monotonic clock every point the document scenarios report holds
   * a non-negative elapsed time, and each scenario adds exactly one point.
   */
  lemma {:induction false} ReportedNonNegative(before: seq<BPoint>, prefix: string, run: int, reading: nat -> Instant, t0: nat, n: nat)
    requires n <= |SCENARIOS| && Monotone(reading)
    ensures |Reported(before, prefix, run, reading, t0, n)| == |before| + n
    ensures forall i :: |before| <= i < |before| + n ==> Reported(before, prefix, run, reading, t0, n)[i].value >= 0.0
  {
    if n > 0 {
      ReportedNonNegative(before, prefix, run, reading, t0, n - 1);
      assert reading(t0 + 2 * (n - 1)) <= reading(t0 + 2 * (n - 1) + 1);
    }
  }

  /** All fourteen document scenarios, one point each, in their fixed order. */
  lemma ReportedAll(before: seq<BPoint>, prefix: string, run: int, reading: nat -> Instant, t0: nat)
    ensures Reported(before, prefix, run, reading, t0, |SCENARIOS|) == before
      + [TimedPoint(prefix + SCENARIOS[0], run, reading, t0)] + [TimedPoint(prefix + SCENARIOS[1], run, reading, t0 + 2)] + [TimedPoint(prefix + SCENARIOS[2], run, reading, t0 + 4)] + [TimedPoint(prefix + SCENARIOS[3], run, reading, t0 + 6)] + [TimedPoint(prefix + SCENARIOS[4], run, reading, t0 + 8)] + [TimedPoint(prefix + SCENARIOS[5], run, reading, t0 + 10)] + [TimedPoint(prefix + SCENARIOS[6], run, reading, t0 + 12)]
      + [TimedPoint(prefix + SCENARIOS[7], run, reading, t0 + 14)] + [TimedPoint(prefix + SCENARIOS[8], run, reading, t0 + 16)] + [TimedPoint(prefix + SCENARIOS[9], run, reading, t0 + 18)] + [TimedPoint(prefix + SCENARIOS[10], run, reading, t0 + 20)] + [TimedPoint(prefix + SCENARIOS[11], run, reading, t0 + 22)] + [TimedPoint(prefix + SCENARIOS[12], run, reading, t0 + 24)] + [TimedPoint(prefix + SCENARIOS[13], run, reading, t0 + 26)]
  {
    ReportedSnoc(before, prefix, run, reading, t0, 0);
    ReportedSnoc(before, prefix, run, reading, t0, 1);
    ReportedSnoc(before, prefix, run, reading, t0, 2);
    ReportedSnoc(before, prefix, run, reading, t0, 3);
    ReportedSnoc(before, prefix, run, reading, t0, 4);
    ReportedSnoc(before, prefix, run, reading, t0, 5);
    ReportedSnoc(before, prefix, run, reading, t0, 6);
    ReportedSnoc(before, prefix, run, reading, t0, 7);
    ReportedSnoc(before, prefix, run, reading, t0, 8);
    ReportedSnoc(before, prefix, run, reading, t0, 9);
    ReportedSnoc(before, prefix, run, reading, t0, 10);
    ReportedSnoc(before, prefix, run, reading, t0, 11);
    ReportedSnoc(before, prefix, run, reading, t0, 12);
    ReportedSnoc(before, prefix, run, reading, t0, 13);
  }

  /**
   * The document scenarios report in their fixed order, each once, each for
   * the given run, and the points reported before them are kept.
   */
  lemma {:induction false} ReportedAt(before: seq<BPoint>, prefix: string, run: int, reading: nat -> Instant, t0: nat, n: nat)
    requires n <= |SCENARIOS|
    ensures |Reported(before, prefix, run, reading, t0, n)| == |before| + n
    ensures Reported(before, prefix, run, reading, t0, n)[..|before|] == before
    ensures forall k :: 0 <= k < n ==>
      Reported(before, prefix, run, reading, t0, n)[|before| + k] == TimedPoint(prefix + SCENARIOS[k], run, reading, t0 + 2 * k)
  {
    if n > 0 {
      ReportedAt(before, prefix, run, reading, t0, n - 1);
      var r := Reported(before, prefix, run, reading, t0, n);
      assert r[..|before|] == Reported(before, prefix, run, reading, t0, n - 1)[..|before|];
    }
  }

  /** What was reported before the scenarios can be split off in front. */
  lemma {:induction false} ReportedShift(front: seq<BPoint>, before: seq<BPoint>, prefix: string, run: int, reading: nat -> Instant, t0: nat, n: nat)
    requires n <= |SCENARIOS|
    ensures Reported(front + before, prefix, run, reading, t0, n) == front + Reported(before, prefix, run, reading, t0, n)
  {
    if n > 0 {
      ReportedShift(front, before, prefix, run, reading, t0, n - 1);
      var p := TimedPoint(prefix + SCENARIOS[n - 1], run, reading, t0 + 2 * (n - 1));
      assert (front + Reported(before, prefix, run, reading, t0, n - 1)) + [p] == front + (Reported(before, prefix, run, reading, t0, n - 1) + [p]);
    }
  }

  /** The 15 points of one run: the record scenario's, then the document scenarios'. */
  function RunPoints(prefix: string, run: int, reading: nat -> Instant, t0: nat): seq<BPoint>
  {
    Reported([TimedPoint(prefix + RECORD_SCENARIO, run, reading, t0)], prefix, run, reading, t0 + 2, |SCENARIOS|)
  }

  /** A run's points follow the record scenario's point, the document scenarios timed from tick t0 + 2 on. */
  lemma RunPointsSplit(before: seq<BPoint>, prefix: string, run: int, reading: nat -> Instant, t0: nat, t2: nat)
    requires t2 == t0 + 2
    ensures before + RunPoints(prefix, run, reading, t0)
         == Reported(before + [TimedPoint(prefix + RECORD_SCENARIO, run, reading, t0)], prefix, run, reading, t2, |SCENARIOS|)
  {
    ReportedShift(before, [TimedPoint(prefix + RECORD_SCENARIO, run, reading, t0)], prefix, run, reading, t2, |SCENARIOS|);
  }

  /** Clock readings one run takes: two per scenario. */
  const TICKS_PER_RUN := 30

  /** Points one run reports. */
  const POINTS_PER_RUN := 15

  /** Point k of a run is scenario k, for that run; the record scenario comes first. */
  lemma RunPointsAt(prefix: string, run: int, reading: nat -> Instant, t0: nat, k: nat)
    requires k < POINTS_PER_RUN
    ensures |RunPoints(prefix, run, reading, t0)| == POINTS_PER_RUN
    ensures RunPoints(prefix, run, reading, t0)[k].iteration == run
    ensures RunPoints(prefix, run, reading, t0)[k].id == prefix + ([RECORD_SCENARIO] + SCENARIOS)[k]
  {
    var first := [TimedPoint(prefix + RECORD_SCENARIO, run, reading, t0)];
    ReportedAt(first, prefix, run, reading, t0 + 2, |SCENARIOS|);
    if k == 0 {
      assert RunPoints(prefix, run, reading, t0)[..1] == first;
    } else {
      assert RunPoints(prefix, run, reading, t0)[1 + (k - 1)] == TimedPoint(prefix + SCENARIOS[k - 1], run, reading, t0 + 2 + 2 * (k - 1));
    }
  }

  /** Concatenation of a list of lists, in order. */
  function Concat<T>(blocks: seq<seq<T>>): seq<T>
  {
    if blocks == [] then [] else Concat(blocks[..|blocks| - 1]) + blocks[|blocks| - 1]
  }

  lemma ConcatSnoc<T>(blocks: seq<seq<T>>, b: seq<T>)
    ensures Concat(blocks + [b]) == Concat(blocks) + b
  {
    assert (blocks + [b])[..|blocks|] == blocks;
  }

  /** A block issued after a run of blocks extends the log by that block. */
  lemma ConcatLogSnoc<T>(log: seq<T>, blocks: seq<seq<T>>, b: seq<T>)
    ensures (log + Concat(blocks)) + b == log + Concat(blocks + [b])
  {
    ConcatSnoc(blocks, b);
  }

  /** runs[r] is the group of points run r reports, its clock readings starting at tick t0 + TICKS_PER_RUN * r. */
  ghost predicate RunsFrom(runs: seq<seq<BPoint>>, prefix: string, reading: nat -> Instant, t0: nat)
  {
    forall r :: 0 <= r < |runs| ==> runs[r] == RunPoints(prefix, r, reading, t0 + TICKS_PER_RUN * r)
  }

  /** The next run's points, timed from the tick where the previous run stopped. */
  lemma RunsFromSnoc(runs: seq<seq<BPoint>>, prefix: string, reading: nat -> Instant, t0: nat, tr: nat)
    requires RunsFrom(runs, prefix, reading, t0) && tr == t0 + TICKS_PER_RUN * |runs|
    ensures RunsFrom(runs + [RunPoints(prefix, |runs|, reading, tr)], prefix, reading, t0)
  {
  }

  lemma {:induction false} ConcatRunsLength(runs: seq<seq<BPoint>>)
    requires forall r :: 0 <= r < |runs| ==> |runs[r]| == POINTS_PER_RUN
    ensures |Concat(runs)| == POINTS_PER_RUN * |runs|
  {
    if runs != [] {
      ConcatRunsLength(runs[..|runs| - 1]);
    }
  }

  /** Run r's points form the r-th group of POINTS_PER_RUN points. */
  lemma {:induction false} ConcatRunsAt(runs: seq<seq<BPoint>>, r: nat)
    requires forall i :: 0 <= i < |runs| ==> |runs[i]| == POINTS_PER_RUN
    requires r < |runs|
    ensures POINTS_PER_RUN * (r + 1) <= |Concat(runs)|
    ensures Concat(runs)[POINTS_PER_RUN * r .. POINTS_PER_RUN * (r + 1)] == runs[r]
  {
    var n := |runs| - 1;
    var front := runs[..n];
    ConcatRunsLength(runs);
    ConcatRunsLength(front);
    var all := Concat(runs);
    assert all == Concat(front) + runs[n];
    if r < n {
      ConcatRunsAt(front, r);
      assert all[POINTS_PER_RUN * r .. POINTS_PER_RUN * (r + 1)] == Concat(front)[POINTS_PER_RUN * r .. POINTS_PER_RUN * (r + 1)];
    } else {
      assert all[POINTS_PER_RUN * r ..] == runs[n];
    }
  }

  /**
   * Runs report in increasing order: point 15 * r + k of the concatenated
   * runs is scenario k of run r, the record scenario first.
   */
  lemma RunsReportInOrder(runs: seq<seq<BPoint>>, prefix: string, reading: nat -> Instant, t0: nat, r: nat, k: nat)
    requires RunsFrom(runs, prefix, reading, t0)
    requires r < |runs| && k < POINTS_PER_RUN
    ensures |Concat(runs)| == POINTS_PER_RUN * |runs|
    ensures Concat(runs)[POINTS_PER_RUN * r + k].iteration == r
    ensures Concat(runs)[POINTS_PER_RUN * r + k].id == prefix + ([RECORD_SCENARIO] + SCENARIOS)[k]
  {
    forall i | 0 <= i < |runs| ensures |runs[i]| == POINTS_PER_RUN {
      RunPointsAt(prefix, i, reading, t0 + TICKS_PER_RUN * i, 0);
    }
    ConcatRunsLength(runs);
    ConcatRunsAt(runs, r);
    RunPointsAt(prefix, r, reading, t0 + TICKS_PER_RUN * r, k);
    var all := Concat(runs);
    assert all[POINTS_PER_RUN * r + k] == all[POINTS_PER_RUN * r .. POINTS_PER_RUN * (r + 1)][k];
  }
}
