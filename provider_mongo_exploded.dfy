/**
 * The "exploded" Mongo provider stores each key/value pair of a document as a
 * record of its own, {key, value, docid}, the docid linking the records of one
 * document. Modelled here: the conversions between a key/value list and such
 * records, and the record lists its insert and set operations build before
 * writing them. The database calls themselves are not modelled.
 */
module ExplodedProvider {
  import opened Queries

  datatype Option<T> = None | Some(value: T)

  /** One exploded record; where clauses carry no docid. */
  datatype ExplodedDoc = ExplodedDoc(key: string, value: string, docid: Option<string>)

  /** The pairs a record list holds, in order. */
  function PairsOf(docs: seq<ExplodedDoc>): KVList
  {
    if docs == [] then [] else PairsOf(docs[..|docs| - 1]) + [(docs[|docs| - 1].key, docs[|docs| - 1].value)]
  }

  /** The records of a list of pairs, each carrying `docid`. */
  function ExplodedOf(list: KVList, docid: Option<string>): seq<ExplodedDoc>
  {
    if list == [] then [] else ExplodedOf(list[..|list| - 1], docid) + [ExplodedDoc(list[|list| - 1].0, list[|list| - 1].1, docid)]
  }

  lemma {:induction false} PairsOfAt(docs: seq<ExplodedDoc>)
    ensures |PairsOf(docs)| == |docs|
    ensures forall i :: 0 <= i < |docs| ==> PairsOf(docs)[i] == (docs[i].key, docs[i].value)
  {
    if docs != [] {
      PairsOfAt(docs[..|docs| - 1]);
    }
  }

  lemma {:induction false} ExplodedOfAt(list: KVList, docid: Option<string>)
    ensures |ExplodedOf(list, docid)| == |list|
    ensures forall i :: 0 <= i < |list| ==> ExplodedOf(list, docid)[i] == ExplodedDoc(list[i].0, list[i].1, docid)
  {
    if list != [] {
      ExplodedOfAt(list[..|list| - 1], docid);
    }
  }

  /** Exploding a list, with or without a docid, and collecting the pairs back gives the list. */
  lemma {:induction false} PairsOfExploded(list: KVList, docid: Option<string>)
    ensures PairsOf(ExplodedOf(list, docid)) == list
  {
    if list != [] {
      var n := |list| - 1;
      PairsOfExploded(list[..n], docid);
      var e := ExplodedOf(list, docid);
      ExplodedOfAt(list, docid);
      assert e[..n] == ExplodedOf(list[..n], docid);
      assert list == list[..n] + [list[n]];
    }
  }

  /** Conversely, records that all carry `docid` are the explosion of their pairs. */
  lemma {:induction false} ExplodedOfPairs(docs: seq<ExplodedDoc>, docid: Option<string>)
    requires forall i :: 0 <= i < |docs| ==> docs[i].docid == docid
    ensures ExplodedOf(PairsOf(docs), docid) == docs
  {
    if docs != [] {
      var n := |docs| - 1;
      ExplodedOfPairs(docs[..n], docid);
      var p := PairsOf(docs);
      PairsOfAt(docs);
      assert p[..n] == PairsOf(docs[..n]);
      assert docs == docs[..n] + [docs[n]];
    }
  }

  /** ExplodedBson2KVList. */
  method ExplodedBsonToKVList(docs: seq<ExplodedDoc>) returns (ret: KVList)
    ensures ret == PairsOf(docs)
    ensures |ret| == |docs| && forall i :: 0 <= i < |docs| ==> ret[i] == (docs[i].key, docs[i].value)
  {
    ret := [];
    for i := 0 to |docs|
      invariant ret == PairsOf(docs[..i])
    {
      assert docs[..i + 1][..i] == docs[..i];
      ret := ret + [(docs[i].key, docs[i].value)];
    }
    assert docs[..|docs|] == docs;
    PairsOfAt(docs);
  }

  /** Appends the records of `list`, each carrying `docid`, to `acc`. */
  method AppendExploded(acc: seq<ExplodedDoc>, list: KVList, docid: Option<string>) returns (ret: seq<ExplodedDoc>)
    ensures ret == acc + ExplodedOf(list, docid)
  {
    ret := acc;
    for i := 0 to |list|
      invariant ret == acc + ExplodedOf(list[..i], docid)
    {
      assert list[..i + 1][..i] == list[..i];
      ret := ret + [ExplodedDoc(list[i].0, list[i].1, docid)];
    }
    assert list[..|list|] == list;
  }

  /** KVList2ExplodedBsonMany: the records of a where clause. */
  method KVListToExplodedMany(list: KVList) returns (ret: seq<ExplodedDoc>)
    ensures ret == ExplodedOf(list, None)
    ensures |ret| == |list| && forall i :: 0 <= i < |list| ==> ret[i] == ExplodedDoc(list[i].0, list[i].1, None)
  {
    ret := AppendExploded([], list, None);
    ExplodedOfAt(list, None);
  }

  /** KVList2ExplodedBsonOne: the records of one document. */
  method KVListToExplodedOne(list: KVList, docid: string) returns (ret: seq<ExplodedDoc>)
    ensures ret == ExplodedOf(list, Some(docid))
    ensures |ret| == |list| && forall i :: 0 <= i < |list| ==> ret[i] == ExplodedDoc(list[i].0, list[i].1, Some(docid))
  {
    ret := AppendExploded([], list, Some(docid));
    ExplodedOfAt(list, Some(docid));
  }

  /**
   * Go's conversion string(i) of an integer: the one-rune string of code point
   * i, or the replacement character U+FFFD when i is no Unicode scalar value.
   */
  function GoIntString(i: int): (s: string)
    ensures |s| == 1
    ensures 0 <= i < 0xD800 ==> s[0] as int == i
    ensures (i < 0 || 0xD800 <= i < 0xE000 || 0x10FFFF < i) ==> s[0] == '�'
  {
    if 0 <= i < 0xD800 || 0xE000 <= i <= 0x10FFFF then [i as char] else ['�']
  }

  /** Number of pairs in a list of documents. */
  function TotalPairs(docs: seq<KVList>): nat
  {
    if docs == [] then 0 else TotalPairs(docs[..|docs| - 1]) + |docs[|docs| - 1]|
  }

  /** The records InsertDocument writes: document i's pairs, each with docid string(i). */
  function InsertedRecords(docs: seq<KVList>): seq<ExplodedDoc>
  {
    if docs == [] then []
    else InsertedRecords(docs[..|docs| - 1]) + ExplodedOf(docs[|docs| - 1], Some(GoIntString(|docs| - 1)))
  }

  /** The record list of InsertDocument, in the order of the inserts. */
  method InsertDocumentRecords(docs: seq<KVList>) returns (recs: seq<ExplodedDoc>)
    ensures recs == InsertedRecords(docs)
  {
    recs := [];
    for i := 0 to |docs|
      invariant recs == InsertedRecords(docs[..i])
    {
      assert docs[..i + 1][..i] == docs[..i];
      var one := KVListToExplodedOne(docs[i], GoIntString(i));
      for j := 0 to |one|
        invariant recs == InsertedRecords(docs[..i]) + one[..j]
      {
        assert one[..j + 1] == one[..j] + [one[j]];
        recs := recs + [one[j]];
      }
      assert one[..|one|] == one;
    }
    assert docs[..|docs|] == docs;
  }

  /**
   * InsertDocument writes one record per pair, document by document: pair j
   * of document i is record TotalPairs(docs[..i]) + j and carries docid string(i).
   */
  lemma {:induction false} InsertedRecordsAt(docs: seq<KVList>, i: int, j: int)
    requires 0 <= i < |docs| && 0 <= j < |docs[i]|
    ensures |InsertedRecords(docs)| == TotalPairs(docs)
    ensures TotalPairs(docs[..i]) + j < TotalPairs(docs)
    ensures InsertedRecords(docs)[TotalPairs(docs[..i]) + j] == ExplodedDoc(docs[i][j].0, docs[i][j].1, Some(GoIntString(i)))
  {
    var n := |docs| - 1;
    var front := docs[..n];
    ExplodedOfAt(docs[n], Some(GoIntString(n)));
    if i < n {
      assert front[..i] == docs[..i];
      InsertedRecordsAt(front, i, j);
    } else {
      assert docs[..i] == front;
      if n > 0 {
        InsertedRecordsLength(front);
      }
    }
  }

  lemma {:induction false} InsertedRecordsLength(docs: seq<KVList>)
    ensures |InsertedRecords(docs)| == TotalPairs(docs)
  {
    if docs != [] {
      var n := |docs| - 1;
      InsertedRecordsLength(docs[..n]);
      ExplodedOfAt(docs[n], Some(GoIntString(n)));
    }
  }

  /** A single-document insert gives every record the docid "\0", string(0). */
  lemma InsertOneDocument(doc: KVList)
    ensures InsertedRecords([doc]) == ExplodedOf(doc, Some("\0"))
    ensures forall r :: r in InsertedRecords([doc]) ==> r.docid == Some("\0")
  {
    assert [doc][..0] == [];
    assert GoIntString(0) == "\0";
    ExplodedOfAt(doc, Some("\0"));
  }

  /** The records SetKVDocumentUnique inserts into the document with the given docid. */
  method SetKVDocumentUniqueRecords(kv: KVList, docid: string) returns (bsonDocs: seq<ExplodedDoc>)
    ensures bsonDocs == ExplodedOf(kv, Some(docid))
    ensures |bsonDocs| == |kv| && forall r :: r in bsonDocs ==> r.docid == Some(docid)
  {
    bsonDocs := AppendExploded([], kv, Some(docid));
    ExplodedOfAt(kv, Some(docid));
  }

  /** The records setting pair p in each of the documents docids, in order. */
  function Row(p: (string, string), docids: seq<string>): (row: seq<ExplodedDoc>)
    ensures |row| == |docids|
  {
    seq(|docids|, j requires 0 <= j < |docids| => ExplodedDoc(p.0, p.1, Some(docids[j])))
  }

  /** One record per (pair, docid), pairs in the outer position. */
  function CrossRecords(kv: KVList, docids: seq<string>): seq<ExplodedDoc>
  {
    if kv == [] then [] else CrossRecords(kv[..|kv| - 1], docids) + Row(kv[|kv| - 1], docids)
  }

  /**
   * The records SetKVDocumentWhere and SetKVDocumentValueGlob insert, for the
   * distinct docids their selection query returned.
   */
  method SetKVDocumentsRecords(kv: KVList, docids: seq<string>) returns (bsonDocs: seq<ExplodedDoc>)
    ensures bsonDocs == CrossRecords(kv, docids)
    ensures |bsonDocs| == |kv| * |docids|
  {
    bsonDocs := [];
    for i := 0 to |kv|
      invariant bsonDocs == CrossRecords(kv[..i], docids)
    {
      assert kv[..i + 1][..i] == kv[..i];
      for j := 0 to |docids|
        invariant bsonDocs == CrossRecords(kv[..i], docids) + Row(kv[i], docids[..j])
      {
        assert Row(kv[i], docids[..j + 1]) == Row(kv[i], docids[..j]) + [ExplodedDoc(kv[i].0, kv[i].1, Some(docids[j]))];
        bsonDocs := bsonDocs + [ExplodedDoc(kv[i].0, kv[i].1, Some(docids[j]))];
      }
      assert docids[..|docids|] == docids;
    }
    assert kv[..|kv|] == kv;
    CrossRecordsLength(kv, docids);
  }

  lemma {:induction false} CrossRecordsLength(kv: KVList, docids: seq<string>)
    ensures |CrossRecords(kv, docids)| == |kv| * |docids|
  {
    if kv != [] {
      CrossRecordsLength(kv[..|kv| - 1], docids);
      assert (|kv| - 1) * |docids| + |docids| == |kv| * |docids|;
    }
  }

  /** Index arithmetic for CrossRecordsAt, kept apart so the solver sees the nonlinear steps one at a time. */
  lemma RowStart(i: nat, j: nat, d: nat, n: nat)
    requires i < n && j < d
    ensures i * d + j < n * d
    ensures i < n - 1 ==> i * d + j < (n - 1) * d
    ensures i == n - 1 ==> i * d + j - (n - 1) * d == j
  {
    assert i * d + j < i * d + d == (i + 1) * d;
    if i < n - 1 {
      assert (i + 1) * d <= (n - 1) * d;
    }
    assert (i + 1) * d <= n * d;
  }

  /** Record i * |docids| + j sets pair i in document docids[j]. */
  lemma {:induction false} CrossRecordsAt(kv: KVList, docids: seq<string>, i: int, j: int)
    requires 0 <= i < |kv| && 0 <= j < |docids|
    ensures i * |docids| + j < |CrossRecords(kv, docids)|
    ensures CrossRecords(kv, docids)[i * |docids| + j] == ExplodedDoc(kv[i].0, kv[i].1, Some(docids[j]))
  {
    var n := |kv| - 1;
    var front := kv[..n];
    CrossRecordsLength(kv, docids);
    CrossRecordsLength(front, docids);
    RowStart(i, j, |docids|, |kv|);
    if i < n {
      CrossRecordsAt(front, docids, i, j);
    }
  }
}
