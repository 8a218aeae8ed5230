/**
 * The document-shaped Mongo provider's conversions between a key/value list
 * and a BSON document (a map from key to value), and the `$unset` document
 * its key deletions send. The database calls themselves are not modelled.
 */
module MongoProvider {
  import opened Queries

  /** A bson.M whose values are all strings. */
  type BsonM = map<string, string>

  /** The keys occurring in a list. */
  ghost function KeysOf(l: KVList): set<string> {
    set i | 0 <= i < |l| :: l[i].0
  }

  /** No key occurs twice. */
  ghost predicate UniqueKeys(l: KVList) {
    forall i, j :: 0 <= i < j < |l| ==> l[i].0 != l[j].0
  }

  /** Index i holds the last pair of l with its key. */
  ghost predicate LastWithKey(l: KVList, i: int)
    requires 0 <= i < |l|
  {
    forall j :: i < j < |l| ==> l[j].0 != l[i].0
  }

  lemma KeysOfSnoc(l: KVList, p: (string, string))
    ensures KeysOf(l + [p]) == KeysOf(l) + {p.0}
  {
    var l' := l + [p];
    forall x | x in KeysOf(l') ensures x in KeysOf(l) + {p.0} {
      var i :| 0 <= i < |l'| && l'[i].0 == x;
      if i < |l| { assert l[i].0 == x; }
    }
    forall x | x in KeysOf(l) ensures x in KeysOf(l') {
      var i :| 0 <= i < |l| && l[i].0 == x;
      assert l'[i].0 == x;
    }
    assert l'[|l|].0 == p.0;
  }

  /** The document a list folds into: each pair in turn sets its key. */
  function BsonOf(l: KVList): BsonM
  {
    if l == [] then map[] else BsonOf(l[..|l| - 1])[l[|l| - 1].0 := l[|l| - 1].1]
  }

  /** The document has exactly the keys of the list. */
  lemma {:induction false} BsonOfKeys(l: KVList)
    ensures BsonOf(l).Keys == KeysOf(l)
  {
    if l != [] {
      var n := |l| - 1;
      BsonOfKeys(l[..n]);
      assert l == l[..n] + [l[n]];
      KeysOfSnoc(l[..n], l[n]);
    }
  }

  /** Later pairs override earlier ones: a key maps to the value of its last pair. */
  lemma {:induction false} BsonOfLastWins(l: KVList, i: int)
    requires 0 <= i < |l| && LastWithKey(l, i)
    ensures l[i].0 in BsonOf(l) && BsonOf(l)[l[i].0] == l[i].1
  {
    var n := |l| - 1;
    if i < n {
      assert LastWithKey(l[..n], i);
      BsonOfLastWins(l[..n], i);
    }
  }

  /** KVList2Bson. */
  method KVListToBson(list: KVList) returns (ret: BsonM)
    ensures ret == BsonOf(list)
  {
    ret := map[];
    for i := 0 to |list|
      invariant ret == BsonOf(list[..i])
    {
      assert list[..i + 1][..i] == list[..i];
      ret := ret[list[i].0 := list[i].1];
    }
    assert list[..|list|] == list;
  }

  /** `l` lists every entry of `doc` exactly once, in some order. */
  ghost predicate ListsEntries(l: KVList, doc: BsonM) {
    && |l| == |doc|
    && UniqueKeys(l)
    && KeysOf(l) == doc.Keys
    && forall i :: 0 <= i < |l| ==> l[i].0 in doc && doc[l[i].0] == l[i].1
  }

  /** `l` lists the entries of `doc` whose keys are not in `rest`, each once. */
  ghost predicate ListsAllBut(l: KVList, doc: BsonM, rest: set<string>) {
    && rest <= doc.Keys
    && |l| + |rest| == |doc.Keys|
    && UniqueKeys(l)
    && KeysOf(l) == doc.Keys - rest
    && forall i :: 0 <= i < |l| ==> l[i].0 in doc && doc[l[i].0] == l[i].1
  }

  /** Listing one more entry of the document. */
  lemma ListsAllButStep(l: KVList, doc: BsonM, rest: set<string>, k: string)
    requires ListsAllBut(l, doc, rest) && k in rest
    ensures ListsAllBut(l + [(k, doc[k])], doc, rest - {k})
  {
    KeysOfSnoc(l, (k, doc[k]));
    assert forall i :: 0 <= i < |l| ==> l[i].0 in KeysOf(l);
  }

  /** Bson2KVList; Go's map iteration order is unspecified, so the order is chosen arbitrarily. */
  method BsonToKVList(doc: BsonM) returns (ret: KVList)
    ensures ListsEntries(ret, doc)
  {
    ret := [];
    var rest := doc.Keys;
    while rest != {}
      invariant ListsAllBut(ret, doc, rest)
      decreases |rest|
    {
      var k :| k in rest;
      ListsAllButStep(ret, doc, rest, k);
      ret := ret + [(k, doc[k])];
      rest := rest - {k};
    }
    assert |doc.Keys| == |doc|;
  }

  /** In a duplicate-free list every element occurs exactly once. */
  lemma {:induction false} SingleOccurrences<T>(s: seq<T>, x: T)
    requires NoDuplicates(s)
    ensures multiset(s)[x] == if x in s then 1 else 0
  {
    if s != [] {
      var n := |s| - 1;
      assert s == s[..n] + [s[n]];
      assert NoDuplicates(s[..n]);
      SingleOccurrences(s[..n], x);
      if x == s[n] {
        assert x !in s[..n];
      }
    }
  }

  /**
   * Round trip: for a list without repeated keys, any list that Bson2KVList
   * may return for KVList2Bson's document is a permutation of the original.
   */
  lemma BsonRoundTripPermutes(l: KVList, r: KVList)
    requires UniqueKeys(l)
    requires ListsEntries(r, BsonOf(l))
    ensures multiset(r) == multiset(l)
  {
    var m := BsonOf(l);
    BsonOfKeys(l);
    forall x | x in r ensures x in l {
      var i :| 0 <= i < |r| && r[i] == x;
      var j :| 0 <= j < |l| && l[j].0 == x.0;
      BsonOfLastWins(l, j);
    }
    forall x | x in l ensures x in r {
      var j :| 0 <= j < |l| && l[j] == x;
      BsonOfLastWins(l, j);
      assert x.0 in KeysOf(r);
      var i :| 0 <= i < |r| && r[i].0 == x.0;
    }
    forall x ensures multiset(r)[x] == multiset(l)[x] {
      SingleOccurrences(r, x);
      SingleOccurrences(l, x);
    }
  }

  /** The `$unset` argument of DeleteKeyDocumentUnique and DeleteKeyDocumentWhere. */
  method RemoveKeys(keys: seq<string>) returns (removekeys: BsonM)
    ensures removekeys.Keys == set k | k in keys
    ensures forall k :: k in removekeys ==> removekeys[k] == ""
  {
    removekeys := map[];
    for i := 0 to |keys|
      invariant removekeys.Keys == set k | k in keys[..i]
      invariant forall k :: k in removekeys ==> removekeys[k] == ""
    {
      assert keys[..i + 1] == keys[..i] + [keys[i]];
      removekeys := removekeys[keys[i] := ""];
    }
    assert keys[..|keys|] == keys;
  }
}
