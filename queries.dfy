/**
 * The data exchanged with a provider (a keyed record, a document as a list of
 * key/value pairs) and the two provider capabilities the benchmark driver uses:
 * keyed-record storage and schema-less document storage.
 *
 * The driver depends only on the capabilities. Here they are served by a
 * provider that performs no storage and logs every call it receives, so that
 * the driver's contracts can state exactly which operations it issued, with
 * which arguments, in which order.
 */
module Queries {

  type byte = x: int | 0 <= x < 256

  /** A document: an ordered list of (key, value) pairs. */
  type KVList = seq<(string, string)>

  /** A verifying key: 32 bytes. */
  type VK = seq<byte>

  /** No element occurs twice. */
  ghost predicate NoDuplicates<T>(s: seq<T>) {
    forall i, j :: 0 <= i < j < |s| ==> s[i] != s[j]
  }

  /** A stored item addressed by a slash-delimited key. */
  datatype BosswaveRecord = BosswaveRecord(key: string, allocset: int, owner: int, size: int, value: seq<byte>)

  /** One call issued to a provider. */
  datatype Call =
    | Initialize
    | InsertRecord(record: BosswaveRecord)
    | InsertDocument(docs: seq<KVList>)
    | GetDocumentUnique(uuid: string)
    | GetDocumentSetWhere(where: KVList)
    | GetUniqueValues(key: string)
    | GetDocumentSetValueGlob(key: string, valueGlob: string)
    | GetKeyGlob(keyGlob: string)
    | SetKVDocumentUnique(kv: KVList, uuid: string)
    | SetKVDocumentWhere(kv: KVList, where: KVList)
    | SetKVDocumentValueGlob(kv: KVList, key: string, valueGlob: string)
    | DeleteKeyDocumentUnique(keys: seq<string>, uuid: string)
    | DeleteKeyDocumentWhere(keys: seq<string>, where: KVList)
    | DeleteKeyGlobDocumentUnique(keyGlob: string, uuid: string)
    | DeleteKeyGlobDocumentWhere(keyGlob: string, where: KVList)

  /** A provider of both capabilities that records each call and stores nothing. */
  class FakeProvider {
    var calls: seq<Call>

    constructor ()
      ensures calls == []
    {
      calls := [];
    }

    method Initialize()
      modifies this
      ensures calls == old(calls) + [Call.Initialize]
    {
      calls := calls + [Call.Initialize];
    }

    method InsertRecord(r: BosswaveRecord)
      modifies this
      ensures calls == old(calls) + [Call.InsertRecord(r)]
    {
      calls := calls + [Call.InsertRecord(r)];
    }

    method InsertDocument(docs: seq<KVList>)
      modifies this
      ensures calls == old(calls) + [Call.InsertDocument(docs)]
    {
      calls := calls + [Call.InsertDocument(docs)];
    }

    method GetDocumentUnique(uuid: string)
      modifies this
      ensures calls == old(calls) + [Call.GetDocumentUnique(uuid)]
    {
      calls := calls + [Call.GetDocumentUnique(uuid)];
    }

    method GetDocumentSetWhere(where: KVList)
      modifies this
      ensures calls == old(calls) + [Call.GetDocumentSetWhere(where)]
    {
      calls := calls + [Call.GetDocumentSetWhere(where)];
    }

    method GetUniqueValues(key: string)
      modifies this
      ensures calls == old(calls) + [Call.GetUniqueValues(key)]
    {
      calls := calls + [Call.GetUniqueValues(key)];
    }

    method GetDocumentSetValueGlob(key: string, valueGlob: string)
      modifies this
      ensures calls == old(calls) + [Call.GetDocumentSetValueGlob(key, valueGlob)]
    {
      calls := calls + [Call.GetDocumentSetValueGlob(key, valueGlob)];
    }

    method GetKeyGlob(keyGlob: string)
      modifies this
      ensures calls == old(calls) + [Call.GetKeyGlob(keyGlob)]
    {
      calls := calls + [Call.GetKeyGlob(keyGlob)];
    }

    method SetKVDocumentUnique(kv: KVList, uuid: string)
      modifies this
      ensures calls == old(calls) + [Call.SetKVDocumentUnique(kv, uuid)]
    {
      calls := calls + [Call.SetKVDocumentUnique(kv, uuid)];
    }

    method SetKVDocumentWhere(kv: KVList, where: KVList)
      modifies this
      ensures calls == old(calls) + [Call.SetKVDocumentWhere(kv, where)]
    {
      calls := calls + [Call.SetKVDocumentWhere(kv, where)];
    }

    method SetKVDocumentValueGlob(kv: KVList, key: string, valueGlob: string)
      modifies this
      ensures calls == old(calls) + [Call.SetKVDocumentValueGlob(kv, key, valueGlob)]
    {
      calls := calls + [Call.SetKVDocumentValueGlob(kv, key, valueGlob)];
    }

    method DeleteKeyDocumentUnique(keys: seq<string>, uuid: string)
      modifies this
      ensures calls == old(calls) + [Call.DeleteKeyDocumentUnique(keys, uuid)]
    {
      calls := calls + [Call.DeleteKeyDocumentUnique(keys, uuid)];
    }

    method DeleteKeyDocumentWhere(keys: seq<string>, where: KVList)
      modifies this
      ensures calls == old(calls) + [Call.DeleteKeyDocumentWhere(keys, where)]
    {
      calls := calls + [Call.DeleteKeyDocumentWhere(keys, where)];
    }

    method DeleteKeyGlobDocumentUnique(keyGlob: string, uuid: string)
      modifies this
      ensures calls == old(calls) + [Call.DeleteKeyGlobDocumentUnique(keyGlob, uuid)]
    {
      calls := calls + [Call.DeleteKeyGlobDocumentUnique(keyGlob, uuid)];
    }

    method DeleteKeyGlobDocumentWhere(keyGlob: string, where: KVList)
      modifies this
      ensures calls == old(calls) + [Call.DeleteKeyGlobDocumentWhere(keyGlob, where)]
    {
      calls := calls + [Call.DeleteKeyGlobDocumentWhere(keyGlob, where)];
    }
  }

  /** A call logged after a run of calls extends that run (a regrouping step that keeps the loops' log invariants cheap to verify). */
  lemma LogSnoc(log: seq<Call>, run: seq<Call>, c: Call)
    ensures (log + run) + [c] == log + (run + [c])
  {
  }

  /** A block of calls issued after a run of calls extends the log by the run and the block (a regrouping step kept for verification cost). */
  lemma LogAppend(log: seq<Call>, run: seq<Call>, b: seq<Call>)
    ensures (log + run) + b == log + (run + b)
  {
  }

  /** Fourteen blocks issued one after the other extend the log by their concatenation (a regrouping step kept for verification cost). */
  lemma LogAppendBlocks(log: seq<Call>,
                        b0: seq<Call>, b1: seq<Call>, b2: seq<Call>, b3: seq<Call>, b4: seq<Call>, b5: seq<Call>, b6: seq<Call>,
                        b7: seq<Call>, b8: seq<Call>, b9: seq<Call>, b10: seq<Call>, b11: seq<Call>, b12: seq<Call>, b13: seq<Call>)
    ensures log + b0 + b1 + b2 + b3 + b4 + b5 + b6 + b7 + b8 + b9 + b10 + b11 + b12 + b13 == log + (b0 + b1 + b2 + b3 + b4 + b5 + b6 + b7 + b8 + b9 + b10 + b11 + b12 + b13)
  {
    var run := b0;
    LogAppend(log, run, b1);
    run := run + b1;
    LogAppend(log, run, b2);
    run := run + b2;
    LogAppend(log, run, b3);
    run := run + b3;
    LogAppend(log, run, b4);
    run := run + b4;
    LogAppend(log, run, b5);
    run := run + b5;
    LogAppend(log, run, b6);
    run := run + b6;
    LogAppend(log, run, b7);
    run := run + b7;
    LogAppend(log, run, b8);
    run := run + b8;
    LogAppend(log, run, b9);
    run := run + b9;
    LogAppend(log, run, b10);
    run := run + b10;
    LogAppend(log, run, b11);
    run := run + b11;
    LogAppend(log, run, b12);
    run := run + b12;
    LogAppend(log, run, b13);
    run := run + b13;
  }
}
