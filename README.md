# badwolf benchmark harness, modelled in Dafny

badwolf is a micro-benchmark harness written in Go. `benchmarks_entry`
performs `FACTOR / 10` runs. Each run does the following:

- It creates a provider and initialises it.
- It runs the keyed-record scenario `BENCH_BWQ_A`: it builds `FACTOR` records and times inserting them.
- It runs the document scenario `BENCH_MetadataQuery`. A unique string generator supplies ten top-level keys and ten top-level values. `FACTOR` documents are built over them. Then fourteen timed scenarios each send one provider call per document.

Every timed batch appends one point to the process-wide `Reporter`.

The model has these modules:

| module | file | what it holds |
|---|---|---|
| `Environment` | `environment.dfy` | The sources of nondeterminism as oracles: `math/rand`'s stream (`Rng`), the clock (`Clock`) and `uuid.New` (`UuidSource`). Each is a fixed function of how many values have been taken, so a contract can name the exact draw, reading or uuid a value came from. |
| `Generator` | `generator.dfy` | `StringGenerator`, a class whose `used` set is updated in place. The unbounded `goto tryagain` retry of `RandomString` is a `while` loop. `FirstFresh` states which string a call hands out and where its retries stop in the stream: the first sample, in stream order, that is not in `used`. The loop terminates under the oracle assumption `Spread`. |
| `Reporting` | `reporting.dfy` | `Reporter`, a class with the `ok` flag, the fatal message and the append-only list of points. |
| `Queries` | `queries.dfy` | The record and document types of the two provider interfaces. The interfaces' operations become a `Call` datatype. `FakeProvider` stores nothing and logs every call it receives. |
| `Workload` | `workload.dfy` | As values: the record keys, the synthetic documents, the calls each document scenario issues (one `...Block` function per scenario), and the points a run reports. |
| `Scenarios` | `scenarios.dfy` | Each scenario of `BENCH_MetadataQuery` as an `Issue...` method (the per-document loop) and a `Bench...` method (timer, loop, metric). |
| `Benchmarks` | `benchmarks.dfy` | `BWUtil_GenVk`, `BENCH_BWQ_A`, `BENCH_MetadataQuery` and the run loop of `benchmarks_entry`, all proved against the `Workload` functions. |
| `MongoProvider` | `provider_mongo.dfy` | `KVList2Bson`, `Bson2KVList` and the `$unset` key map. A `bson.M` is a `map<string, string>`. |
| `ExplodedProvider` | `provider_mongo_exploded.dfy` | The converters between a key/value list and `{key, value, docid}` records, and the record lists built by `InsertDocument` and the `SetKV...` operations. |

The driver's contracts state three things:

- the exact sequence of provider calls, as a function of the documents and of the stream positions of the random draws;
- the exact points reported;
- the strings handed out by the generator.

Lemmas then prove what the source promises about those values:

- record keys are distinct;
- every random index stays in bounds of the shrinking key pool;
- the delete scenarios use disjoint parts of the pool;
- points come in the fixed scenario order, run after run.

## Model

| member | source | states |
|---|---|---|
| Generator.StringGenerator.constructor | gobad/util.go:12-14 | A new generator keeps the given alphabet and has handed out no string yet. |
| Generator.StringGenerator.Sample | gobad/util.go:21-24 | The buffer filled by the inner loop is the string whose character i is the alphabet character picked by the draw at stream position start + i, and exactly `length` draws are consumed. |
| Generator.StringGenerator.RandomString | gobad/util.go:16-30 | For length < 1 the result is "" and neither `used` nor the stream changes. Otherwise the result has exactly `length` characters, all from the alphabet, it was not in `used` before, and `used` grows by exactly that string. The result and the stream position afterwards are those of `FirstFresh`: samples of `length` draws are taken one after another from the start position, and the first one not in `used` is returned, with the stream right after it. |
| Generator.StringGenerator.GenerateNRandomStrings | gobad/util.go:32-38 | Returns exactly `number` strings. For length < 1 they are all "" and `used` is unchanged. For `number` == 0 neither `used` nor the stream changes. Otherwise each has the requested length and alphabet, none was used before, they are pairwise distinct, and `used` grows by exactly them. The calls run back to back in the stream (`StringsRun`): string i is the `FirstFresh` string from where call i - 1 stopped, over the used set grown by the strings before it. |
| Generator.FirstFreshUnique | gobad/util.go:16-30 | The string a call hands out, and the stream position where it stops, are determined by the stream, the used set and the start position. |
| Generator.SpreadFresh | gobad/util.go:19-29 | When the first r samples from a position hold more distinct strings than `used` has, one of them is not in `used`, so the retry loop stops within r attempts. |
| Generator.StringGenerator.HandedByCount | gobad/util.go:25-28 | When the used set grew by exactly the strings handed out, one element per string, those strings are pairwise distinct and none was used before. |
| Generator.StringGenerator.HandedChain | gobad/util.go:25-28 | Two consecutive runs of calls on one generator together hand out pairwise distinct strings that were never used before. |
| Generator.DuplicateShrinks | gobad/util.go:25-28 | A list with a repeated string has fewer distinct elements than its length. This is the counting fact behind uniqueness. |
| Reporting.Elapsed | gobad/reporting.go:62-64 | The elapsed time in microseconds is non-negative exactly when the clock did not go back, and 1000 ns is one microsecond. |
| Reporting.Reporter.constructor | gobad/reporting.go:26-30 | After initialisation `ok` is true, the fatal message is empty, and the metrics hold exactly 1024 zero points, because `make` was given a length. |
| Reporting.Reporter.Fatal | gobad/reporting.go:32-38 | `ok` becomes false and the fatal message is stored. The metrics and the 1024 prefilled points are unchanged. The document written out carries exactly these three fields. |
| Reporting.Reporter.Metric | gobad/reporting.go:40-42 | Appends exactly one point with the given id, iteration and value at the end. Earlier points, `ok` and the message are unchanged. |
| Reporting.Reporter.DeltaMetric | gobad/reporting.go:44-46 | Appends exactly one point with the given id and iteration, whose value is the time elapsed between `start` and the clock reading taken now. It reads the clock once, and changes nothing else. |
| Reporting.Reporter.WriteOut | gobad/reporting.go:48-56 | The encoded document is the reporter's ok flag, message and points. The reporter is not modified. |
| Reporting.Reporter.StartTimer | gobad/reporting.go:58-60 | Returns the current clock reading and does not modify the reporter. |
| Reporting.Reporter.FinishTimer | gobad/reporting.go:62-64 | Returns the microseconds between t and the clock reading taken now. |
| Workload.FormatInt | gobad/benchmarks.go:49 | The decimal text of an integer never contains '/', so it is a single key segment. |
| Workload.FormatIntRoundTrip | gobad/benchmarks.go:49 | Parsing the `%d` text of any integer gives back the integer. |
| Workload.FormatIntInjective | gobad/benchmarks.go:49 | Distinct integers print differently with `%d`. |
| Workload.BwqRecord | gobad/benchmarks.go:48-53 | Record i of run `run` has key `/foo/bar/<run>/<i%100>/<i%10>/<i>`, allocset i % 100, the drawn owner, size 0 and an empty value. |
| Workload.LastSegment | gobad/benchmarks.go:49 | In two equal slash-joined keys the last segments agree, and so do the prefixes. |
| Workload.RecordKeyInjective | gobad/benchmarks.go:49 | Two record keys are equal only if their run and their record index are equal. |
| Workload.RecordsFromDistinctKeys | gobad/benchmarks.go:46-54 | The FACTOR records of one run have pairwise distinct keys. |
| Workload.InsertRecordCalls | gobad/benchmarks.go:57-59 | One `InsertRecord` call per record, record i's call at position i. |
| Workload.DocumentWellFormed | gobad/benchmarks.go:69-76 | A generated document has `len(tlk) + 1` pairs. The first is ("uuid", a 36-character uuid). Pair j + 1 has top-level key j, in pool order, and a value taken from the top-level values. |
| Workload.WellFormedIndexable | gobad/benchmarks.go:101-188 | For documents of that shape over ten non-empty keys and values, every index the scenarios take (`rec[rand.Intn(10)]`, `rec[i][1][0]`, `rec[i][0][0]`, `rec[0][1]`) is in bounds. |
| Workload.PrefixGlob | gobad/benchmarks.go:116 | The glob built from a string is its first character followed by ".*". |
| Workload.DeletePoolsDisjoint | gobad/benchmarks.go:153-190 | Re-slicing the pool gives: keys 0-1 to DeleteKeyDocumentUnique, keys 2-3 to DeleteKeyDocumentWhere, key 4's initial to DeleteKeyGlobDocumentUnique and key 5's initial to DeleteKeyGlobDocumentWhere. For distinct keys these parts are disjoint. |
| Workload.ReportedAll | gobad/benchmarks.go:82-190 | The fourteen document scenarios report exactly fourteen points, one each, in the fixed order InsertDocument ... DeleteKeyGlobDocumentWhere. Scenario k is timed by the clock readings at ticks t0 + 2k and t0 + 2k + 1. |
| Workload.ReportedNonNegative | gobad/reporting.go:58-64 | Under a monotonic clock, each of the n document scenarios adds exactly one point, and every such point has a non-negative elapsed time. |
| Workload.ReportedAt | gobad/benchmarks.go:82-190 | After n scenarios, n points were appended and the earlier points kept. Point k has id prefix + scenario k's name and iteration `run`. |
| Workload.ReportedShift | gobad/benchmarks.go:82-190 | Points already reported are kept in front of the scenarios' points. |
| Workload.RunPointsSplit | gobad/benchmarks.go:27-28 | A run's points are the record scenario's point followed by the fourteen document scenarios' points. |
| Workload.RunPointsAt | gobad/benchmarks.go:27-28 | A run reports exactly 15 points. Point k has iteration `run` and the k-th id, the record scenario's ".A" first. |
| Workload.ConcatRunsLength | gobad/benchmarks.go:20-29 | r runs of 15 points report 15r points. |
| Workload.ConcatRunsAt | gobad/benchmarks.go:20-29 | Run r's points are the r-th group of 15 points. |
| Workload.RunsReportInOrder | gobad/benchmarks.go:20-29 | Runs report in increasing order: point 15r + k of the report is scenario k of run r, the record scenario first. |
| Scenarios.IssueInsertDocument | gobad/benchmarks.go:79-81 | Sends exactly InsertBlock: each document inserted on its own, in order. |
| Scenarios.BenchInsertDocument | gobad/benchmarks.go:78-82 | Sends InsertBlock, reads the clock twice, and appends the single point ".InsertDocument" for `run`. |
| Scenarios.IssueGetDocumentUnique | gobad/benchmarks.go:86-88 | Sends exactly UniqueBlock: each document fetched by its uuid. |
| Scenarios.BenchGetDocumentUnique | gobad/benchmarks.go:85-89 | Sends UniqueBlock and appends the single point ".GetDocumentUnique". |
| Scenarios.IssueGetDocumentSetWhere1Doc | gobad/benchmarks.go:93-95 | Sends exactly WhereOneBlock: each document is its own where clause. |
| Scenarios.BenchGetDocumentSetWhere1Doc | gobad/benchmarks.go:92-96 | Sends WhereOneBlock and appends the single point ".GetDocumentSetWhere1Doc". |
| Scenarios.WhereManyStep | gobad/benchmarks.go:101 | One call, with a where clause from the two next draws, key index first. Both indices are in bounds. |
| Scenarios.IssueGetDocumentSetWhereManyDoc | gobad/benchmarks.go:100-102 | Sends exactly WhereManyBlock from the current stream position and consumes two draws per document. |
| Scenarios.BenchGetDocumentSetWhereManyDoc | gobad/benchmarks.go:99-103 | Sends WhereManyBlock, consumes 2 draws per document, and appends the single point ".GetDocumentSetWhereManyDoc". |
| Scenarios.UniqueValuesStep | gobad/benchmarks.go:108 | One GetUniqueValues call on the key of the pair picked by the next draw. |
| Scenarios.IssueGetUniqueValues | gobad/benchmarks.go:107-109 | Sends exactly UniqueValuesBlock and consumes one draw per document. |
| Scenarios.BenchGetUniqueValues | gobad/benchmarks.go:106-110 | Sends UniqueValuesBlock and appends the single point ".GetUniqueValues". |
| Scenarios.ValueGlobStep | gobad/benchmarks.go:115-116 | One call with the picked pair's key and a glob on the first character of its value. |
| Scenarios.IssueGetDocumentSetValueGlob | gobad/benchmarks.go:114-117 | Sends exactly ValueGlobBlock and consumes one draw per document. |
| Scenarios.BenchGetDocumentSetValueGlob | gobad/benchmarks.go:113-118 | Sends ValueGlobBlock and appends the single point ".GetDocumentSetValueGlob". |
| Scenarios.KeyGlobStep | gobad/benchmarks.go:123-124 | One call with a glob on the first character of the picked pair's key. |
| Scenarios.IssueGetKeyGlob | gobad/benchmarks.go:122-125 | Sends exactly KeyGlobBlock and consumes one draw per document. |
| Scenarios.BenchGetKeyGlob | gobad/benchmarks.go:121-126 | Sends KeyGlobBlock and appends the single point ".GetKeyGlob". |
| Scenarios.FreshPair | gobad/benchmarks.go:131 | The two RandomString(10) calls give two distinct ten-character strings over the alphabet, neither used before, and `used` grows by exactly them. The key is the `FirstFresh` string from the current stream position, and the value the `FirstFresh` string from where the key's retries stopped (`PairFrom`). |
| Scenarios.GeneratedPair | gobad/benchmarks.go:131 | A fresh pair extends the record of strings handed out. |
| Scenarios.PairsRunUnique | gobad/benchmarks.go:128-151 | The pairs a writing scenario hands out, and the stream positions of all its passes, are determined by the stream, the used set and the start position. |
| Scenarios.SetUniqueStep | gobad/benchmarks.go:131-132 | One fresh pair, taken from the current stream position and set on the document's uuid. The stream stops where the value's retries stop. |
| Scenarios.SetUniquePass | gobad/benchmarks.go:131-132 | One loop pass extends the block, the strings handed out, and `PairsRun`, the record of each pass's pair and stream positions, by one pass that starts where the previous one ended. |
| Scenarios.IssueSetKVDocumentUnique | gobad/benchmarks.go:130-133 | Sends exactly SetUniqueBlock for the pairs handed out. The 2 * len(docs) strings are pairwise distinct and new to the generator. The pairs and their stream positions form the `PairsRun` that starts at the entry position, and the stream ends where the last pass ended. |
| Scenarios.BenchSetKVDocumentUnique | gobad/benchmarks.go:129-134 | The same, plus the single point ".SetKVDocumentUnique". |
| Scenarios.SetWhereStep | gobad/benchmarks.go:139-140 | A fresh pair from the current stream position. The where clause comes from the two draws right after the value's retries stop, the key's draw first, and the stream ends two draws later. |
| Scenarios.SetWherePass | gobad/benchmarks.go:139-140 | One loop pass extends the block, the strings handed out, and `PairsRun` by a pass that starts where the previous one ended and takes two draws after its pair. |
| Scenarios.IssueSetKVDocumentWhere | gobad/benchmarks.go:138-141 | Sends exactly SetWhereBlock. The strings handed out are distinct and new. The pairs and positions form the `PairsRun` from the entry position, so each where clause uses the two draws after its pair's retries. |
| Scenarios.BenchSetKVDocumentWhere | gobad/benchmarks.go:137-142 | The same, plus the single point ".SetKVDocumentWhere". |
| Scenarios.SetValueGlobStep | gobad/benchmarks.go:147-149 | The draw picking the pair is the one at the current stream position. The fresh pair's retries start on the next draw, and the stream ends where the value's retries stop. |
| Scenarios.SetValueGlobPass | gobad/benchmarks.go:147-149 | One loop pass extends the block, the strings handed out, and `PairsRun` by a pass that starts where the previous one ended with the picking draw. |
| Scenarios.IssueSetKVDocumentValueGlob | gobad/benchmarks.go:146-150 | Sends exactly SetValueGlobBlock. The strings handed out are distinct and new. The pairs and positions form the `PairsRun` from the entry position, each pass opening with its picking draw. |
| Scenarios.BenchSetKVDocumentValueGlob | gobad/benchmarks.go:145-151 | The same, plus the single point ".SetKVDocumentValueGlob". |
| Scenarios.IssueDeleteKeyDocumentUnique | gobad/benchmarks.go:155-157 | Sends exactly DeleteUniqueBlock: the pool's first two keys removed from each document by uuid. |
| Scenarios.BenchDeleteKeyDocumentUnique | gobad/benchmarks.go:154-158 | The same, plus the single point ".DeleteKeyDocumentUnique". |
| Scenarios.DeleteWhereStep | gobad/benchmarks.go:166-167 | The where clause indexes an eight-key pool and a document's first eight pairs, both in bounds. |
| Scenarios.IssueDeleteKeyDocumentWhere | gobad/benchmarks.go:165-168 | Sends exactly DeleteWhereBlock and consumes two draws per document. |
| Scenarios.BenchDeleteKeyDocumentWhere | gobad/benchmarks.go:164-169 | The same, plus the single point ".DeleteKeyDocumentWhere". |
| Scenarios.IssueDeleteKeyGlobDocumentUnique | gobad/benchmarks.go:176-178 | Sends exactly DeleteGlobUniqueBlock: a glob on the pool's first key's initial, by uuid. |
| Scenarios.BenchDeleteKeyGlobDocumentUnique | gobad/benchmarks.go:175-179 | The same, plus the single point ".DeleteKeyGlobDocumentUnique". |
| Scenarios.DeleteGlobWhereStep | gobad/benchmarks.go:187-188 | The where clause indexes a five-key pool and a document's first five pairs, both in bounds. |
| Scenarios.IssueDeleteKeyGlobDocumentWhere | gobad/benchmarks.go:186-189 | Sends exactly DeleteGlobWhereBlock and consumes two draws per document. |
| Scenarios.BenchDeleteKeyGlobDocumentWhere | gobad/benchmarks.go:185-190 | The same, plus the single point ".DeleteKeyGlobDocumentWhere". |
| Benchmarks.GenVk | gobad/benchmarks.go:35-41 | Exactly 32 bytes. Byte i is the low byte of the i-th `rand.Int` draw. |
| Benchmarks.BuildRecords | gobad/benchmarks.go:46-54 | Exactly FACTOR records. Record i is BwqRecord(run, i, owner), the owner being the i-th `rand.Int63` draw. |
| Benchmarks.InsertRecords | gobad/benchmarks.go:57-59 | The records are inserted one by one, in index order. |
| Benchmarks.BenchRecordInsert | gobad/benchmarks.go:44-61 | Builds the FACTOR records, inserts them in order, and appends exactly one point, `pfx + ".A"` for `run`. |
| Benchmarks.BuildDocument | gobad/benchmarks.go:71-75 | The document is ("uuid", u) followed by one pair per top-level key, in pool order, its value picked by the next draw. |
| Benchmarks.GenerateDocuments | gobad/benchmarks.go:69-76 | Exactly FACTOR documents. Document i carries the i-th uuid issued and the draws from position start + 10i. All are well formed. |
| Benchmarks.FixedReads | gobad/benchmarks.go:78-96 | Scenarios 0-2 send their blocks in order and report their three points in order. |
| Benchmarks.DrawnReads | gobad/benchmarks.go:98-126 | Scenarios 3-6 send their blocks in order, from consecutive stream positions, and report their four points in order. |
| Benchmarks.Writes | gobad/benchmarks.go:128-151 | Scenarios 7-9 send their blocks in order and report their three points. The 6 * FACTOR strings they take from the generator are distinct and new. `WritesFrom` chains their `PairsRun`s: each scenario starts where the previous one stopped, over the used set grown by the earlier pairs. |
| Benchmarks.Deletes | gobad/benchmarks.go:153-190 | Scenarios 10-13 act on the re-sliced pool: keys 0-1, then keys 2-3 with where clauses over `tlk[2:]`, then key 4's initial, then key 5's initial with where clauses over `tlk[5:]`. They report four points in order. |
| Benchmarks.GeneratePools | gobad/benchmarks.go:65-67 | A fresh generator over the fixed alphabet hands out ten keys and ten values, each ten characters long and all twenty distinct. `PoolsFrom`: the keys are the `StringsRun` from the entry position, and the values the `StringsRun` from where the keys stopped, over the keys as used set. |
| Benchmarks.PrepareDocuments | gobad/benchmarks.go:65-76 | The pools of GeneratePools, then the FACTOR documents built over them from the position where the pools stopped. |
| Benchmarks.RunScenarios | gobad/benchmarks.go:78-190 | The fourteen scenarios send exactly their blocks, in order, and report exactly the fourteen points of ReportedAll. Every string the generator hands out is new. The writes are the `WritesFrom` run starting after scenario 6's draws, and the delete scenarios draw from where it stops. |
| Benchmarks.BenchMetadataQuery | gobad/benchmarks.go:63-191 | The documents, the full call sequence and the fourteen points in fixed order. Every stream position is fixed: the pools by `PoolsFrom`, the documents from where the pools stop, the reads at consecutive positions, the writes by `WritesFrom` and the deletes from where the writes stop. The keys, the values and the 6 * FACTOR random pairs of one run are all distinct. |
| Benchmarks.BenchRun | gobad/benchmarks.go:24-28 | A new provider is initialised, then receives the record scenario's inserts before any document call. The run appends exactly its 15 points, record scenario first, and takes exactly FACTOR uuids, one per document. |
| Benchmarks.BenchmarksEntry | gobad/benchmarks.go:14-32 | Performs FACTOR / 10 runs with indices 0, 1, ... in increasing order. The report is the concatenation of the runs' points, then it is written out. FACTOR uuids are taken per run, so FACTOR * RUNS in all. |
| MongoProvider.KVListToBson | gobad/provider_mongo.go:98-104 | The loop builds exactly BsonOf(list), the left fold in which each pair sets its key. The empty list gives the empty map. |
| MongoProvider.BsonOfKeys | gobad/provider_mongo.go:100-102 | The keys of KVList2Bson(l) are exactly the keys occurring in l. |
| MongoProvider.BsonOfLastWins | gobad/provider_mongo.go:100-102 | KVList2Bson(l) maps each key to the value of the last pair with that key: later pairs override earlier ones. |
| MongoProvider.ListsAllButStep | gobad/provider_mongo.go:91-93 | Appending one more entry of the map keeps the list exact for the entries visited so far. |
| MongoProvider.BsonToKVList | gobad/provider_mongo.go:89-95 | The result has exactly `len(doc)` pairs. Each key appears once, and each pair (k, v) has doc[k] == v. The order is unspecified. |
| MongoProvider.BsonRoundTripPermutes | gobad/provider_mongo.go:89-104 | For a list without repeated keys, every list Bson2KVList may return for KVList2Bson(l) is a permutation of l. |
| MongoProvider.RemoveKeys | gobad/provider_mongo.go:197-200 | The `$unset` map has exactly the given keys, each mapped to "". The same loop appears at lines 207-210. |
| ExplodedProvider.PairsOfAt | gobad/provider_mongo_exploded.go:40-46 | Collecting pairs keeps the length, and pair i is record i's (key, value). |
| ExplodedProvider.ExplodedOfAt | gobad/provider_mongo_exploded.go:50-66 | Exploding keeps the length, and record i is (l[i].0, l[i].1, docid). |
| ExplodedProvider.PairsOfExploded | gobad/provider_mongo_exploded.go:40-66 | Round trip: ExplodedBson2KVList(KVList2ExplodedBsonOne(l, d)) == l, and likewise with KVList2ExplodedBsonMany. |
| ExplodedProvider.ExplodedOfPairs | gobad/provider_mongo_exploded.go:40-66 | Round trip in the other direction: records that all carry one docid are the explosion of their pairs. |
| ExplodedProvider.ExplodedBsonToKVList | gobad/provider_mongo_exploded.go:40-46 | Keeps length and order. Pair i is (docs[i].key, docs[i].value). |
| ExplodedProvider.AppendExploded | gobad/provider_mongo_exploded.go:62-64 | The append loop adds the list's records, in order, after what is already there. |
| ExplodedProvider.KVListToExplodedMany | gobad/provider_mongo_exploded.go:50-56 | Same length as the list. Record i is {key: l[i][0], value: l[i][1]} with no docid. |
| ExplodedProvider.KVListToExplodedOne | gobad/provider_mongo_exploded.go:60-66 | Same length as the list. Record i is {key: l[i][0], value: l[i][1], docid: d}. |
| ExplodedProvider.GoIntString | gobad/provider_mongo_exploded.go:146 | `string(i)` is one rune: code point i below the surrogates, U+FFFD for negatives, surrogates and values above U+10FFFF. |
| ExplodedProvider.InsertDocumentRecords | gobad/provider_mongo_exploded.go:144-153 | The records written are exactly InsertedRecords(docs): document by document, pair by pair. |
| ExplodedProvider.InsertedRecordsLength | gobad/provider_mongo_exploded.go:144-153 | InsertDocument writes sum(len(doc)) records. |
| ExplodedProvider.InsertedRecordsAt | gobad/provider_mongo_exploded.go:144-153 | Pair j of document i is record TotalPairs(docs[..i]) + j and carries docid string(i). This is document-then-pair order. |
| ExplodedProvider.InsertOneDocument | gobad/provider_mongo_exploded.go:146 | In a one-document call every record gets docid "\0", which is string(0). |
| ExplodedProvider.SetKVDocumentUniqueRecords | gobad/provider_mongo_exploded.go:164-167 | Exactly `len(kv)` records, pair i's at position i, all carrying the docid found for the uuid. |
| ExplodedProvider.Row | gobad/provider_mongo_exploded.go:184-186 | The inner loop adds one record per docid. |
| ExplodedProvider.SetKVDocumentsRecords | gobad/provider_mongo_exploded.go:182-187 | The nested loops build exactly CrossRecords(kv, docids), with `len(kv) * len(docids)` records. The same construction appears at lines 202-207. |
| ExplodedProvider.CrossRecordsLength | gobad/provider_mongo_exploded.go:182-187 | The cross product has `len(kv) * len(docids)` records. |
| ExplodedProvider.CrossRecordsAt | gobad/provider_mongo_exploded.go:182-187 | Record i * len(docids) + j sets pair i in document docids[j]: one record per (pair, docid), in kv-major order. |

## Left out

- **Database and network operations.**
  - No MongoDB session, query, `Distinct`, `Update`, `UpdateAll`, `RemoveAll` or `Initialize` call is modelled. Provider-side semantics are not visible in this code.
  - In the driver, the providers are a logging provider, and the contracts speak about the calls it receives.
  - Dafny traits are not used, so the two provider interfaces become one `Call` datatype and one logging class.
- **Regular expressions.** Matching `$regex`, `regexp` and `QuoteMeta` is not modelled. A glob is only the string the driver builds.
- **Provider quirks inside the I/O paths.** The exploded provider's `GetDocumentSetWhere` and `GetDocumentSetValueGlob` read a field their `$group` stage does not produce, and `GetKeysUpToSlash` starts its result with 1024 empty strings. Both sit in database code that is not part of this model.
- MongoProvider.BsonToKVList: `BsonM` maps keys to strings by its type, so Go's `v.(string)` assertion always succeeds here. In Go a `bson.M` holds values of any type, and the assertion panics on a value that is not a string. Mongo gives every stored document an `_id` of type `bson.ObjectId`, so each document that `GetDocumentUnique`, `GetDocumentSetWhere` and `GetDocumentSetValueGlob` fetch and pass to this conversion would make it panic. That panic is not modelled.
- ExplodedProvider.ExplodedBsonToKVList: a record's key and value are strings by type, so the `doc["key"].(string)` and `doc["value"].(string)` assertions always succeed here. A stored record without either field, or with a non-string one, would make Go panic. That panic is not modelled.
- **Output and process control.** JSON encoding, the result file, `log.Printf`, `log.Panicf`, `fmt.Printf` every ten runs, and `os.Exit` are left out.
- Reporting.Reporter.Fatal: takes the already formatted message. `fmt.Sprintf` formatting is not modelled, and the exit that follows the write-out is not modelled.
- Reporting.Reporter.WriteOut: returns the document it would encode, instead of creating `benchmarkresult.json`.
- Reporting.Elapsed: exact real arithmetic. float64 rounding is not modelled, and neither is the nanosecond `Duration` type.
- **Randomness.**
  - The seed `time.Now().Unix()` and `rand.Seed` are not modelled. The stream is an oracle `draw`, and the driver reads the clock once for the seed.
  - `rand.Intn(n)` is one draw reduced modulo n. Go's rejection sampling is not modelled.
  - `rand.Int` is taken as on a 64-bit platform.
  - `uuid.New` is an oracle that hands out 36-character strings.
- Generator.StringGenerator.RandomString: requires the oracle assumption `Spread`, which is used only for termination. From every stream position, the retry samples must eventually hold more distinct strings than the generator has handed out. A uniformly random stream has this property with probability 1, as long as the count asked for does not exceed the number of strings of that length, but a stream that repeats one sample forever does not, and on such a stream the Go loop runs forever. Which string is returned does not depend on `Spread`. The budget counts every string in `used`, of any length, so a generator that had handed out strings of other lengths could need more than the Go loop does; the benchmark asks only for ten-character strings, so its calls are not affected.
- Generator.StringGenerator.GenerateNRandomStrings: requires number >= 0. For a negative count Go's `make` panics, and that panic is not modelled.
- Benchmarks.BenchMetadataQuery: requires `Spread` for all the strings one run takes. The requirement is only on the oracle, like RandomString's.
- Benchmarks.BenchRun: the document scenarios' calls are only named as `documentCalls`. Their content is stated by BenchMetadataQuery's contract, not repeated here. The stream position after the run is not stated: it depends on how many retries the string generator took, which BenchMetadataQuery states through its ghost positions.
- Benchmarks.BenchmarksEntry: states the points each run reports, in order, and the run count. It does not restate each run's provider calls, which BenchRun and BenchMetadataQuery state. The stream position after the loop is not stated either, for the same reason as BenchRun's.
- **Strings and bytes.** Go strings are bytes; here they are sequences of characters. `string(rec[i][1][0])` is the first character. This is the same byte for the ASCII alphabet and uuids that the documents hold.
- **Source inconsistency.**
  - `benchmarks.go` belongs to package `main` while the other files are package `gobad`.
  - It calls `provider.Initialize()` with no argument, as the interfaces declare, while `ProviderMongo.Initialize` takes parameters.
  - The model follows the interfaces.
- **Not part of this model.**
  - gobad/operations.go: an unused interface.
  - aws/configure_aws.py: cloud provisioning.
  - gobad/analysis_mongo.py: plotting.
  - The record-store queries other than `InsertRecord`: the driver never calls them.
