# weaviate-chaos-engineering: version windows, Raft sync polling and the flush-and-switch import

This project models three pieces of logic from the chaos-engineering pipelines of Weaviate and
proves properties about them:

- **Upgrade journey version list** (`apps/upgrade-journey/versions.go`). The GitHub release tags are
  reduced to `vX.Y.Z` releases. These are sorted ascending and cut to the window that starts at a
  minimum version and stops before a ceiling. They are then printed as `X.Y.Z`, and the target
  version is appended. Module `Versions`.
- **Raft cluster sync check** (`apps/upgrade-journey-raft/check_cluster_sync.py`). The node count is
  read once. The statistics endpoint is then polled once per tick, keeping the last applied index
  each node reported. The check stops when as many nodes as the cluster has agree on one index,
  and gives up after 2400 ticks. Module `ClusterSync`.
- **Flush-and-switch import** (`apps/flush-and-switch-failed/flush_and_switch_failed.py`):
  - content is split into 825-character chunks, and one paragraph object is built per chunk, with
    its deterministic id;
  - the import loop checks each object's existence and creates it when missing, recording the
    articles whose processing raised;
  - batch deletion, the existence and duplicate checks, and reading one integer sample from the
    Prometheus metrics page.

  Modules `FlushAndSwitch` and `Metrics`.

Shared pieces:

- `Wrappers`: Option, Result, Outcome.
- `Seqs`: list-comprehension filtering, flattening, duplicates.
- `Strings`: decimal digits, `str.split`, `startswith`, `in` and `replace`.

The HTTP endpoints, the Weaviate client and `uuid3` are inputs of the model:

- the release tags, the discovery answer and a statistics answer per tick;
- a `Client` object that holds the stored ids and records its calls;
- a fault per data-file line saying where its processing raises;
- a function parameter for `uuid3`.

## Model

| member | source | states |
|---|---|---|
| Versions.MustParseInt | apps/upgrade-journey/versions.go:118-124 | A run of decimal digits reads as a non-negative integer |
| Versions.MustParseIntOfPrinted | apps/upgrade-journey/versions.go:118-124 | Reading the decimal spelling of any natural number gives that number back |
| Versions.ParseDotted | apps/upgrade-journey/versions.go:168-179 | Defines matching `^([0-9]+)\.([0-9]+)\.([0-9]+)$` and reading its three groups; an accepted string has exactly three dot-separated parts and gives a non-negative version |
| Versions.ParseDottedMatchesPattern | apps/upgrade-journey/versions.go:168-179 | A string parses exactly when it is three digit runs joined by dots, and then the version holds the three runs' values |
| Versions.MaybeParseSingleSemverWithoutLeadingV | apps/upgrade-journey/versions.go:167-180 | ok holds exactly when the input is `D.D.D` with digit runs D. The version is the three values then, and the zero version otherwise; an accepted version is never negative |
| Versions.ParseSingleSemverWithoutLeadingV | apps/upgrade-journey/versions.go:158-165 | Fails exactly when the maybe-parse says not ok (the panic); otherwise returns the maybe-parse's version |
| Versions.ParseReleaseTag | apps/upgrade-journey/versions.go:75-90 | Defines the tag regular expression as a `v` followed by the dotted shape; an accepted tag starts with `v` and gives a non-negative version |
| Versions.ReleaseTagMatchesPattern | apps/upgrade-journey/versions.go:75-90 | A tag is kept exactly when it is `v` followed by three dot-separated digit runs, and then it yields their values |
| Versions.ReleaseTagCharacters | apps/upgrade-journey/versions.go:75 | After the leading `v`, a kept tag holds only digits and dots |
| Versions.PreReleaseAndBareTagsDropped | apps/upgrade-journey/versions.go:72-82 | A release-candidate tag and a tag without the `v` are both dropped |
| Versions.ReleaseVersions | apps/upgrade-journey/versions.go:74-96 | Defines the tag filter: the versions of the tags that match, in tag order, never more than the tags and each non-negative |
| Versions.ReleaseVersionsAreMatchingTags | apps/upgrade-journey/versions.go:74-96 | The parsed list is as long as the list of matching tags, in the same order, each entry being its tag's version |
| Versions.ParseSemverList | apps/upgrade-journey/versions.go:74-96 | The loop with `continue` and the output cursor yields exactly the matching tags' versions in input order (each non-negative, no more than the input) |
| Versions.LargerOrEqual | apps/upgrade-journey/versions.go:106-116 | Holds exactly when each of major, minor and patch is at least the other's, the three early returns read as a componentwise comparison |
| Versions.LargerOrEqualIsAPartialOrder | apps/upgrade-journey/versions.go:106-116 | The comparison is reflexive, transitive and antisymmetric |
| Versions.LargerOrEqualIsNotTotal | apps/upgrade-journey/versions.go:106-116 | 1.0.0 and 0.5.0 are incomparable: neither is larger-or-equal to the other |
| Versions.LargerOrEqualImpliesNotBefore | apps/upgrade-journey/versions.go:106-135 | A version that is larger-or-equal to another never sorts strictly before it |
| Versions.SortsBefore | apps/upgrade-journey/versions.go:127-135 | Defines the comparator given to `sort.Slice`: major, then minor, then patch. A version never sorts before itself, and a version that sorts before another has a major no larger |
| Versions.SortVersions | apps/upgrade-journey/versions.go:127-135 | The result is ascending in the lexicographic major/minor/patch order and is a permutation of the input |
| Versions.SortsBeforeIsTotal | apps/upgrade-journey/versions.go:127-135 | Two versions neither of which sorts before the other are equal, so the sort order is total |
| Versions.SortedPermutationIsUnique | apps/upgrade-journey/versions.go:127-135 | Any two ascending permutations of the same list are equal, so an unstable sort gives the same result |
| Versions.TrimWindow | apps/upgrade-journey/versions.go:142-155 | Every kept version is at least the minimum, not larger-or-equal to the ceiling, and was in the input |
| Versions.StopIndex | apps/upgrade-journey/versions.go:143-149 | The loop stops at the first version that is both at least the minimum and at least the ceiling, or at the end |
| Versions.TrimWindowIsFilteredPrefix | apps/upgrade-journey/versions.go:142-155 | The window is the prefix before the stop index, filtered to the versions at least the minimum |
| Versions.TrimWindowSorted | apps/upgrade-journey/versions.go:142-155 | Trimming a sorted list keeps it sorted |
| Versions.MinimumSkipsLaterMinorWithSmallerPatch | apps/upgrade-journey/versions.go:144-146 | 1.3.0 sorts after the minimum 1.2.3 but is skipped, since its patch is smaller |
| Versions.CeilingOnlyStopsAfterMinimumCheck | apps/upgrade-journey/versions.go:144-149 | A version above the ceiling that fails the minimum test is skipped and does not end the loop |
| Versions.TrimSorted | apps/upgrade-journey/versions.go:140-155 | The loop with `continue`, `break` and the output cursor computes exactly the trim window |
| Versions.SortSemverAndTrimToMinimum | apps/upgrade-journey/versions.go:126-156 | Fails exactly when the minimum or the ceiling is not `D.D.D`; otherwise returns the trim window of the sorted versions, which is ascending |
| Versions.FormatSemver | apps/upgrade-journey/versions.go:185 | Defines the `%d.%d.%d` printing; a version with no negative component prints as digits and dots only |
| Versions.FormatThenParse | apps/upgrade-journey/versions.go:182-188 | A printed non-negative version parses back to itself |
| Versions.FormatNegativeDoesNotParse | apps/upgrade-journey/versions.go:182-188 | A version with a negative major prints as text that does not parse |
| Versions.ToStringList | apps/upgrade-journey/versions.go:182-188 | One `%d.%d.%d` string per version, in order, each parsing back to its version |
| Versions.BuildVersionList | apps/upgrade-journey/versions.go:21-37 | Fails exactly when the bounds do not parse. Otherwise gives the ascending window of release versions, each at least min and below max, printed, followed by the target |
| ClusterSync.NodesCount | apps/upgrade-journey-raft/check_cluster_sync.py:7-14 | -1 exactly when discovery failed, otherwise the number of listed nodes |
| ClusterSync.InSyncIffAllEqual | apps/upgrade-journey-raft/check_cluster_sync.py:24-28 | Having exactly one distinct index is the same as being non-empty with all indices equal |
| ClusterSync.EmptyIsNotInSync | apps/upgrade-journey-raft/check_cluster_sync.py:24-28 | No nodes is not in sync |
| ClusterSync.IsInSync | apps/upgrade-journey-raft/check_cluster_sync.py:24-28 | The loop that collects the distinct indices answers true exactly when there is one distinct index, that is, when the map is non-empty and all its indices are equal |
| ClusterSync.CheckClusterSync | apps/upgrade-journey-raft/check_cluster_sync.py:31-52 | Which of the four ways the poll ends in, together with the nodes seen and the number of reads and sleeps. A failed discovery returns before any read. Synced means the first converged tick with every read before it succeeding. ReadFailed means the first failed read. TimedOut means after 2400 reads |
| ClusterSync.Observed | apps/upgrade-journey-raft/check_cluster_sync.py:40-44 | Defines the `nodes` map after t ticks: each answered read sets its node's entry and a later answer from the same node overwrites it. Its keys and values are stated by `ObservedKeys` and `LastWriteWins` |
| ClusterSync.ObservedKeys | apps/upgrade-journey-raft/check_cluster_sync.py:40-44 | A node appears in the remembered map exactly when some read so far came from it |
| ClusterSync.LastWriteWins | apps/upgrade-journey-raft/check_cluster_sync.py:43-44 | A node's remembered index is the one from its latest read |
| ClusterSync.ObservedGrows | apps/upgrade-journey-raft/check_cluster_sync.py:40-44 | Nodes are never forgotten, and each tick adds at most one |
| ClusterSync.TooManyNodesNeverConverge | apps/upgrade-journey-raft/check_cluster_sync.py:40-47 | Once more nodes than the count have answered, no later tick passes the exit test, so the check cannot return synced on such a tick: a run still going then times out or fails a read |
| ClusterSync.LoneNodeConvergesOnlyForOneReplica | apps/upgrade-journey-raft/check_cluster_sync.py:45-47 | With a single node seen, convergence holds exactly when the count is 1 |
| ClusterSync.FirstTickAndEmptyCluster | apps/upgrade-journey-raft/check_cluster_sync.py:40-47 | After the first read only a one-node cluster converges; a zero count never does |
| ClusterSync.ThreeNodesConvergeOnThirdTick | apps/upgrade-journey-raft/check_cluster_sync.py:40-47 | Three nodes answering in turn with one index converge on tick 3 and not before |
| ClusterSync.MismatchedIndicesDoNotConverge | apps/upgrade-journey-raft/check_cluster_sync.py:24-28 | Three nodes whose latest indices differ are not converged |
| FlushAndSwitch.Chunks | apps/flush-and-switch-failed/flush_and_switch_failed.py:108-111 | Each chunk is non-empty and at most n long, and all but the last are exactly n long |
| FlushAndSwitch.ChunksConcatenate | apps/flush-and-switch-failed/flush_and_switch_failed.py:108-111 | The chunks concatenate back to the input, so no element is lost, repeated or reordered |
| FlushAndSwitch.ChunkCountBounds | apps/flush-and-switch-failed/flush_and_switch_failed.py:108-111 | The number of chunks is the ceiling of the length divided by n |
| FlushAndSwitch.ChunkIsSlice | apps/flush-and-switch-failed/flush_and_switch_failed.py:110-111 | Chunk k is the slice `lst[k*n : k*n+n]`, cut at the end |
| FlushAndSwitch.ChunkCount | apps/flush-and-switch-failed/flush_and_switch_failed.py:117 | Empty content gives no chunk, so no object. Up to 825 characters give one chunk equal to the content; more give at least two |
| FlushAndSwitch.ArticleKey | apps/flush-and-switch-failed/flush_and_switch_failed.py:104 | The uuid key is the title with spaces replaced: just as long and free of spaces |
| FlushAndSwitch.ArticleKeysConflateSpaces | apps/flush-and-switch-failed/flush_and_switch_failed.py:104 | "New York" and "New_York" get the same key |
| FlushAndSwitch.ParagraphKey | apps/flush-and-switch-failed/flush_and_switch_failed.py:137-140 | Defines the key a chunk's uuid is derived from: the article key and `___paragraph___`, then the paragraph count and the chunk index written one after the other; the key starts with the article key and the infix |
| FlushAndSwitch.ChunkKeysDiffer | apps/flush-and-switch-failed/flush_and_switch_failed.py:134-141 | Two chunks of one paragraph get different keys |
| FlushAndSwitch.ParagraphKeysCollide | apps/flush-and-switch-failed/flush_and_switch_failed.py:137-140 | Count 1 chunk 12 and count 11 chunk 2 get the same key, because count and index are concatenated without a separator |
| FlushAndSwitch.AddArticleToBatch | apps/flush-and-switch-failed/flush_and_switch_failed.py:100-105 | The article object holds the title and the Article collection, and its id is uuid3 of the space-replaced title |
| FlushAndSwitch.ParagraphObjectsShape | apps/flush-and-switch-failed/flush_and_switch_failed.py:116-144 | A paragraph whose title has a colon yields nothing. Otherwise one object per chunk: the contents concatenate back to the paragraph, and each object carries its chunk, order, word count, title, collection and id |
| FlushAndSwitch.ArticleObjectsByParagraph | apps/flush-and-switch-failed/flush_and_switch_failed.py:114-145 | The article's objects are the paragraphs' objects in paragraph order |
| FlushAndSwitch.AddParagraphToBatch | apps/flush-and-switch-failed/flush_and_switch_failed.py:114-145 | The loop over the paragraphs appends each paragraph's objects in paragraph order, so the result is exactly the record's paragraph objects |
| FlushAndSwitch.ParagraphToBatch | apps/flush-and-switch-failed/flush_and_switch_failed.py:117-144 | The loop over one paragraph's chunks, with its `continue`, builds exactly that paragraph's objects: none for a wiki paragraph, one per chunk otherwise |
| FlushAndSwitch.Client.constructor | apps/flush-and-switch-failed/flush_and_switch_failed.py:160-205 | A client starts with the given stored ids and no calls |
| FlushAndSwitch.Client.Create | apps/flush-and-switch-failed/flush_and_switch_failed.py:192 | Records the call and stores the id unless the call raises |
| FlushAndSwitch.Client.CreateObjects | apps/flush-and-switch-failed/flush_and_switch_failed.py:203 | Records the call; the stored ids are unchanged |
| FlushAndSwitch.Client.Flush | apps/flush-and-switch-failed/flush_and_switch_failed.py:204 | Records the call; the stored ids are unchanged |
| FlushAndSwitch.Client.DeleteObjects | apps/flush-and-switch-failed/flush_and_switch_failed.py:210-217 | Records the call and removes the listed ids |
| FlushAndSwitch.ObjectStep | apps/flush-and-switch-failed/flush_and_switch_failed.py:187-192 | Defines the handling of one paragraph object: its id is listed, and it is created unless stored. The failed list and counter are untouched. It raises exactly on an existence-check fault, or a create fault for an id not yet stored |
| FlushAndSwitch.RunObjects | apps/flush-and-switch-failed/flush_and_switch_failed.py:186-192 | Defines the loop over a record's objects, stopping at the first raise. The listed ids only grow, by at most one per object, and the failed list and counter are untouched |
| FlushAndSwitch.LineStep | apps/flush-and-switch-failed/flush_and_switch_failed.py:170-199 | Defines one line: a record without paragraphs or with a colon in its article id is skipped; otherwise its objects are handled, and when that raises the article id is recorded as failed and the failure counter rises. Its properties are stated by the `LineStep` and `RunLines` lemmas below |
| FlushAndSwitch.RunLines | apps/flush-and-switch-failed/flush_and_switch_failed.py:169-199 | Defines the import loop: the lines handled one after another in file order. Its properties are stated by the `RunLines` lemmas and `ImportAccounting` |
| FlushAndSwitch.RunObjectsStopsAtRaise | apps/flush-and-switch-failed/flush_and_switch_failed.py:186-196 | Once an object raises, the rest of the record's objects are not processed |
| FlushAndSwitch.ImportParagraphObjects | apps/flush-and-switch-failed/flush_and_switch_failed.py:186-192 | The inner loop's list, counter, stored ids and calls are those of the record step; it reports whether the record raised |
| FlushAndSwitch.ImportLine | apps/flush-and-switch-failed/flush_and_switch_failed.py:170-199 | Processing one line moves the import state to the next step of the reference run |
| FlushAndSwitch.ImportDataWithoutCrefs | apps/flush-and-switch-failed/flush_and_switch_failed.py:160-205 | The returned lists, the counters, the stored ids and the calls equal the reference run over the lines, followed by the final create_objects and flush |
| FlushAndSwitch.RunObjectsAccounted | apps/flush-and-switch-failed/flush_and_switch_failed.py:186-192 | The per-record loop keeps the bookkeeping invariant. No stored id is removed, and every added id was listed and got a create call. Each create call is for a listed id that was not stored at the start. The success counter counts the create calls, the failure counter the failed articles |
| FlushAndSwitch.RunObjectsSaturated | apps/flush-and-switch-failed/flush_and_switch_failed.py:186-192 | A record that does not raise keeps every listed id stored. Every create call's id stays stored, and no id is created twice |
| FlushAndSwitch.RunObjectsBeforeFault | apps/flush-and-switch-failed/flush_and_switch_failed.py:186-192 | Before the faulty object nothing raises, and every object's id is listed in order |
| FlushAndSwitch.LineStepAccounted | apps/flush-and-switch-failed/flush_and_switch_failed.py:170-199 | Any line, faulty or not, keeps the bookkeeping invariant |
| FlushAndSwitch.LineStepFaultFree | apps/flush-and-switch-failed/flush_and_switch_failed.py:170-192 | A line without a fault lists exactly its objects' ids and adds no failed article |
| FlushAndSwitch.LineStepSaturated | apps/flush-and-switch-failed/flush_and_switch_failed.py:170-192 | A line without a fault leaves every listed id stored, and no id created twice |
| FlushAndSwitch.RunLinesAccounted | apps/flush-and-switch-failed/flush_and_switch_failed.py:169-199 | Any run of lines keeps the bookkeeping invariant |
| FlushAndSwitch.RunLinesFaultFree | apps/flush-and-switch-failed/flush_and_switch_failed.py:169-192 | A fault-free run of lines lists exactly the emitted ids in order and adds no failed article |
| FlushAndSwitch.RunLinesSaturated | apps/flush-and-switch-failed/flush_and_switch_failed.py:169-192 | A fault-free run of lines leaves every listed id stored, and no id created twice |
| FlushAndSwitch.NewIdsCounted | apps/flush-and-switch-failed/flush_and_switch_failed.py:188-192 | The success counter is at least the number of newly stored ids. When every listed id is stored and none was created twice, it is exactly that number |
| FlushAndSwitch.ImportAccounting | apps/flush-and-switch-failed/flush_and_switch_failed.py:160-205 | Any import keeps the bookkeeping invariant, and its success counter is at least the number of newly stored ids. Without faults the import lists every emitted id in order and reports no failure. Every listed id is then stored, and the counter equals the number of newly stored ids |
| FlushAndSwitch.ImportIsIdempotent | apps/flush-and-switch-failed/flush_and_switch_failed.py:186-192 | Repeating a fault-free import creates nothing and makes no create calls, lists the same ids and leaves the stored ids unchanged |
| FlushAndSwitch.RunLinesConcat | apps/flush-and-switch-failed/flush_and_switch_failed.py:169-199 | Importing a + b is importing a and then b |
| FlushAndSwitch.FailuresStayWithTheirLine | apps/flush-and-switch-failed/flush_and_switch_failed.py:193-199 | Fault-free lines after a failure add no failed article ids, only their own paragraph ids |
| FlushAndSwitch.ExistsFaultStopsTheRecord | apps/flush-and-switch-failed/flush_and_switch_failed.py:186-196 | When the existence check of object j raises, the ids up to j are listed, the article id is recorded once and the failure counter rises by one |
| FlushAndSwitch.CreateFaultStopsTheRecord | apps/flush-and-switch-failed/flush_and_switch_failed.py:189-199 | When the create call of object j raises for an id not stored, the ids up to j are listed, the success counter has already risen for it, one create call for it is recorded and the id is not stored; the article id is recorded once and the failure counter rises by one |
| FlushAndSwitch.CategorySkipNeverFires | apps/flush-and-switch-failed/flush_and_switch_failed.py:172-178 | The `':'` test looks at the article's uuid text, which holds no colon; so an article is imported exactly when it has paragraphs |
| FlushAndSwitch.DeleteUuids | apps/flush-and-switch-failed/flush_and_switch_failed.py:208-218 | The delete call is issued once per uuid, each naming the whole list, and afterwards none of the listed ids is stored |
| FlushAndSwitch.Client.Exists | apps/flush-and-switch-failed/flush_and_switch_failed.py:189 | Defines the client's `data_object.exists` call: the id is among the stored ids. The import loop and `CheckUUIDExists` both ask it |
| FlushAndSwitch.CheckUUIDExists | apps/flush-and-switch-failed/flush_and_switch_failed.py:221-225 | Asks `Client.Exists` and passes exactly when the id is stored. Otherwise it fails with the id, standing for the log line that names it plus the bare `raise` |
| FlushAndSwitch.CheckIfObjectsExist | apps/flush-and-switch-failed/flush_and_switch_failed.py:228-230 | Passes exactly when every id is stored; otherwise fails naming the first missing one |
| FlushAndSwitch.ImportedObjectsExist | apps/flush-and-switch-failed/flush_and_switch_failed.py:257-268 | After a fault-free import, every id of the deduplicated list, in whatever order, is stored, so the existence check passes |
| FlushAndSwitch.CheckForDuplicates | apps/flush-and-switch-failed/flush_and_switch_failed.py:243-246 | Returns the set of the ids, and reports exactly when some id occurs twice |
| FlushAndSwitch.DuplicatesAreReported | apps/flush-and-switch-failed/flush_and_switch_failed.py:243-246 | A list of six ids with three distinct values is reported, and its set has three elements |
| Metrics.MatchingLines | apps/flush-and-switch-failed/flush_and_switch_failed.py:272-274 | The kept lines are exactly the page lines that start with the metric name and contain the class label |
| Metrics.ParsePythonInt | apps/flush-and-switch-failed/flush_and_switch_failed.py:281-282 | Parses exactly an optional sign followed by digits. The value is the digits' decimal value, negated after a minus sign |
| Metrics.ParsePrintedInt | apps/flush-and-switch-failed/flush_and_switch_failed.py:281-282 | Printing any integer and parsing it gives it back |
| Metrics.SignAndLeadingZerosIgnored | apps/flush-and-switch-failed/flush_and_switch_failed.py:281-282 | A plus sign or a leading zero in front of digits does not change the value read, so `+007` reads as 7 |
| Metrics.GetMetric | apps/flush-and-switch-failed/flush_and_switch_failed.py:271-282 | Fails naming the lines unless exactly one line matches. When exactly one matches, the result is `ReadSampleValue` of that line, errors included. A value is returned only when that line has two space-separated parts and the second is an integer, and it is that integer |
| Metrics.ReadSampleValue | apps/flush-and-switch-failed/flush_and_switch_failed.py:278-282 | Succeeds exactly when the line splits into two parts on spaces with an integer second part, and then returns that integer. It fails naming the parts when there are not exactly two, and naming the value when it is not an integer |
| Metrics.SampleLineSplits | apps/flush-and-switch-failed/flush_and_switch_failed.py:278 | A sample line `name{class_name="C"} value` splits into the key and the printed value |
| Metrics.MatchingLinesOfPage | apps/flush-and-switch-failed/flush_and_switch_failed.py:272-274 | Splitting a page of single lines on newlines and filtering gives the comprehension over the page's lines |
| Metrics.OnlyTheSampleIsSelected | apps/flush-and-switch-failed/flush_and_switch_failed.py:273-274 | Around a sample line, lines that are not selected leave exactly the sample |
| Metrics.ReadsTheSample | apps/flush-and-switch-failed/flush_and_switch_failed.py:271-282 | A page where only one sample line matches yields that sample's value |
| Metrics.LongerNameMakesItAmbiguous | apps/flush-and-switch-failed/flush_and_switch_failed.py:273-276 | A metric whose name extends the requested one also matches the prefix test, so the lookup fails |

## Left out

- Integer width: Go's `int` and `strconv.Atoi` overflow, and Python's unbounded `int`, are all modelled as unbounded integers. The Atoi error panic on a digit run is reachable only by overflow, which the model does not capture, so `MustParseInt` requires digits and never fails.
- Versions.SortVersions: `sort.Slice` sorts the caller's slice in place. The model returns the sorted sequence. Because equal keys are equal versions, stability does not matter (`SortedPermutationIsUnique`).
- The GitHub release request and `getTargetVersion` are inputs: `BuildVersionList` takes the tags and the resolved ceiling as parameters. Their HTTP errors and the `log.Fatal` are not modelled.
- `parseSingleSemverWithoutLeadingV`'s panic is the `Err` result.
- ClusterSync: the HTTP calls are inputs. The connection and timeout exceptions `requests.get` can raise in `_get_nodes_count` and `_get_statistics` are not modelled. The inputs are the discovery answer and a total function giving one statistics answer per tick. The 0.5 s sleep and the logging are only counted or dropped. A non-200 statistics answer makes the code raise when it unpacks `None`; the model ends with `ReadFailed` there rather than tolerating the answer.
- FlushAndSwitch.Chunks: requires n > 0. Python raises there (a zero `range` step), and the only caller passes 825.
- Reading the data file, JSON decoding and a missing key in a record are not modelled; a record is a well-formed `Article`. A record with no paragraphs is skipped, as in the code.
- FlushAndSwitch.CheckUUIDExists: the bare `raise` raises a `RuntimeError` that does not carry the id; the model's `Fail(id)` stands for that raise together with the log line that names the id.
- FlushAndSwitch.Client.Create: a create call that raises is assumed not to have stored the object. A create that stores and then raises is not modelled.
- The Weaviate client keeps one set of stored ids for all collections; the class scoping of the delete filter is recorded in the call but not applied to the set.
- `uuid3` is a function parameter; its hashing is not modelled. Only its output's shape (hex and dashes) is used, by `CategorySkipNeverFires`.
- Python `set` iteration order is not modelled: `ImportedObjectsExist` holds for every ordering of the deduplicated ids.
- ImportDataWithoutCrefs: the returned counters are only logged by the source; the logging itself is not modelled.
- `int()` in `get_metric` is modelled on an optional sign and ASCII digits. Surrounding whitespace, underscores and non-ASCII digits are not accepted by the model.
- The metrics HTTP request is an input (the page text).
- `handle_results`, `create_backup`, `unzip`, `cleanup`, the flush-and-switch scenario itself and the other applications of the repository are not part of this model.
