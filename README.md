# pt2itp address splitting and conflation, modelled in Dafny

This project models three parts of pt2itp, the tool that matches address points to road
lines and builds interpolation features.

1. **The split worker** (`lib/map/split.js`):
   - `SplitFeat` validates a network cluster read from the database and converts its
     property records.
   - `Split.split` sorts the cluster's address points by house number, x and y, and looks
     up their records in point order. It then matches the points to the road lines and
     tags every interpolation feature with the cluster's names.
   - `Split.distribute` drops lines of length 0.001 or less. It gives every point to the
     first line at the smallest distance, and groups points and records into parallel
     per-line lists.
   - The message handler moves through init, batch and end.
2. **The conflate compare worker** (`lib/conflate/compare.js`):
   - `init` enforces an option whitelist and fills in defaults.
   - Lines are handed out round robin among the workers, and empty lines are not counted.
   - GeoJSON text sequence record separators are stripped (RFC 8142, section 2).
   - `create` builds records, and `modify` returns its first argument.
3. **The native conflate entry point** (`native/src/conflate/mod.rs`):
   - `ConflateArgs::new` supplies the defaults.
   - Arguments are defaulted and the required ones checked.
   - The context is defaulted.
   - `compare` decides between create and nothing.

Floating-point geometry, the database, the JavaScript collaborators the core calls
(explode, cluster break, duplicate check, interpolation, post-processing), parsing and the
address stream are parameters of the model. They are functions the caller supplies, so
every property holds for whatever they compute.

Files:
- `js_semantics.dfy`: the JavaScript behaviour the core depends on (`String.prototype.trim`,
  `parseInt`, `String(n)` for integers).
- `split_feat.dfy`: `SplitFeat`.
- `address_order.dfy`: the sort and the props build.
- `segment_matcher.dfy`: `distribute`.
- `split.dfy`: `Split`.
- `split_worker.dfy`: the split message handler.
- `compare_worker.dfy`: compare.js.
- `conflate_native.dfy`: mod.rs.

## Model

| member | source | states |
|---|---|---|
| JsSemantics.TrimEmptyIff | lib/map/split.js:141 | `s.trim().length` is non-zero exactly when `s` has a character that is not JavaScript white space |
| JsSemantics.ParseIntOfIntToString | lib/map/split.js:36 | `parseInt(String(n) + rest)` gives back `n` for every integer `n`, when `rest` does not continue the digits |
| JsSemantics.NatToStringValue | lib/map/split.js:36 | the decimal text `String(n)` writes reads back as `n` |
| SplitFeature.NormalizeKeepsNumber | lib/map/split.js:34-37 | converting a record keeps its id and props, and its numeric house number survives the round trip through `String` and `parseInt` |
| SplitFeature.CheckArgs | lib/map/split.js:28-31 | the constructor refuses a missing name, props, network or address, and reports the first one missing in that order (both directions of each case) |
| SplitFeature.NormalizeRecord | lib/map/split.js:34-37 | the id is kept, a present `props` object is kept and a missing one becomes `{}`, and a string number is kept as it is |
| SplitFeature.NormalizeProps | lib/map/split.js:34-37 | the key set of the lookup is unchanged; every record gets its number as a string and a props object (`{}` when missing) |
| SplitFeature.NewSplitFeat | lib/map/split.js:27-47 | fails exactly when an argument is missing, with that argument's error; otherwise a fresh feature holding the id, names, network, points and converted lookup |
| AddressOrder.Compare | lib/map/split.js:146-157 | the comparator orders by parsed number when both parse, then by x, then by y, and returns -1, 0 or 1 |
| AddressOrder.CompareTransitive | lib/map/split.js:146-157 | among points whose numbers all parse the comparator is transitive |
| AddressOrder.NaNBreaksTransitivity | lib/map/split.js:147-148 | with an unparsable number the comparator is not transitive: numbers 5, NaN and 3 at x = 0, 1 and 2 give a < b < c but c < a |
| AddressOrder.NaNExampleNumbers | lib/map/split.js:147 | `parseInt` reads "5" and "3" as numbers and "abc" as NaN |
| AddressOrder.AdjacentOrderedIsOrdered | lib/map/split.js:146-157 | when every number parses, neighbour order implies order between every pair |
| AddressOrder.OrderedIsLexOrdered | lib/map/split.js:146-157 | order by the comparator is lexicographic order on (number, x, y) |
| AddressOrder.SortCoordinates | lib/map/split.js:146-157 | the in-place sort leaves a permutation of the points whose neighbours are in comparator order, and in lexicographic (number, x, y) order when every number parses |
| AddressOrder.InsertAt | lib/map/split.js:146-157 | one insertion step keeps the multiset of points and extends the sorted prefix by one |
| AddressOrder.BuildProps | lib/map/split.js:159-162 | `props` has one entry per point, and entry `i` is the record keyed by point `i`'s id |
| SegmentMatcher.LongLines | lib/map/split.js:229-232 | the kept lines are exactly the input lines longer than 0.001 |
| SegmentMatcher.LongLinesAppend | lib/map/split.js:229-232 | the filter keeps the original order (it distributes over concatenation) |
| SegmentMatcher.LongLinesIdempotent | lib/map/split.js:229-232 | filtering an already filtered network changes nothing |
| SegmentMatcher.FirstMinIsFirstMinimum | lib/map/split.js:237-250 | the strict-`<` scan from an infinite distance picks an index with the smallest distance, and every earlier line is strictly farther |
| SegmentMatcher.FirstMinUnique | lib/map/split.js:247-249 | a later line at an equal distance never wins: the lowest minimum is the only possible answer |
| SegmentMatcher.NearestLine | lib/map/split.js:237-250 | the inner loop returns the first-minimum line of the point, and no line when the network is empty |
| SegmentMatcher.ChoicesAreNearest | lib/map/split.js:242-250 | every point is matched to the lowest-index nearest line, and to none exactly when no line survived |
| SegmentMatcher.GatherIsReference | lib/map/split.js:252-255 | pushing point by point into the sparse per-line arrays builds, for each line, the points that chose it in input order, and a hole where none did |
| SegmentMatcher.GatherConserves | lib/map/split.js:252-255 | every matched point lands in exactly one list |
| SegmentMatcher.PushAtAddsOne | lib/map/split.js:252-255 | a push into a JavaScript array, past its end or not, adds exactly one item |
| SegmentMatcher.SegmentsAreGroups | lib/map/split.js:258-266 | one entry per line index up to the largest chosen one. Entry `i` carries line `i` and the points and records of the points that chose it, index-aligned and in input order, or `null` and `null` when none did. No lines gives no entries |
| SegmentMatcher.SegmentsConserve | lib/map/split.js:252-258 | with at least one line the group sizes add up to the number of points |
| SegmentMatcher.Choices | lib/map/split.js:243-250 | one choice per point: the first line at the smallest distance, as `FirstMin` of its distances |
| SegmentMatcher.Segments | lib/map/split.js:225-268 | one entry per index up to the highest chosen line, no more than the lines; entry `i` holds line `i` and the points and records gathered for it |
| SegmentMatcher.Zip | lib/map/split.js:258-266 | one entry per gathered index, holding that index's points, records and line |
| SegmentMatcher.Cluster | lib/map/split.js:234-256 | the point loop builds the address and number lists as specified |
| SegmentMatcher.Distribute | lib/map/split.js:225-269 | replaces `network.features` by the long lines in order (the caller sees it) and returns the grouped segments |
| MapSplit.HasDisplayNameIff | lib/map/split.js:141 | a cluster is processed exactly when one display name has a non-white-space character |
| MapSplit.FilterNames | lib/map/split.js:197-200 | the kept names are exactly those with a non-empty display, in order |
| MapSplit.FilterNamesIdempotent | lib/map/split.js:197-200 | filtering again for each later feature changes nothing |
| MapSplit.KeptNamesNonEmpty | lib/map/split.js:141 | a cluster that passes the guard keeps at least one name |
| MapSplit.Tag | lib/map/split.js:202-203 | the feature's geometry is kept, `carmen:text` is the names, and `carmen:geocoder_stack` is the country exactly when one is set |
| MapSplit.GroupLinesAreLong | lib/map/split.js:175-189 | on every path (no duplicates, clusters broken, break declined) no segment carries a line of length 0.001 or less |
| MapSplit.UniqueNumbersKeepAllPoints | lib/map/split.js:187-189 | when the duplicate check reports none there is a single list, and it holds every point when a line survives |
| MapSplit.TaggedFeatures | lib/map/split.js:191-208 | every feature is named by the non-empty displays and carries a set country; there is a feature exactly when `interpolize` accepts some list |
| MapSplit.AnyInterpolatedIff | lib/map/split.js:193-197 | `feat.name` is filtered exactly when some list yields a feature |
| MapSplit.Split.constructor | lib/map/split.js:120-130 | output goes to standard output unless the `stdout` option is given as false |
| MapSplit.Split.SplitCluster | lib/map/split.js:138-216 | skips a cluster with no display name, untouched, whether or not its points have records. Otherwise it sorts the points in place (permutation, comparator order), looks up the records, matches and breaks as `Groups` states, and writes or returns the tagged, post-processed features. `feat.name` is filtered once a feature is made |
| MapSplit.Groups | lib/map/split.js:164-189 | a single list when the duplicate check reports none or `Cluster.break` declines; otherwise one list per proposed cluster, matched over that cluster's own split network |
| MapSplit.DistributePart | lib/map/split.js:181-183 | the lists of one proposed cluster, as `PartSegments` states |
| MapSplit.MatchGroups | lib/map/split.js:164-189 | the duplicate check chooses between the lists of the clusters `Cluster.break` proposes and one list over the already filtered or the freshly split network |
| MapSplit.TagGroups | lib/map/split.js:191-208 | the loop builds the post-processed tagged features and filters the names as specified |
| MapSplit.BreakGroups | lib/map/split.js:181-183 | one list per proposed cluster, each matched over its own split network |
| SplitWorker.ProcessedIds | lib/map/split.js:277-278 | null and 0 ids are not processed; every other id is, in message order |
| SplitWorker.LookupOf | lib/map/split.js:96-99 | the lookup has a record for exactly the ids present, each stored under its own id, and the last record of the row is the one kept for its id |
| SplitWorker.LookupLastWins | lib/map/split.js:96-99 | a later record replaces an earlier one with the same id: a record that no later record shares its id with is the one kept |
| SplitWorker.UnnamedClusterFinishes | lib/map/split.js:138-141 | a complete row whose displays are all blank finishes its job, even when a point has no property record |
| SplitWorker.FirstCrash | lib/map/split.js:280-283 | no job kills the worker exactly when none does; otherwise the reason of one that does |
| SplitWorker.FirstFailure | lib/map/split.js:280-293 | no failure exactly when no job failed; otherwise the message of one that did |
| SplitWorker.BatchOutcome | lib/map/split.js:274-294 | a batch before initialisation kills the worker; a reply carries the worker's id and `jobs` equal to the message length, nulls included |
| SplitWorker.BatchError | lib/map/split.js:288-293 | the reply's `error` is `false` exactly when no processed job failed, and otherwise a failed job's message |
| SplitWorker.EndedPoolFailsBatches | lib/map/split.js:280-297 | after `end`, a batch with an id to process reports the ended pool's error |
| SplitWorker.ReplyKind | lib/map/split.js:304 | `message.type` or else `false`: the type when it is a non-empty string, otherwise `false` |
| SplitWorker.RowStatus | lib/map/split.js:94-101 | a found row never fails. It finishes exactly when it has props, name, network and address, and, if it has a display name, a record for every point |
| SplitWorker.JobStatusOf | lib/map/split.js:280-284 | after `end` every job fails with the ended pool's error; otherwise a failed job carries the query's error, and a finished one had a row |
| SplitWorker.FeatOfRow | lib/map/split.js:94-101 | builds the lookup and the `SplitFeat` of a found row. It fails exactly when `RowStatus` says the worker dies. Otherwise the feature has the row's name, network and points, and the lookup's ids with every record normalised; every point has a record whenever the cluster has a display name |
| SplitWorker.RunJob | lib/map/split.js:280-284 | one cluster fails with the query error, kills the worker, or is built and split, as `JobStatusOf` states. A finished job has a `split` result: skipped without a display name, otherwise written or returned as the `stdout` option says |
| SplitWorker.Worker.Handle | lib/map/split.js:273-309 | a batch leaves the state alone and replies as `BatchOutcome`. `end` closes the pool and replies, or kills an uninitialised worker. Any other message opens a pool and builds a fresh `Split` from the options |
| SplitWorker.Worker.HandleBatch | lib/map/split.js:274-294 | runs the truthy ids in order and replies as `BatchOutcome` states |
| ConflateCompare.InvalidKey | lib/conflate/compare.js:61-64 | no key is refused exactly when every key is one of the eight option names; otherwise the first refused key |
| ConflateCompare.WithDefaults | lib/conflate/compare.js:66 | an absent output becomes standard output; a given one is kept |
| ConflateCompare.ExactlyOneOwner | lib/conflate/compare.js:90-91 | among workers 0 to `total - 1`, each counted line has exactly one owner |
| ConflateCompare.Owns | lib/conflate/compare.js:90-91 | a line is owned only with a total given, and only by an id from 0 to the total's magnitude minus one |
| ConflateCompare.StripRS | lib/conflate/compare.js:94 | no record separator is left, and every other character keeps its count |
| ConflateCompare.StripRSAppend | lib/conflate/compare.js:94 | stripping works character by character (it distributes over concatenation) |
| ConflateCompare.StripRSUnchangedIff | lib/conflate/compare.js:94 | a line passes unchanged exactly when it has no separator |
| ConflateCompare.Create | lib/conflate/compare.js:149-159 | a `create` action whose number, source and geometry are the feature's own and whose `street` is the feature's `display` |
| ConflateCompare.CreateDeterminedBy | lib/conflate/compare.js:149-159 | a corollary of `Create`: two records are equal exactly when the features' number, display, source and geometry are; the street synonyms do not enter |
| ConflateCompare.Modify | lib/conflate/compare.js:161-164 | `modify` returns the known feature |
| ConflateCompare.LineStep | lib/conflate/compare.js:87-143 | an empty line is ignored and not counted. Any other line advances the counter and is skipped exactly when another worker owns it. An owned line: a map error is reported with the stripped line; a failed parse or missing properties kills the worker; a query error kills the worker; no matching row writes `create(feat)`; matching rows write nothing (or kill the worker on a non-array street or a row without names). A line writes only in the no-row case |
| ConflateCompare.Run | lib/conflate/compare.js:81-146 | the lines are handled in order up to the first fatal one, one result per handled line; only the last result can be fatal, and the counter never goes back |
| ConflateCompare.RunAt | lib/conflate/compare.js:87-91 | line `j` of a run is handled as its own step, from the counter that the non-empty lines before it left |
| ConflateCompare.RunCounts | lib/conflate/compare.js:87-128 | line `j` is blank exactly when empty. A non-empty line is another worker's exactly when its count among non-empty lines is not its owner's id modulo the total. An owned line whose feature parses with properties and matches no row is written as `create` of that feature, and a line is written only then |
| ConflateCompare.RunAdvances | lib/conflate/compare.js:88-90 | after a run without a fatal line the counter has grown by the number of non-empty lines |
| ConflateCompare.NoTotalWritesNothing | lib/conflate/compare.js:91 | with an absent or zero total (NaN remainder) the worker owns no line |
| ConflateCompare.CompareWorker.Init | lib/conflate/compare.js:57-74 | records the options before throwing on the first invalid key with its message. Otherwise it defaults the output and opens the pool |
| ConflateCompare.CompareWorker.Split | lib/conflate/compare.js:81-147 | runs the lines as `Run` states, advancing the shared counter |
| ConflateCompare.CompareWorker.Handle | lib/conflate/compare.js:14-40 | `end` closes the pool and replies `end`, or kills an uninitialised worker. Any other message initialises, replies `ready`, runs the lines and replies `end` unless an invalid option or a fatal line kills the worker. A message with a `type` other than `end` is refused by the option check |
| ConflateNative.NewArgs | native/src/conflate/mod.rs:31-41 | the database is `dedupe` and every optional field is absent |
| ConflateNative.ResolveArgs | native/src/conflate/mod.rs:45-55 | a missing, `undefined` or `null` argument gives the defaults; any other is deserialised |
| ConflateNative.CheckRequired | native/src/conflate/mod.rs:57-61 | panics for a missing `in_persistent` first and only then for a missing `in_address` (both directions) |
| ConflateNative.ContextOf | native/src/conflate/mod.rs:65-68 | without a context the country is empty, there is no region and there are no tokens; otherwise the converted context |
| ConflateNative.AddressVec.Push | native/src/conflate/mod.rs:98 | appends one address |
| ConflateNative.Compare | native/src/conflate/mod.rs:107-116 | `Create` exactly when the vector is empty, nothing otherwise; the vector is not modified |
| ConflateNative.Decisions | native/src/conflate/mod.rs:75-102 | one decision per address of the stream, `Create` exactly when the lookup finds no persistent address |
| ConflateNative.NoArgumentPanics | native/src/conflate/mod.rs:45-58 | called without an argument (or with `undefined` or `null`), `conflate` panics with "in_persistent argument is required" |
| ConflateNative.FinishedDecides | native/src/conflate/mod.rs:57-102 | a finished run had both inputs and decides `Create` for exactly the addresses without a persistent match, in stream order |
| ConflateNative.ConflateOutcomeOf | native/src/conflate/mod.rs:44-105 | throws exactly when the argument does not decode, panics exactly when a required input is missing, and otherwise finishes with one decision per streamed address |
| ConflateNative.Conflate | native/src/conflate/mod.rs:44-105 | throws a deserialisation error, panics for a missing input, or collects each address's matches into a fresh vector and compares, as `ConflateOutcomeOf` states |

## Left out

- Turf geometry (`lineDistance`, `pointOnLine`, `distance`) is not modelled. Line length and point-to-line distance are functions the caller supplies and are taken to be finite; NaN or infinite distances are not modelled.
- `Explode.join`/`split`, `Cluster.break`, `Misc.hasDupAddressWithin`, `interpolize` and `Post` are functions the caller supplies. The clusters `Cluster.break` proposes are modelled as point–record pairs, so their address and number arrays are taken to be aligned. The `debug` option passed to `interpolize` is not modelled.
- Postgres is not modelled: the SQL of `from_id`, compare.js and mod.rs, and the pool and connection lifecycle. A query is a function from its key to rows or an error message. The error an ended pool reports is a parameter.
- `process.send`, standard output and standard error writing, and `JSON.stringify` formatting are not modelled. Replies are returned values, and so is what one `split` call writes; a batch reply does not carry what its jobs wrote.
- d3-queue concurrency is not modelled. A batch runs its jobs in message order.
- `SplitWorker.Worker.HandleBatch`: reports the first failure in message order. In the source it is the first failure to complete. When a job also kills the worker, the model reports the death rather than a reply.
- `AddressOrder.SortCoordinates`: promises global order only when every number parses. With a NaN number the comparator is inconsistent and the order of `Array.prototype.sort` is implementation-defined. Stability is not stated.
- `SplitFeature.NewSplitFeat`: builds a new lookup instead of rewriting the caller's record objects in place, so aliasing of those objects is not modelled. Numbers other than integers, null and undefined (floats, and the exponent notation `String` uses at 1e21 and above) are not modelled.
- `SplitWorker.RunJob`: states whether a job's `split` result is skipped, written or returned, not its features. Those depend on the order the sort leaves the points in, which `MapSplit.Split.SplitCluster` states.
- `JsSemantics.ParseInt`: returns an exact integer. JavaScript's `parseInt` returns a double, so digit strings above 2^53 are rounded and very long ones become `Infinity`. Two different large house numbers can then compare equal in the source, and not in the model.
- `MapSplit.Split.SplitCluster` requires every point to have a record when the cluster has a display name. In the source such a point then throws a TypeError, at the latest when the numbers are read for the duplicate check. The worker model checks this before splitting and reports the death (`SplitWorker.RunJob`). A cluster without a display name is skipped before any record is read, with or without records.
- `feat instanceof SplitFeat` always holds in the model, because the types guarantee it.
- In `distribute`, a point with no surviving line is pushed into the arrays' `false` property, where the result never sees it. The model matches such a point to no line.
- compare.js: `readline` and `fs` streams, the `error` event and loading the map module with `require` are not modelled. The input file is given as its lines, and parsing with the map is one function. `init` always loads `../map/${opts.map}`, so without a `map` option it throws; the model lets `init` succeed then and parses with `JSON.parse` alone. `tokenize`, geocoder abbreviations and the name comparison that calls `modify` are not modelled, because their result is unused. Only the TypeErrors that path can throw are modelled.
- `ConflateCompare.CompareWorker.Handle`, `ConflateCompare.CompareWorker.Split` and `ConflateCompare.Run`: the source's line handler only issues the query, and the rows arrive in a callback later. So later lines can be counted and queried before an earlier query answers, writes land in completion order, and `close` can send `end` before a query error, a non-array street or a row without names kills the worker. The model answers each query before the next line. It writes in line order, and it never replies `end` after a fatal line.
- compare.js: an `end` message arriving while lines are still being read is concurrency and not modelled. A `total` or `id` that is not an integer is not modelled.
- mod.rs: the persistent table's import (`create`, `input`, `index`), the connection and row `unwrap` panics, `GeoStream`/`AddrStream` parsing, `Context::from` and the error and output files are not modelled. The address stream and the context conversion are functions the caller supplies, and `Address` omits its `props` map.
- A second `end` to the split worker: the pool's rejection of a second `end` is not modelled. The model keeps the pool ended and replies.
- A second `end` to the compare worker calls `pool.end()` again; that rejection is not modelled either. The model keeps the pool ended and replies `end`.
