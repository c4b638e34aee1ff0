# Verified model of the xbbg result pipeline and its companions

This project models, in Dafny, the parts of xbbg where correctness rests on
arithmetic, recursion or interleaving, and proves what those parts promise.

**The bounded result projector** (`js-xbbg-langgraph/src/result-*.ts`) walks an
arbitrary value, which may be cyclic, have getters or hide behind `toJSON`, and emits
JSON while spending four budgets: bytes, visited nodes, rows and string characters.

- `JsText`, `Json` and `JsHeap` hold strings as UTF-16 code units with their JSON text
  as UTF-8 bytes, JSON values with exact sizes, and the object graph.
- `ResultTypes`, `FieldExceptions`, `Entitlements` and `Projection` specify every
  builder as a function of the traversal state; `Results` specifies one projection from
  start to end. `Projector` is the same code as it runs: mutable state, mutable
  accumulators and loops, each method proved to end in exactly the specified state.
- `Soundness` proves exact sizes, bounds and restored context for every graph.
  `Whole` defines, without any budget, the whole JSON form of a value and what keeping it
  costs; `Honesty` and `Completeness` relate the builders to it in both directions,
  `Pruning`, with the order of keys in `KeyOrder`, says what a truncated result still
  shows and that an unflagged one shows everything, `RowAccounting` bounds the rows, and
  `Guarantees` puts these together. `StoredLossless` and `StoredExactly` cover stored
  field exceptions; `DepthReasons` and `Emission` cover entitlement records, which follow
  rules of their own.
- `Envelope` models `createToolResult`, which splits one node budget over up to three
  projections, merges them and fits the envelope; `Reprojection` proves that whole forms
  project to themselves, and `Delivery` proves the end-to-end claims: byte limits with
  all last resorts, the bound on the work, and flags that tell the truth.

**Beside it** are `Properties` (the `java.util.Properties` printer and parser),
`SchemaClone` (cloning and freezing shared, possibly cyclic schemas), `ReplayQueue` (the
bounded producer/consumer queue of the replay benchmark, over every interleaving),
`Snapshot` (collecting a bounded snapshot and always releasing the subscription),
`LayoutCache` (the Arrow layout cache), `CoreResolver` (memoised import and connection),
and `Manifest`, `Relexing` and `VersionStamp` (the release version stamper).

How the originals are rendered:

- The object graph is a total function from references to nodes, so it may be cyclic or
  infinite; objects that the code itself creates are trees. A node carries what its
  `toJSON` returns or throws. `JSON.parse` is an oracle. Numbers are integers or opaque
  printed tokens.
- Byte rules for strings follow section 7 of RFC 8259, section 3 of RFC 3629 and
  section 25.5.2 of ECMA-262 (lone surrogates are escaped as six bytes).
- The whole form of a value puts priority keys first, as the projector does. It is not
  defined for values nested too deep or holding what JSON cannot hold (`Lossy`), and
  entitlement or stored-exception metadata is set apart (`Special`).
- A property asks for a child budget of at least two bytes, so a value can need one byte
  more than its size; `Json.NeedExact` says exactly when.
- A shared-row array fixes its length before its rows are built, so the shared row
  allowance is not a bound when such arrays nest; `RowAccounting.RowsBounded` gives the
  bound with the nesting depth, `RowAccounting.NestedRowsOverspend` an instance.
- The summary beside entitlement data compares counts only, and placeholders count. An
  EID below the depth limit is therefore lost without a summary; `HiddenLoss` gives the
  instance, `Emission.NoSummaryExactly` the exact condition.
- The fingerprint of the layout cache does not tell a timestamp with an empty time zone
  from one without, nor a name that holds its separators from several columns;
  `LayoutCache.FreshExactly` says exactly when the cache is transparent.
- The reuse shortcut of `createToolResult` looks only at the largest shared-row array;
  no claim is made that it equals projecting again.
- Promises and event loops become steps that are taken in any order; the clock and the
  abort signal become undetermined outcomes.

`dafny verify dfyconfig.toml` checks the whole project.

## Model

| member | source | states |
|---|---|---|
| `JsText.JsonStringUnit` | js-xbbg-langgraph/src/result-limits.ts:44-80 | the width is that of the code point at the index and stays within the string; the size is the length of its escaped UTF-8 text by section 7 of RFC 8259 and section 3 of RFC 3629, with lone surrogates as six bytes |
| `JsText.ContentConcat` | js-xbbg-langgraph/src/result-limits.ts:82-93 | cutting a string at a code-point boundary cuts its JSON text, so sizes add up |
| `JsText.JsonStringByteLength` | js-xbbg-langgraph/src/result-limits.ts:82-93 | the counting loop returns the exact size, or the stop value plus one as soon as that is passed |
| `JsText.SafePrefixEnd` | js-xbbg-langgraph/src/result-limits.ts:95-107 | the cut stays or moves back by one unit, and stays exactly if it splits no surrogate pair |
| `JsText.ScanPrefixLoop` | js-xbbg-langgraph/src/result-limits.ts:141-151 | the loop finds the prefix that the specification of the fitting cuts at |
| `JsText.FitStringScan` | js-xbbg-langgraph/src/result-limits.ts:109-161 | the fitting method computes the specified text and flags |
| `JsText.FitStringSound` | js-xbbg-langgraph/src/result-limits.ts:109-161 | a fitted string is within the byte budget and is the value itself, a cut at a code-point boundary marked with exactly the number of units dropped, or empty; a changed string sets a flag |
| `JsText.LateFallbackUnreachable` | js-xbbg-langgraph/src/result-limits.ts:141-160 | the reserve for the marker makes the marker-only fallback unreachable |
| `Json.SizeIsTextLength` | js-xbbg-langgraph/src/result-limits.ts:215-228 | the byte arithmetic that builders carry along is the length of the JSON text |
| `Json.NeedExact` | js-xbbg-langgraph/src/result-limits.ts:319-333 | the byte budget at which a value survives whole is its size, plus one byte exactly when the last leaf is a one-byte value under a key |
| `JsHeap.KeysSpec` | js-xbbg-langgraph/src/result-limits.ts:594-597 | enumeration yields exactly the own keys, each once |
| `Projector.LimitState.constructor` | js-xbbg-langgraph/src/result-limits.ts:822-837 | a fresh traversal state |
| `Projector.LimitState.AddReason` | js-xbbg-langgraph/src/result-types.ts:69-71 | adds a reason and changes nothing else |
| `Projector.LimitState.ConsumeVisit` | js-xbbg-langgraph/src/result-types.ts:73-80 | spends one visit, or refuses with a reason at the limit |
| `Projector.LimitState.RememberErrorDiagnostic` | js-xbbg-langgraph/src/result-limits.ts:163-171 | keeps at most eight diagnostics |
| `Projector.ObjectAccumulator.constructor` | js-xbbg-langgraph/src/result-limits.ts:579-583 | an empty object of two bytes |
| `Projector.FitString` | js-xbbg-langgraph/src/result-limits.ts:109-161 | the method leaves the state and value that `Projection` specifies |
| `Projector.PrimitiveBuilt` | js-xbbg-langgraph/src/result-limits.ts:215-228 | a primitive that fits is counted as retained, otherwise the byte limit is recorded |
| `Projector.BuildUnsupported` | js-xbbg-langgraph/src/result-limits.ts:230-238 | the placeholder is fitted like any string, after its reason is recorded |
| `Projector.AppendBuiltProperty` | js-xbbg-langgraph/src/result-limits.ts:240-270 | appends within the budget, ignores a key already there, refuses with a reason |
| `Projector.HasFieldExceptionOccurrences` | js-xbbg-langgraph/src/result-limits.ts:188-213 | the scan as specified, with its visits |
| `Projector.OmitInvalidFieldExceptions` | js-xbbg-langgraph/src/result-limits.ts:272-280 | unreadable metadata is an error, an unsupported value and an omitted property |
| `Projector.BuildValue` | js-xbbg-langgraph/src/result-limits.ts:649-764 | on every graph the mutating method returns the value and leaves the state that the specification gives, from the visit and the depth check to the dispatch |
| `Projector.BuildNode` | js-xbbg-langgraph/src/result-limits.ts:689-764 | dispatches by class, with result and state as specified |
| `Projector.BuildError` | js-xbbg-langgraph/src/result-limits.ts:708-723 | enters and leaves the ancestors around the record and remembers it, as specified |
| `Projector.BuildExotic` | js-xbbg-langgraph/src/result-limits.ts:735-763 | replaces an object by what `toJSON` gave, or by its placeholder, as specified |
| `Projector.BuildObject` | js-xbbg-langgraph/src/result-limits.ts:562-607 | circularity test, then both property loops on one accumulator, as specified |
| `Projector.BuildPriorityKeys` | js-xbbg-langgraph/src/result-limits.ts:587-592 | the loop over the priority keys goes on after a failed one and counts it, as specified |
| `Projector.BuildOrdinaryKeys` | js-xbbg-langgraph/src/result-limits.ts:594-602 | the enumeration loop, which skips priority keys and stops at the first failure, is the specified recursion over the filtered keys |
| `Projector.BuildProperty` | js-xbbg-langgraph/src/result-limits.ts:282-333 | skips, stored text, child budget and dispatch of one property, with state and accumulator as specified |
| `Projector.BuildOwn` | js-xbbg-langgraph/src/result-limits.ts:362-415 | inspects, builds and appends a property of its own, entitlements apart, as specified |
| `Projector.Inspect` | js-xbbg-langgraph/src/result-limits.ts:366-380 | value or getter placeholder, with the reason and the error flag, as specified |
| `Projector.BuildChild` | js-xbbg-langgraph/src/result-limits.ts:396-404 | switches the diagnostics mode for the child and back, as specified |
| `Projector.AddOwn` | js-xbbg-langgraph/src/result-limits.ts:405-414 | appends, then remembers an error and notes upstream truncation, as specified |
| `Projector.BuildStored` | js-xbbg-langgraph/src/result-limits.ts:334-361 | stored exceptions built, appended or given up with the counters specified |
| `Projector.AdmitRawMetadata` | js-xbbg-langgraph/src/result-diagnostics.ts:122-142 | admits a text by bytes and nodes, or gives up with exactly the reasons that apply |
| `Projector.EnterRawMetadata` | js-xbbg-langgraph/src/result-diagnostics.ts:239-258 | the checks on visit, depth and bytes before a text is read, as specified |
| `Projector.BuildRawFieldExceptions` | js-xbbg-langgraph/src/result-diagnostics.ts:232-329 | reads, validates and builds a stored document, with the three outcomes specified |
| `Projector.BuildSecurities` | js-xbbg-langgraph/src/result-diagnostics.ts:285-328 | the loop over securities with its early exits is the specified recursion |
| `Projector.BuildExceptionArray` | js-xbbg-langgraph/src/result-diagnostics.ts:168-229 | checks and loop of one exception list, as specified |
| `Projector.BuildExceptions` | js-xbbg-langgraph/src/result-diagnostics.ts:188-228 | the loop over exceptions, with items and size accumulated, is the specified recursion |
| `Projector.ConsumeVisitBefore` | js-xbbg-langgraph/src/result-entitlements.ts:61-67 | one visit below the given limit, or the reason, as specified |
| `Projector.ScanSecurityEids` | js-xbbg-langgraph/src/result-entitlements.ts:169-195 | the loop over EIDs keeps the specified ones and stops where specified |
| `Projector.ScanOneSecurity` | js-xbbg-langgraph/src/result-entitlements.ts:149-216 | one security scanned, counted and retained, as specified |
| `Projector.RetainSecurity` | js-xbbg-langgraph/src/result-entitlements.ts:196-216 | caps on securities, names and EIDs applied as specified |
| `Projector.PrepareEids` | js-xbbg-langgraph/src/result-entitlements.ts:99-255 | the loop over securities ends in the specified data, counts and state |
| `Projector.BuildEntitlementProperty` | js-xbbg-langgraph/src/result-entitlements.ts:416-468 | record and summary emitted into the accumulator as specified |
| `Projector.HasArrayMetadata` | js-xbbg-langgraph/src/result-limits.ts:417-424 | finds a priority key among the own properties exactly if there is one |
| `Projector.BuildArray` | js-xbbg-langgraph/src/result-limits.ts:495-560 | circularity test and choice between list and table, as specified |
| `Projector.BuildTable` | js-xbbg-langgraph/src/result-limits.ts:511-556 | metadata, rows and the rest of the metadata in the specified order |
| `Projector.BuildRowsProperty` | js-xbbg-langgraph/src/result-limits.ts:531-543 | the rows built and kept, or counted as omitted, as specified |
| `Projector.KeepRows` | js-xbbg-langgraph/src/result-limits.ts:537-543 | appends the rows, or counts them as omitted, as specified |
| `Projector.BuildArrayRows` | js-xbbg-langgraph/src/result-limits.ts:426-493 | length fixed from the allowance before the loop, accounts closed after it, as specified |
| `Projector.CloseRows` | js-xbbg-langgraph/src/result-limits.ts:479-491 | row counters, reason and omissions of a finished array, as specified |
| `Projector.BuildRows` | js-xbbg-langgraph/src/result-limits.ts:439-478 | the row loop with its early exits is the specified recursion |
| `Projector.NoteElement` | js-xbbg-langgraph/src/result-limits.ts:451-458 | a getter among the elements is noted, as specified |
| `Projector.ValidateResultLimits` | js-xbbg-langgraph/src/result-limits.ts:804-814 | accepts exactly positive safe integers with at least four bytes, and names the first limit refused |
| `Projector.LimitResultWithRowPriority` | js-xbbg-langgraph/src/result-limits.ts:816-857 | one projection from validation to summary, as `Results` specifies |
| `Projector.ProjectWithin` | js-xbbg-langgraph/src/result-limits.ts:878-886 | the exhausted result without nodes, otherwise the projection or the refusal |
| `Projection.BuildValue` | js-xbbg-langgraph/src/result-limits.ts:649-764 | terminates on cyclic graphs and endless `toJSON` chains: limits stay fixed, the visit count only grows and never passes the limit |
| `Soundness.BuildValueSound` | js-xbbg-langgraph/src/result-limits.ts:649-764 | whatever the graph, state and budget: the reported size is the exact length of the JSON text and within the budget, or the value is omitted with no visit left and the node limit recorded, or with the byte limit recorded; limits, mode and ancestors are restored, visits stay within the limit, rows are conserved, reasons and losses only grow |
| `Soundness.BuildNodeSound` | js-xbbg-langgraph/src/result-limits.ts:689-764 | the same for an object of each class: dates, binary data, arrays, plain objects, errors and objects with `toJSON` |
| `Soundness.BuildErrorSound` | js-xbbg-langgraph/src/result-limits.ts:708-723 | an error record keeps exact size and bounds, and the error leaves the ancestors again |
| `Soundness.BuildExoticSound` | js-xbbg-langgraph/src/result-limits.ts:735-763 | what `toJSON` returned or threw is built one level deeper with exact size and bounds, and the object leaves the ancestors again |
| `Soundness.BuildObjectSound` | js-xbbg-langgraph/src/result-limits.ts:562-607 | an object is exact in size and within its budget, or omitted with one of these two limits recorded; it leaves the ancestors again |
| `Soundness.BuildKeysSound` | js-xbbg-langgraph/src/result-limits.ts:587-602 | after the property loops the accumulated size is exact and within the budget; a loop that stopped early has the node limit with no visit left, or the byte limit, recorded |
| `Soundness.BuildPropertySound` | js-xbbg-langgraph/src/result-limits.ts:282-333 | a property leaves the accumulated size exact; it fails only with the node limit exhausted and recorded or the byte limit recorded |
| `Soundness.BuildOwnSound` | js-xbbg-langgraph/src/result-limits.ts:362-415 | the same for a property with a value or getter of its own, entitlements included |
| `Soundness.BuildChildSound` | js-xbbg-langgraph/src/result-limits.ts:396-404 | the child is within its budget, and the diagnostics mode is what it was before |
| `Soundness.AddOwnSound` | js-xbbg-langgraph/src/result-limits.ts:405-414 | an appended property leaves the accumulated size exact, and a refusal is accounted for |
| `Soundness.BuildStoredSound` | js-xbbg-langgraph/src/result-limits.ts:334-361 | the same for stored exceptions as a property |
| `Soundness.BuildRawSound` | js-xbbg-langgraph/src/result-diagnostics.ts:232-329 | a stored document is exact in size and within its budget, or omitted with the byte, node or depth limit recorded |
| `Soundness.BuildSecuritiesSound` | js-xbbg-langgraph/src/result-diagnostics.ts:290-327 | the securities kept have exactly the accumulated size; a stop records the byte limit, the exhausted node limit, or below the depth limit that one |
| `Soundness.BuildExceptionArraySound` | js-xbbg-langgraph/src/result-diagnostics.ts:168-229 | an exception list is exact in size, or omitted with the byte limit, the exhausted node limit, or below the depth limit that one recorded |
| `Soundness.BuildExceptionsSound` | js-xbbg-langgraph/src/result-diagnostics.ts:190-227 | the loop always yields a list, of exactly the accumulated size and within the budget |
| `Soundness.BuildEntitlementSound` | js-xbbg-langgraph/src/result-entitlements.ts:416-468 | record and summary together leave the accumulated size exact; the property fails only with one of the two limits recorded |
| `Soundness.BuildArraySound` | js-xbbg-langgraph/src/result-limits.ts:495-560 | an array, plain or with metadata, keeps exact size and bounds, and leaves the ancestors again |
| `Soundness.BuildTableSound` | js-xbbg-langgraph/src/result-limits.ts:511-556 | a table is exact in size and within its budget, or omitted with one of the two limits recorded |
| `Soundness.BuildRowsPropertySound` | js-xbbg-langgraph/src/result-limits.ts:531-543 | the rows member leaves the accumulated size exact; when it fails, the node or byte limit is recorded |
| `Soundness.BuildArrayRowsSound` | js-xbbg-langgraph/src/result-limits.ts:426-493 | a list of rows is exact in size and within its budget, or omitted with one of the two limits recorded; what it keeps moves from remaining to retained rows |
| `Soundness.BuildRowsSound` | js-xbbg-langgraph/src/result-limits.ts:448-478 | the row loop keeps the size of the rows exact and within the budget, with rows conserved |
| `Honesty.BuildValueHonest` | js-xbbg-langgraph/src/result-limits.ts:649-764 | if no reason is recorded, the value came out as its whole form, which existed, for exactly its visits and rows, and every budget covered it |
| `Honesty.BuildNodeHonest` | js-xbbg-langgraph/src/result-limits.ts:689-764 | the same by class of object: only dates with a time, arrays, plain objects, errors and a returned `toJSON` value leave no reason |
| `Honesty.BuildErrorHonest` | js-xbbg-langgraph/src/result-limits.ts:708-723 | without a reason the error record came out whole, with its message, name and cause |
| `Honesty.BuildExoticHonest` | js-xbbg-langgraph/src/result-limits.ts:735-763 | without a reason `toJSON` returned, and what it returned came out whole |
| `Honesty.BuildObjectHonest` | js-xbbg-langgraph/src/result-limits.ts:562-607 | without a reason every property came out whole, priority keys first, and the bytes covered the members one by one |
| `Honesty.BuildKeysHonest` | js-xbbg-langgraph/src/result-limits.ts:587-602 | without a reason the loop appended the whole form of every key, in order, at the sum of their costs |
| `Honesty.BuildPropertyHonest` | js-xbbg-langgraph/src/result-limits.ts:282-333 | without a reason the property was appended whole, or had nothing to show; a failed property has a reason |
| `Honesty.BuildOwnHonest` | js-xbbg-langgraph/src/result-limits.ts:362-415 | without a reason the property was no getter, its value came out whole, and it reported no truncation |
| `Honesty.BuildChildHonest` | js-xbbg-langgraph/src/result-limits.ts:396-404 | without a reason the child came out whole in the mode its key asks for |
| `Honesty.AddOwnHonest` | js-xbbg-langgraph/src/result-limits.ts:405-414 | without a reason the built property was appended and reported no upstream truncation |
| `Honesty.BuildArrayHonest` | js-xbbg-langgraph/src/result-limits.ts:495-560 | without a reason the array came out whole, as a list or as a table |
| `Honesty.BuildTableHonest` | js-xbbg-langgraph/src/result-limits.ts:511-556 | without a reason all metadata and all rows came out whole, in the order of the mode |
| `Honesty.BuildRowsPropertyHonest` | js-xbbg-langgraph/src/result-limits.ts:531-543 | without a reason the rows were built whole and appended |
| `Honesty.BuildArrayRowsHonest` | js-xbbg-langgraph/src/result-limits.ts:426-493 | without a reason no row limit cut the array, every row came out whole, and exactly the rows of the array were charged |
| `Honesty.BuildRowsHonest` | js-xbbg-langgraph/src/result-limits.ts:448-478 | without a reason the loop appended the whole form of every element |
| `Completeness.BuildValueComplete` | js-xbbg-langgraph/src/result-limits.ts:649-764 | a value with a whole form comes out as that form, with no new reason and exactly its visits and rows spent, if bytes, visits, rows and string limit cover it, whether it is free of references or no ancestor is as light |
| `Completeness.BuildNodeComplete` | js-xbbg-langgraph/src/result-limits.ts:689-764 | the same by class of object |
| `Completeness.BuildErrorComplete` | js-xbbg-langgraph/src/result-limits.ts:708-723 | an error whose record is covered comes out whole and stays out of its own ancestors |
| `Completeness.BuildExoticComplete` | js-xbbg-langgraph/src/result-limits.ts:735-763 | a covered `toJSON` value comes out whole, one level deeper |
| `Completeness.BuildObjectComplete` | js-xbbg-langgraph/src/result-limits.ts:562-607 | if the budgets cover the members in order, all of them are kept and nothing is recorded |
| `Completeness.BuildKeysComplete` | js-xbbg-langgraph/src/result-limits.ts:587-602 | if the budgets cover the rest of the keys, the loop appends all of them |
| `Completeness.BuildPropertyComplete` | js-xbbg-langgraph/src/result-limits.ts:282-333 | a covered property is appended whole; a property with nothing to show costs nothing |
| `Completeness.BuildOwnComplete` | js-xbbg-langgraph/src/result-limits.ts:362-415 | the visits for inspecting and building a covered property suffice, and it is appended |
| `Completeness.BuildChildComplete` | js-xbbg-langgraph/src/result-limits.ts:396-404 | a covered child comes out whole in the mode its key asks for |
| `Completeness.AddOwnComplete` | js-xbbg-langgraph/src/result-limits.ts:405-414 | after a build within the child budget the append succeeds, adding only a reported upstream truncation |
| `Completeness.BuildArrayComplete` | js-xbbg-langgraph/src/result-limits.ts:495-560 | a covered array comes out whole, as a list or as a table |
| `Completeness.BuildTableComplete` | js-xbbg-langgraph/src/result-limits.ts:511-556 | if the budgets cover metadata, rows and the rest of the metadata in turn, all of it is kept |
| `Completeness.BuildRowsPropertyComplete` | js-xbbg-langgraph/src/result-limits.ts:531-543 | covered rows are built and appended under `rows` |
| `Completeness.BuildArrayRowsComplete` | js-xbbg-langgraph/src/result-limits.ts:426-493 | row limits and allowance that cover the array cut nothing, and exactly its rows are charged |
| `Completeness.BuildRowsComplete` | js-xbbg-langgraph/src/result-limits.ts:448-478 | if the budgets cover the rest of the elements, the loop appends all of them |
| `Pruning.BuildValuePrunes` | js-xbbg-langgraph/src/result-limits.ts:649-764 | what is emitted is a pruning of the value for any budgets, and a pruning with nothing missing if no reason is recorded: strings whole, arrays complete, every key there, no placeholder anywhere |
| `Pruning.BuildNodePrunes` | js-xbbg-langgraph/src/result-limits.ts:689-764 | each class shows as its text, its placeholder, or its contents; the circular placeholder appears exactly for an object among its own ancestors |
| `Pruning.BuildErrorPrunes` | js-xbbg-langgraph/src/result-limits.ts:708-723 | an error shows as its record, or as circular exactly if it is among the ancestors |
| `Pruning.BuildExoticPrunes` | js-xbbg-langgraph/src/result-limits.ts:735-763 | an object shows as its placeholder, as circular exactly if it is among the ancestors, or as what `toJSON` returned; a method that threw always leaves a reason |
| `Pruning.BuildObjectPrunes` | js-xbbg-langgraph/src/result-limits.ts:562-607 | an object keeps priority keys in their order, then a prefix of its other keys as enumerated, each once and each from its own property; unflagged, it keeps all keys that are due |
| `Pruning.BuildKeysPrunes` | js-xbbg-langgraph/src/result-limits.ts:587-602 | each member added by the loops prunes the property it is named after |
| `Pruning.BuildPropertyPrunes` | js-xbbg-langgraph/src/result-limits.ts:282-333 | a member comes from the property of that key, from stored exceptions, or is the summary of the entitlements that stand beside it in the same object |
| `Pruning.BuildOwnPrunes` | js-xbbg-langgraph/src/result-limits.ts:362-415 | a member shows the value of its property, or the getter placeholder, and the latter only with a reason |
| `Pruning.BuildChildPrunes` | js-xbbg-langgraph/src/result-limits.ts:396-404 | the child is a pruning in the mode its key asks for |
| `Pruning.BuildStoredPrunes` | js-xbbg-langgraph/src/result-limits.ts:334-361 | stored exceptions show prefixes of the expanded lists; unflagged, every security and every exception |
| `Pruning.BuildRawPrunes` | js-xbbg-langgraph/src/result-diagnostics.ts:232-329 | a built document shows securities of the parsed one; unflagged, all of them |
| `Pruning.BuildSecuritiesPrunes` | js-xbbg-langgraph/src/result-diagnostics.ts:290-327 | each security emitted is one of the document, in its order and once, with a prefix of its list; unflagged, every security from here on is there |
| `Pruning.BuildExceptionArrayPrunes` | js-xbbg-langgraph/src/result-diagnostics.ts:168-229 | a list is a prefix of the expanded one whose entries keep all their keys; unflagged, all of it |
| `Pruning.BuildExceptionsPrunes` | js-xbbg-langgraph/src/result-diagnostics.ts:190-227 | the loop extends such a prefix, and without a reason reaches the end |
| `Pruning.BuildEntitlementPrunes` | js-xbbg-langgraph/src/result-entitlements.ts:416-468 | the record prunes leading valid EIDs of some securities, each once and in input order, and all of them if unflagged; the summary prunes the counts of that very record against the scan it came from |
| `Pruning.BuildArrayPrunes` | js-xbbg-langgraph/src/result-limits.ts:495-560 | an array shows as circular exactly if it is among its ancestors, and otherwise as list or table |
| `Pruning.BuildTablePrunes` | js-xbbg-langgraph/src/result-limits.ts:511-556 | a table keeps metadata and rows in the order of the mode, each key once, rows only under `rows`; unflagged, all metadata due and the rows |
| `Pruning.BuildRowsPropertyPrunes` | js-xbbg-langgraph/src/result-limits.ts:531-543 | the rows member prunes the rows, or is left out with a reason |
| `Pruning.BuildArrayRowsPrunes` | js-xbbg-langgraph/src/result-limits.ts:426-493 | the rows kept are leading ones; unflagged, all of them |
| `Pruning.BuildRowsPrunes` | js-xbbg-langgraph/src/result-limits.ts:448-478 | the loop extends a prefix of pruned rows, diagnostics entries with all their keys, and without a reason reaches the end |
| `RowAccounting.BuildValueRows` | js-xbbg-langgraph/src/result-limits.ts:649-764 | the allowance falls by at most what the nesting of shared-row arrays in the value allows, and arrays emitted outside diagnostics stay within the row limit |
| `RowAccounting.BuildNodeRows` | js-xbbg-langgraph/src/result-limits.ts:689-764 | the same bound by class of object |
| `RowAccounting.BuildErrorRows` | js-xbbg-langgraph/src/result-limits.ts:708-723 | the same bound for an error record |
| `RowAccounting.BuildExoticRows` | js-xbbg-langgraph/src/result-limits.ts:735-763 | the same bound for what `toJSON` returned |
| `RowAccounting.BuildObjectRows` | js-xbbg-langgraph/src/result-limits.ts:562-607 | the bound of an object is the largest of its properties, as each starts from what the others left |
| `RowAccounting.BuildKeysRows` | js-xbbg-langgraph/src/result-limits.ts:587-602 | the same for the properties of the loops |
| `RowAccounting.BuildPropertyRows` | js-xbbg-langgraph/src/result-limits.ts:282-333 | the same for one property; entitlements and stored exceptions keep row rules of their own |
| `RowAccounting.BuildOwnRows` | js-xbbg-langgraph/src/result-limits.ts:362-415 | the same for a property with a value of its own |
| `RowAccounting.BuildChildRows` | js-xbbg-langgraph/src/result-limits.ts:396-404 | rows under `rows` or in an array under `data` count as shared unless in diagnostics |
| `RowAccounting.AddOwnRows` | js-xbbg-langgraph/src/result-limits.ts:405-414 | appending changes no row account, and a member within the limit keeps the object within it |
| `RowAccounting.BuildStoredRows` | js-xbbg-langgraph/src/result-limits.ts:334-361 | stored exceptions spend nothing of the allowance |
| `RowAccounting.BuildRawRows` | js-xbbg-langgraph/src/result-diagnostics.ts:232-329 | a stored document spends nothing of the allowance |
| `RowAccounting.BuildSecuritiesRows` | js-xbbg-langgraph/src/result-diagnostics.ts:290-327 | the securities of a document spend nothing of the allowance |
| `RowAccounting.BuildExceptionArrayRows` | js-xbbg-langgraph/src/result-diagnostics.ts:168-229 | an exception list spends nothing of the allowance |
| `RowAccounting.BuildExceptionsRows` | js-xbbg-langgraph/src/result-diagnostics.ts:190-227 | the exceptions of a list spend nothing of the allowance |
| `RowAccounting.BuildEntitlementRows` | js-xbbg-langgraph/src/result-entitlements.ts:416-468 | an entitlement record spends at most one level of the allowance, for a security named like a shared key |
| `RowAccounting.BuildArrayRowsOk` | js-xbbg-langgraph/src/result-limits.ts:495-560 | the bound for an array, as list or table |
| `RowAccounting.BuildTableRows` | js-xbbg-langgraph/src/result-limits.ts:511-556 | the bound for a table is the largest of its metadata and its rows |
| `RowAccounting.BuildRowsPropertyRows` | js-xbbg-langgraph/src/result-limits.ts:531-543 | the same for the rows of a table |
| `RowAccounting.BuildPlainRows` | js-xbbg-langgraph/src/result-limits.ts:426-493 | a shared-row array adds one level: at most the row limit on top of what its rows allow |
| `RowAccounting.BuildRowsRows` | js-xbbg-langgraph/src/result-limits.ts:448-478 | the bound of the row loop is the largest of its elements |
| `Soundness.AppendAfterBuildSucceeds` | js-xbbg-langgraph/src/result-limits.ts:240-270 | after a build within the child budget the append never fails and adds no reason |
| `Completeness.NotAncestor` | js-xbbg-langgraph/src/result-limits.ts:569-571 | an object with a whole form is none of the ancestors, as each of those costs more visits, so the circularity check does not hit it |
| `Honesty.PriorityDistinct` | js-xbbg-langgraph/src/result-limits.ts:587-597 | priority keys are distinct, so each property is emitted once |
| `Reprojection.ValueFixed` | js-xbbg-langgraph/src/result-envelope.ts:331-342 | the whole form of a value is its own whole form: projecting it again keeps values and key order |
| `Guarantees.AllReasonsOrdered` | js-xbbg-langgraph/src/result-limits.ts:789-802 | the summary lists exactly the recorded reasons |
| `Guarantees.ProjectionBounded` | js-xbbg-langgraph/src/result-limits.ts:816-886 | size exact and within the limit, visits within the limit, ancestors restored, remaining plus retained rows equal to the row limit, for every input |
| `Guarantees.LosslessExactly` | js-xbbg-langgraph/src/result-limits.ts:816-857 | for values without entitlement or stored-exception metadata the result is unflagged if and only if every limit covers the whole form and the value does not itself report truncation; then it is the whole form, with the visits, rows, largest shared array and error diagnostics that the whole form foretells |
| `Completeness.NotedFirst` | js-xbbg-langgraph/src/result-limits.ts:163-171 | of the errors reported, in order, the first eight are kept |
| `Guarantees.ResultPrunes` | js-xbbg-langgraph/src/result-limits.ts:816-857 | every result is a pruning of its input, or `null` with the byte or node limit recorded; an entitlement summary in it counts the record emitted beside it; an unflagged result has nothing missing, entitlement and stored-exception metadata included |
| `RowAccounting.RowsBounded` | js-xbbg-langgraph/src/result-limits.ts:381-493 | rows kept in shared-row arrays are at most the row limit times their nesting depth, every other array is within the limit, arrays of entitlement data are within the cap on EIDs, and those of the summary beside it within the cap on securities |
| `RowAccounting.NestedRowsOverspend` | js-xbbg-langgraph/src/result-limits.ts:443-485 | with a row limit of one, an array of rows inside a row makes two kept rows: the allowance is not a bound once shared-row arrays nest |
| `RowAccounting.WholeWithinExactly` | js-xbbg-langgraph/src/result-limits.ts:381-493 | a value that the limits can keep whole stays within the row limit if and only if the rows of its whole form do |
| `FieldExceptions.ValidateOccurrences` | js-xbbg-langgraph/src/result-diagnostics.ts:144-166 | accepts exactly valid documents and reports whether any exception occurs |
| `FieldExceptions.ValidateFieldExceptionIndices` | js-xbbg/src/backends.ts:169-192 | accepts exactly lists of indices into the dictionary |
| `FieldExceptions.ReadersAgree` | js-xbbg-langgraph/src/result-diagnostics.ts:74-166 | the projector and the core reader (`backends.ts`, lines 145-250) accept the same documents, compact and legacy, and expand them to the same lists |
| `StoredLossless.ExceptionsLossless` | js-xbbg-langgraph/src/result-diagnostics.ts:168-229 | a list that leaves no reason holds the whole form of every exception, in order |
| `StoredLossless.DocumentLossless` | js-xbbg-langgraph/src/result-diagnostics.ts:232-329 | a stored document that leaves no reason is emitted with all its securities and all their exceptions, in order, each exception whole where its form is defined |
| `StoredExactly.ExceptionsHonest` | js-xbbg-langgraph/src/result-diagnostics.ts:190-227 | the loop without a reason appended the whole form of every exception, and the budgets covered them one by one |
| `StoredExactly.ExceptionsComplete` | js-xbbg-langgraph/src/result-diagnostics.ts:190-227 | the loop with budgets that cover the rest appends all of it, with no new reason and exactly its visits |
| `StoredExactly.ListHonest` | js-xbbg-langgraph/src/result-diagnostics.ts:168-229 | a list without a reason is the whole form of the expanded list, for exactly its cost |
| `StoredExactly.ListComplete` | js-xbbg-langgraph/src/result-diagnostics.ts:168-229 | a list that the budgets cover is the whole form of the expanded list |
| `StoredExactly.SecuritiesHonest` | js-xbbg-langgraph/src/result-diagnostics.ts:290-327 | without a reason every security was appended whole, and the bytes covered keys and lists in turn |
| `StoredExactly.SecuritiesComplete` | js-xbbg-langgraph/src/result-diagnostics.ts:290-327 | with budgets that cover them all securities are appended whole, whatever the ancestors |
| `StoredExactly.DocumentExactly` | js-xbbg-langgraph/src/result-diagnostics.ts:232-329 | a document whose exceptions have a whole form leaves no reason if and only if its text is within the byte limit, bytes cover the expanded document, visits cover the text, one per security and those of its exceptions, strings are within the limit, and no exception reports truncation; then it is emitted whole for exactly those visits, and without a whole form it always leaves a reason |
| `Entitlements.Utf8ByteLengthAtMost` | js-xbbg-langgraph/src/result-entitlements.ts:69-97 | the UTF-8 length, or none if it passes the maximum |
| `Entitlements.PreparedAccounting` | js-xbbg-langgraph/src/result-entitlements.ts:99-255 | scanned is retained plus invalid plus dropped; kept lists are valid leading EIDs within all caps; a complete scan saw every security; an unflagged scan lost nothing |
| `KeyOrder.PreparedRetains` | js-xbbg-langgraph/src/result-entitlements.ts:99-255 | retained securities are distinct and in the order of the input |
| `KeyOrder.PreparedUnflagged` | js-xbbg-langgraph/src/result-entitlements.ts:99-255 | a scan that records no reason retains every security with all of its EIDs |
| `KeyOrder.ObjectKeysOrdered` | js-xbbg-langgraph/src/result-limits.ts:587-602 | emitted keys are distinct: priority keys in their order, then a prefix of the other keys present, as enumerated |
| `KeyOrder.TableKeysOrdered` | js-xbbg-langgraph/src/result-limits.ts:511-556 | emitted keys of a table are distinct and in the order metadata, rows, other metadata that the mode asks for |
| `KeyOrder.SecuritiesOrdered` | js-xbbg-langgraph/src/result-diagnostics.ts:290-327 | the securities emitted for a stored document are distinct and follow the order of the document, whatever was skipped |
| `DepthReasons.ValueAdmitted` | js-xbbg-langgraph/src/result-limits.ts:657-668 | a value met below the depth limit, or a list of such values, has left the depth reason |
| `DepthReasons.MembersAdmitted` | js-xbbg-langgraph/src/result-limits.ts:562-607 | the same for the members of an object, in every branch that can emit one |
| `Emission.RecordEmitted` | js-xbbg-langgraph/src/result-entitlements.ts:426-434 | at every depth and whatever the names: each security at most once, with leading EIDs, and what lies below the depth limit shows the placeholder and has left that reason; with ordinary names the securities are a prefix of the prepared ones |
| `Emission.CountsTotal` | js-xbbg-langgraph/src/result-entitlements.ts:338-362 | the summary has one count for each emitted list, and these add up to the emitted items |
| `Emission.CountsLengths` | js-xbbg-langgraph/src/result-entitlements.ts:338-362 | the counts are the lengths of the emitted lists, in the order in which they were emitted |
| `Emission.CountBound` | js-xbbg-langgraph/src/result-entitlements.ts:392-401 | lists and items of emitted members never exceed those of the prepared record, and equal them if and only if the list of every security is there and full |
| `Emission.CountsAligned` | js-xbbg-langgraph/src/result-entitlements.ts:328-414 | for securities emitted in order, while lists stay lists, each count stands at the position of the security it counts, with the prepared or the earlier original count |
| `Emission.NoSummaryExactly` | js-xbbg-langgraph/src/result-entitlements.ts:328-414 | at every depth and whatever the names, for a record that reaches no further down than the depth limit: no summary goes out if and only if there was none before, the scan lost nothing and the record holds the members of the prepared one, each with all of its EIDs; these are then all securities of the input, in their order if the names are ordinary |
| `Emission.NoSummaryBelow` | js-xbbg-langgraph/src/result-entitlements.ts:328-414 | where the record reaches further down, a missing summary hides the loss: an empty record shows as a placeholder, or each EID does |
| `HiddenLoss.DepthHidesLoss` | js-xbbg-langgraph/src/result-entitlements.ts:328-414 | an object at depth 30 with `eidData` {"A":[1]} and ample budgets: the EID becomes the depth placeholder and no summary goes out |
| `Emission.EntitlementEmitted` | js-xbbg-langgraph/src/result-entitlements.ts:416-468 | what the property leaves in the object at any depth and whatever the names: nothing, with the reason; or the prepared securities, each at most once with leading EIDs, and wherever there is a summary, that summary with the counts of exactly what was emitted, or its omission with the reason and counted; without a summary everything is there exactly if the record reaches no further than the depth limit; with ordinary names securities are a prefix and counts align by position |
| `Emission.PriorityNameMoves` | js-xbbg-langgraph/src/result-entitlements.ts:341-362 | a security named like a priority key is emitted ahead of every other one, which is why alignment by position needs the names to be ordinary |
| `Envelope.MergeLimited` | js-xbbg-langgraph/src/result-envelope.ts:66-99 | reasons of both projections in order, losses added, value of the later one |
| `Envelope.FindPrimary` | js-xbbg-langgraph/src/result-envelope.ts:118-121 | the first reason other than the byte limit |
| `Envelope.FitArtifact` | js-xbbg-langgraph/src/result-envelope.ts:101-142 | the first of the candidate envelopes that fits |
| `Envelope.DeriveProjections` | js-xbbg-langgraph/src/result-envelope.ts:299-354 | reuse or re-projection of the canonical value for artifact and content, on the shared node budget |
| `Envelope.CreateToolResult` | js-xbbg-langgraph/src/result-envelope.ts:242-371 | the tool result or the refusal that the specification gives |
| `Delivery.FitBounded` | js-xbbg-langgraph/src/result-envelope.ts:101-142 | the envelope is within the limit including the last resort; unflagged only with all data; from 150 bytes of room on the data stays |
| `Delivery.ContentBounded` | js-xbbg-langgraph/src/result-envelope.ts:183-202 | the content is within its limit and always shows the projected value |
| `Delivery.MergedTruncated` | js-xbbg-langgraph/src/result-envelope.ts:66-99 | a merge is truncated exactly when one of its parts is, with exactly their reasons |
| `Delivery.SharesWithin` | js-xbbg-langgraph/src/result-envelope.ts:274-354 | each of the three projections stays within its share of bytes and nodes |
| `Delivery.WorkBounded` | js-xbbg-langgraph/src/result-envelope.ts:264-360 | materialized, canonical, artifact and content inspections together never exceed the node limit |
| `Delivery.DeliveredWithinLimits` | js-xbbg-langgraph/src/result-envelope.ts:242-371 | artifact and content are within their byte limits for every tool name; data is dropped only below 300 bytes; the summary alone is never returned; flags match the projections |
| `Delivery.ArtifactLosslessExactly` | js-xbbg-langgraph/src/result-envelope.ts:242-371 | the artifact goes out unflagged if and only if both projections can keep everything, a condition on the value and the limits alone, and then its data is the whole value |
| `Delivery.ArtifactKeepsAll` | js-xbbg-langgraph/src/result-envelope.ts:242-371 | an unflagged artifact has nothing missing, entitlement and stored-exception metadata included: its data is the canonical value or that value projected again, each without any loss |
| `Delivery.ContentLossless` | js-xbbg-langgraph/src/result-envelope.ts:304-368 | unflagged content shows the whole value under `data` |
| `Delivery.UnmarkedNotSpecial` | js-xbbg-langgraph/src/result-envelope.ts:331-342 | a JSON value without entitlement or stored-exception keys never meets the special rules on re-projection |
| `Delivery.AcceptedExactly` | js-xbbg-langgraph/src/result-envelope.ts:248-273 | nothing else is refused, except a content row limit that is not positive, and that one only when the content is projected again |
| `Delivery.SnapshotAdmitted` | js-xbbg-langgraph/src/result-envelope.ts:264-274 | rows materialized by a snapshot never make the envelope refuse its limits |
| `Properties.EscapeProperties` | scripts/stage_jvm_natives.py:311-326 | the escaping loop, failing exactly on lone surrogates |
| `Properties.UnescapeProperties` | scripts/stage_jvm_natives.py:342-362 | the unescaping loop, with malformed escapes and lone surrogates as errors |
| `Properties.SplitProperty` | scripts/stage_jvm_natives.py:369-386 | key and value at the first separator that is not escaped |
| `Properties.JoinContinuations` | scripts/stage_jvm_natives.py:399-404 | a line with its continuation lines |
| `Properties.ParseProperties` | scripts/stage_jvm_natives.py:389-407 | the parser as specified |
| `Properties.PropertiesText` | scripts/stage_jvm_natives.py:329-336 | prints exactly the maps without lone surrogates; the text parses back to the map and does not depend on the order of the map |
| `Properties.UnescapeEscape` | scripts/stage_jvm_natives.py:311-362 | unescaping undoes escaping for every key and value |
| `Properties.RoundTrip` | scripts/stage_jvm_natives.py:311-407 | whatever can be printed is parsed back to the same map |
| `Properties.ListingUnique` | scripts/stage_jvm_natives.py:331-336 | the sorted items of a map are unique |
| `SchemaClone.Cloner.constructor` | js-xbbg-langgraph/src/langchain-tool.ts:110 | an empty clone in progress |
| `SchemaClone.Cloner.CloneValue` | js-xbbg-langgraph/src/langchain-tool.ts:59-103 | on success the value is mapped into the copy and finished; a failure shows a cycle or something that is not JSON; the active set is restored either way |
| `SchemaClone.Cloner.CloneObject` | js-xbbg-langgraph/src/langchain-tool.ts:81-102 | the same for an object seen for the first time |
| `SchemaClone.FinishedUnbroken` | js-xbbg-langgraph/src/langchain-tool.ts:59-103 | a finished clone rules out every reachable cycle and everything that is not JSON |
| `SchemaClone.FreezeJsonSchema` | js-xbbg-langgraph/src/langchain-tool.ts:39-57 | the worklist freezes exactly the reachable objects |
| `SchemaClone.PushChildren` | js-xbbg-langgraph/src/langchain-tool.ts:47-52 | the children of an object are put on the worklist |
| `SchemaClone.CloneAndFreeze` | js-xbbg-langgraph/src/langchain-tool.ts:105-114 | succeeds if and only if nothing broken is reachable; the clone is isomorphic to the reachable graph, sharing included, and all of it is frozen |
| `ReplayQueue.AutonomousNativeSubscription.constructor` | js-xbbg/benchmarks/bench-subscription-replay.ts:162-172 | the state after the first burst; the run invariant holds |
| `ReplayQueue.AutonomousNativeSubscription.ProduceTurn` | js-xbbg/benchmarks/bench-subscription-replay.ts:248-273 | the producer from one await to the next; the run invariant is kept |
| `ReplayQueue.AutonomousNativeSubscription.OfferBatch` | js-xbbg/benchmarks/bench-subscription-replay.ts:250-266 | the next batch goes to the first waiter, else into the queue, else it is dropped, with exactly the counters of that case |
| `ReplayQueue.AutonomousNativeSubscription.RecordDelivery` | js-xbbg/benchmarks/bench-subscription-replay.ts:275-281 | a delivery is counted, also as one after a drop, and answers its call |
| `ReplayQueue.AutonomousNativeSubscription.AnswerWaiters` | js-xbbg/benchmarks/bench-subscription-replay.ts:305-309 | every waiter gets the end of the stream and the line is empty |
| `ReplayQueue.AutonomousNativeSubscription.NextArrowBatch` | js-xbbg/benchmarks/bench-subscription-replay.ts:199-219 | a queued batch, the end, or a place in line; the run invariant is kept |
| `ReplayQueue.AutonomousNativeSubscription.SignalClosing` | js-xbbg/benchmarks/bench-subscription-replay.ts:191-197 | deactivates and answers the waiters; the run invariant is kept |
| `ReplayQueue.AutonomousNativeSubscription.BeginStop` | js-xbbg/benchmarks/bench-subscription-replay.ts:283-287 | deactivates; the run invariant is kept |
| `ReplayQueue.AutonomousNativeSubscription.FinishStop` | js-xbbg/benchmarks/bench-subscription-replay.ts:288-302 | empties the queue into drained or discarded batches; the run invariant is kept |
| `ReplayQueue.AutonomousNativeSubscription.ConservationHolds` | js-xbbg/benchmarks/bench-subscription-replay.ts:852-868 | the conservation check passes exactly when the queue is empty |
| `ReplayQueue.SumRows` | js-xbbg/benchmarks/bench-subscription-replay.ts:290-293 | the rows of the queued batches |
| `ReplayQueue.StepKeeps` | js-xbbg/benchmarks/bench-subscription-replay.ts:134-310 | every step keeps the whole invariant: conservation in batches and rows, bounded depth, waiters only for an empty queue, admitted order, one answer per call, first come first served |
| `ReplayQueue.EveryRun` | js-xbbg/benchmarks/bench-subscription-replay.ts:134-310 | the invariant holds after every interleaving, and once the producer has settled every call is answered |
| `ReplayQueue.ProducerProgress` | js-xbbg/benchmarks/bench-subscription-replay.ts:248-273 | each producer turn ends it or moves it on |
| `ReplayQueue.CheckExactly` | js-xbbg/benchmarks/bench-subscription-replay.ts:852-868 | the check passes if and only if nothing is queued, so it passes once a reader has seen the end |
| `Snapshot.RowsFromArrowTable` | js-xbbg-langgraph/src/tools.ts:187-210 | reads the first rows up to the allowance, in order, and marks a shortened table |
| `Snapshot.NormalizeStreamUpdate` | js-xbbg-langgraph/src/tools.ts:212-224 | one update and the rows it cost |
| `Snapshot.Session.NextWithinTimeout` | js-xbbg-langgraph/src/tools.ts:226-268 | any outcome of the race, logged if the subscription was asked; nothing is asked of it once aborted, and the signal may fire whatever the race gives |
| `Snapshot.Session.Unsubscribe` | js-xbbg-langgraph/src/tools.ts:311-319 | one release, logged with the abort signal at that moment and with its error |
| `Snapshot.AllowanceSpent` | js-xbbg-langgraph/src/tools.ts:281-303 | rows kept over all updates are exactly what the allowance lost |
| `Snapshot.CollectUpdates` | js-xbbg-langgraph/src/tools.ts:286-307 | the loop: every `next` logged, all but the last delivering; updates normalised in order within the limit; each way of ending exactly when its cause occurred |
| `Snapshot.CollectSnapshot` | js-xbbg-langgraph/src/tools.ts:270-334 | on every run one release after the last `next`, draining exactly if asked to and the signal had not fired by then; updates and rows within their limits; the error of the release is reported with a result and never replaces the error of the run |
| `LayoutCache.FingerprintExactly` | js-xbbg/src/arrow-zero-copy.ts:53-59 | without separators in the texts two fingerprints are equal if and only if the columns are, up to an empty time zone |
| `LayoutCache.LayoutsAgreeExactly` | js-xbbg/src/arrow-zero-copy.ts:53-77 | columns with equal fingerprints have equal layouts if and only if no timestamp with an empty time zone stands against one without |
| `LayoutCache.EmptyTimezoneCollides` | js-xbbg/src/arrow-zero-copy.ts:53-59 | a timestamp with an empty time zone and one with none share a fingerprint although the layouts differ |
| `LayoutCache.SeparatorCollides` | js-xbbg/src/arrow-zero-copy.ts:53-59 | a name that holds the separators gives one column the fingerprint of two, for every kind |
| `LayoutCache.LayoutCacheMap.constructor` | js-xbbg/src/arrow-zero-copy.ts:51 | an empty cache |
| `LayoutCache.LayoutCacheMap.CachedLayout` | js-xbbg/src/arrow-zero-copy.ts:61-86 | a hit moves to the end; a miss is added, after evicting the oldest at the limit |
| `LayoutCache.LeastRecentlyUsed` | js-xbbg/src/arrow-zero-copy.ts:61-86 | after any sequence of lookups the keys are the 128 most recently used distinct fingerprints, in order of use |
| `LayoutCache.FreshExactly` | js-xbbg/src/arrow-zero-copy.ts:61-86 | lookups of columns from any set are fresh in every sequence if and only if no two of them share a fingerprint but not a layout |
| `LayoutCache.LookupsAreFresh` | js-xbbg/src/arrow-zero-copy.ts:61-86 | so they are for texts without separators and timestamps without an empty time zone |
| `CoreResolver.Resolver.constructor` | js-xbbg-langgraph/src/core-loader.ts:84-87 | nothing remembered; a given core or engine is noted |
| `CoreResolver.Resolver.GetCorePromise` | js-xbbg-langgraph/src/core-loader.ts:114-119 | the remembered import, or a new one |
| `CoreResolver.Resolver.GetEnginePromise` | js-xbbg-langgraph/src/core-loader.ts:121-126 | the given engine, the remembered connection, or a new one that first asks for the core |
| `CoreResolver.Resolver.OnConnectRejected` | js-xbbg-langgraph/src/core-loader.ts:106-110 | a rejected connection is forgotten if it is still the remembered one |
| `CoreResolver.Resolver.OnImportRejected` | js-xbbg-langgraph/src/core-loader.ts:92-96 | the same for an import |
| `CoreResolver.EveryRun` | js-xbbg-langgraph/src/core-loader.ts:84-133 | in every interleaving at most one connect is pending or has succeeded |
| `CoreResolver.StepStable` | js-xbbg-langgraph/src/core-loader.ts:84-133 | outcomes never change; an attempt is forgotten only by its own rejection handler |
| `CoreResolver.SharedAttempt` | js-xbbg-langgraph/src/core-loader.ts:121-126 | until then all later callers share the attempt, and a success is shared for good |
| `CoreResolver.RetryAfterRejection` | js-xbbg-langgraph/src/core-loader.ts:106-125 | after a rejection the handler runs and the next caller starts a new attempt |
| `Manifest.ReadTokens` | scripts/stamp_workspace_version.py:53-61 | the tokens up to a comment; a stray quote is an error |
| `Manifest.ReadFields` | scripts/stamp_workspace_version.py:76-93 | top-level fields with balanced brackets |
| `Manifest.ReadVersions` | scripts/stamp_workspace_version.py:95-102 | the version token of every version field |
| `Manifest.DependencyVersion` | scripts/stamp_workspace_version.py:70-105 | exactly one version field |
| `Manifest.ClassifyLine` | scripts/stamp_workspace_version.py:115-137 | header, anchor with the span inside its quotes, or neither |
| `Relexing.RelexRequoted` | scripts/stamp_workspace_version.py:29-61 | with other contents in one quoted string the line is cut into the same tokens |
| `Relexing.DependencySame` | scripts/stamp_workspace_version.py:70-105 | and the version field is found where it was |
| `VersionStamp.ClassifySame` | scripts/stamp_workspace_version.py:115-137 | a line with its version replaced is the same anchor, at the same place |
| `VersionStamp.CargoIdempotent` | scripts/stamp_workspace_version.py:35-50 | normalising a version twice is normalising it once |
| `VersionStamp.CargoPlain` | scripts/stamp_workspace_version.py:22-50 | a release version has nothing in it that could end a string or a line |
| `VersionStamp.CollectAnchors` | scripts/stamp_workspace_version.py:114-138 | the line loop, with its running offset and duplicate check |
| `VersionStamp.VersionAnchors` | scripts/stamp_workspace_version.py:108-147 | all required anchors exactly once, both sections exactly once, or an error |
| `VersionStamp.ReplaceSpans` | scripts/stamp_workspace_version.py:163-170 | the cursor loop over ordered, disjoint spans |
| `VersionStamp.StampReadsBack` | scripts/stamp_workspace_version.py:150-170 | the stamped text has the same anchors in the same order, all at the version, without drift |
| `VersionStamp.GapsKept` | scripts/stamp_workspace_version.py:163-170 | gap by gap, from the start of the manifest to its end, the stamped text equals the original outside the version spans |
| `VersionStamp.OnlyVersionsChange` | scripts/stamp_workspace_version.py:163-170 | stamping anything afterwards gives what it would have given before |
| `VersionStamp.StampWorkspaceVersion` | scripts/stamp_workspace_version.py:150-170 | refused exactly for a bad version, missing anchors, or drift in check mode; otherwise every anchor ends at the version, and a text without drift is left alone |

## Left out

- Proxies and objects whose prototype or descriptors cannot be inspected (`[Uninspectable object]`).
- The enumeration order of integer-like keys in records that the projector itself builds: such keys would be enumerated first when its output is projected again.
- Getters and message or name properties of errors that run code, and `toJSON` methods that answer differently when called twice.
- Date arithmetic: a date is its ISO text, or invalid.
- Soundness.BuildRawSound: error messages and causes of malformed metadata are not kept apart; every failure is one outcome.
- StoredExactly.DocumentExactly: securities are taken to be distinct, as parsed JSON objects have them.
- Emission.EntitlementEmitted: a security named like a priority key is emitted ahead of the others (`Emission.PriorityNameMoves`), so order and alignment by position are claimed without such names only; everything else holds for all names.
- Delivery.ContentLossless: speaks of the `data` member of the content, not of the diagnostics shown beside it.
- Delivery.AcceptedExactly: limits are integers; fractions and NaN are not modelled, and content limits above the largest safe integer are excluded.
- The reuse shortcut for artifact and content against row limits of arrays that are not shared.
- SchemaClone.CloneAndFreeze: the length of a sparse array with trailing holes, and the cache of frozen schemas by identity.
- ReplayQueue.EveryRun: time, metrics getters and the consumer loop of the benchmark.
- Snapshot.CollectSnapshot: errors are known by number; the clock is an undetermined outcome.
- LayoutCache.FreshExactly: Arrow type constructors; a layout is what they are given.
- CoreResolver.EveryRun: the values of resolved promises; attempts are known by number and status.
- VersionStamp.StampWorkspaceVersion: reading, decoding and atomically replacing the file; error texts.
- Properties.ParseProperties: decoding of the file, and the texts of errors.
- The Rust engine, shared feeds, delivery modes and overflow policies.
- zod schemas, tool factories, option normalisation, chart specifications and error-message parsing: thin or branch-by-branch code.
- Arrow vectors and buffers, Polars loading, executable readers, packaging and build scripts.
