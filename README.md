# Databend query and meta service: four sequential cores

This project models four small pieces of the Databend query and meta
services and proves what they promise:

- **The query context's own state** (`query_ctx.dfy`): the FIFO of
  partitions that the pipeline's sources take work from; the fragment-id
  counter; the partition SHAs that every context of a query collects; and
  the version string reported to each kind of client session. The SHAs are
  read back sorted under Rust's `String` order. That order is modelled
  separately in module `StringOrder`.
- **The export stream of the meta service** (`export_stream.dfy`): the
  exported lines are handed out from the front, at most sixteen per poll,
  until nothing is left.
- **The auto-cast rules of the scalar function registry** (`auto_cast.dfy`):
  the general, from-string and from-variant rule tables, and the
  registration step that decides which tables each function name gets.
- **`DESCRIBE TABLE`** (`describe_table.dfy`): one output row per schema
  field, in five parallel string columns.

`types.dfy` holds the data types the rule tables range over. `wrappers.dfy`
holds `Option` and `Result`. `seqs.dfy` holds two small sequence helpers.

The locks and atomics of the query context are modelled as plain fields
updated one call at a time. The collaborators that sit outside these cores
are parameters of the model:

- the commit id of the build;
- the names of the simple cast functions and of the comparison functions;
- the catalog lookup and the SQL planner;
- the type formatter, the renderer of stored default expressions, and a
  type's default value.

## Model

| member | source | states |
|---|---|---|
| QueryCtx.WrappingIncrement | src/query/service/src/sessions/query_ctx.rs:319-321 | `fetch_add(1)` on a `usize`: one more below 2^64, and 0 after the largest value |
| QueryCtx.FuseVersion | src/query/service/src/sessions/query_ctx.rs:353-360 | ClickHouse sessions get "8.12.14", MySQL sessions get "8.0.26-" and the commit, all others get "DatabendQuery " and the commit; each is an if-and-only-if, because the three strings differ |
| QueryCtx.QueryContext.GetFuseVersion | src/query/service/src/sessions/query_ctx.rs:353-360 | the match over the context's stored version fields gives the version `FuseVersion` assigns to the session's type |
| QueryCtx.QueryContext.CreateFromShared | src/query/service/src/sessions/query_ctx.rs:92-103 | a new context has an empty partition queue, a fragment counter at 0, and the three version strings made from the commit |
| QueryCtx.QueryContext.CreateFrom | src/query/service/src/sessions/query_ctx.rs:88-90 | a new context shares the other context's shared state, with a fresh queue and counter |
| QueryCtx.QueryContextShared.constructor | src/query/service/src/sessions/query_ctx.rs:290-300 | the shared state that `add_partitions_sha` and `get_partitions_shas` use: an empty SHA list and a fixed session type; its construction is outside the modelled files, so both are assumptions (see "Left out") |
| QueryCtx.QueryContext.GetPartition | src/query/service/src/sessions/query_ctx.rs:257-259 | none exactly when the queue is empty, and then the queue is unchanged; otherwise the front partition, and the queue becomes its tail |
| QueryCtx.TakeFront | src/query/service/src/sessions/query_ctx.rs:261-277 | the taken prefix followed by the rest is the whole queue; the prefix has min(num, n) elements |
| QueryCtx.QueryContext.GetPartitions | src/query/service/src/sessions/query_ctx.rs:261-277 | the result is the first min(num, n) partitions in queue order and the queue becomes the remaining suffix; with num = 0 or an empty queue, nothing is taken and nothing changes |
| QueryCtx.QueryContext.SetPartitions | src/query/service/src/sessions/query_ctx.rs:280-288 | succeeds, and the queue becomes exactly the given partitions in order, with the old contents discarded |
| QueryCtx.TakeBatchesReassemble | src/query/service/src/sessions/query_ctx.rs:261-288 | the batches handed out by successive `get_partitions` calls, followed by what is left, concatenate back to the queue that was set |
| QueryCtx.FragmentIds | src/query/service/src/sessions/query_ctx.rs:319-321 | n successive calls return n ids |
| QueryCtx.QueryContext.GetFragmentId | src/query/service/src/sessions/query_ctx.rs:319-321 | returns the counter's old value and advances the counter by one, wrapping like `fetch_add` |
| QueryCtx.QueryContext.GetFragmentIds | src/query/service/src/sessions/query_ctx.rs:319-321 | n calls of `get_fragment_id` in a row return exactly `FragmentIds` of the starting counter, and leave the counter where the next call starts |
| QueryCtx.FragmentIdsStep | src/query/service/src/sessions/query_ctx.rs:319-321 | each id of a run is the wrapping increment of the one before |
| QueryCtx.FragmentIdsCountUp | src/query/service/src/sessions/query_ctx.rs:319-321 | short of wrap-around, the i-th of successive ids is the start value plus i |
| QueryCtx.FragmentIdsFromZero | src/query/service/src/sessions/query_ctx.rs:101 | from a new context the ids are 0, 1, 2, ... and no id repeats |
| QueryCtx.QueryContext.AddPartitionsSha | src/query/service/src/sessions/query_ctx.rs:290-293 | the SHA is appended to the shared list |
| QueryCtx.QueryContext.GetPartitionsShas | src/query/service/src/sessions/query_ctx.rs:295-300 | the result is sorted and is a permutation of the stored SHAs; the stored list is not modified |
| StringOrder.StrLeReflexive | src/query/service/src/sessions/query_ctx.rs:298 | the string order used by the sort is reflexive |
| StringOrder.StrLeTotal | src/query/service/src/sessions/query_ctx.rs:298 | the string order is total |
| StringOrder.StrLeTransitive | src/query/service/src/sessions/query_ctx.rs:298 | the string order is transitive |
| StringOrder.StrLeAntisymmetric | src/query/service/src/sessions/query_ctx.rs:298 | the string order is antisymmetric |
| StringOrder.Insert | src/query/service/src/sessions/query_ctx.rs:298 | inserting into a sorted list keeps it sorted and adds exactly that element |
| StringOrder.SortStrings | src/query/service/src/sessions/query_ctx.rs:298 | the sort yields a sorted permutation of its input |
| StringOrder.SortedUnique | src/query/service/src/sessions/query_ctx.rs:297-298 | two sorted permutations of the same SHAs are equal, so the sorted result is fully determined |
| StringOrder.SortIsOrderIndependent | src/query/service/src/sessions/query_ctx.rs:297-298 | the SHAs read back are the same whatever order they were added in ("stable for the same query") |
| ExportStream.Chunks | src/meta/service/src/api/grpc/grpc_service.rs:303-317 | the chunks the stream yields concatenate back to the exported data, in order |
| ExportStream.ChunkShape | src/meta/service/src/api/grpc/grpc_service.rs:313 | every chunk has 1 to 16 lines, all but the last exactly 16, and there are ceil(n/16) of them |
| ExportStream.ExportStream.constructor | src/meta/service/src/api/grpc/grpc_service.rs:299-301 | the stream starts with the given data |
| ExportStream.ExportStream.PollNext | src/meta/service/src/api/grpc/grpc_service.rs:306-316 | end of stream exactly when no data is left, and then nothing changes; otherwise the first min(16, n) lines, which leave the data; the data strictly shrinks; the chunk is the first of `Chunks` of the old data and the rest are `Chunks` of the new |
| ExportStream.ExportStream.Drain | src/meta/service/src/api/grpc/grpc_service.rs:303-317 | polling until end of stream yields exactly `Chunks` of the data, whose concatenation is the data; the stream ends empty |
| AutoCast.GeneralCastRules | src/query/functions/src/scalars/mod.rs:104-239 | strings are cast only to timestamp, date or boolean, never to a number; sources are strings, dates and numbers; no rule is a no-op or yields a nullable; numbers go only to numbers |
| AutoCast.GeneralStringTargets | src/query/functions/src/scalars/mod.rs:105-109 | the string-to-timestamp, string-to-date and string-to-boolean rules are present |
| AutoCast.CastFromStringRules | src/query/functions/src/scalars/mod.rs:241-253 | every rule goes from a string to an integer type, and every integer type is covered |
| AutoCast.VariantRulesFrom | src/query/functions/src/scalars/mod.rs:255-371 | every rule starts at the given source and ends at a variant target made nullable, and every one of the 14 targets is reached |
| AutoCast.CastFromVariantRules | src/query/functions/src/scalars/mod.rs:255-371 | every source is a variant or a nullable variant, every target is nullable, and there are 28 rules |
| AutoCast.VariantRulesCoverTargets | src/query/functions/src/scalars/mod.rs:255-371 | each of the 14 scalar targets is reached from both a variant and a nullable variant |
| AutoCast.GeneralHasNoStringToNumber | src/query/functions/src/scalars/mod.rs:104-110 | the general table holds no string-to-number rule |
| AutoCast.GeneralNotFromVariant | src/query/functions/src/scalars/mod.rs:104-239 | the general table casts from neither a variant nor a nullable type |
| AutoCast.VariantHasNoStringToNumber | src/query/functions/src/scalars/mod.rs:255-371 | the variant table holds no string-to-number rule |
| AutoCast.FunctionRegistry.Empty | src/query/functions/src/scalars/mod.rs:50 | a registry starts with no rules of any kind |
| AutoCast.FunctionRegistry.RegisterDefaultCastRules | src/query/functions/src/scalars/mod.rs:75-77 | appends to the default rules and changes nothing else |
| AutoCast.FunctionRegistry.RegisterAutoTryCastRules | src/query/functions/src/scalars/mod.rs:78 | appends to the auto-try-cast rules and changes nothing else |
| AutoCast.FunctionRegistry.RegisterAdditionalCastRules | src/query/functions/src/scalars/mod.rs:82-89 | appends to one name's additional rules, creating the entry if missing |
| AutoCast.RegisterAutoCastRules | src/query/functions/src/scalars/mod.rs:74-103 | the default rules grow by general, string and variant rules in that order, the auto-try rules by the variant rules, and the per-name rules as `AutoCastAdditions` says |
| AutoCast.RegisterWith | src/query/functions/src/scalars/mod.rs:74-103 | the same registration steps over the three tables it is given |
| AutoCast.RegisterLogicalRules | src/query/functions/src/scalars/mod.rs:80-91 | and, or, not and xor each receive, per integer type, that type's cast to boolean followed by the three tables |
| AutoCast.RegisterIntegerRules | src/query/functions/src/scalars/mod.rs:81-90 | the inner loop appends the per-type blocks, in type order, to one name |
| AutoCast.RegisterIntegerType | src/query/functions/src/scalars/mod.rs:82-89 | one pass appends the type's cast to boolean, then the general, string and variant rules |
| AutoCast.RegisterSimpleCastRules | src/query/functions/src/scalars/mod.rs:93-96 | each simple cast function name receives the general rules only |
| AutoCast.RegisterComparisonRules | src/query/functions/src/scalars/mod.rs:98-102 | each comparison function name receives the general rules, then the variant rules |
| AutoCastProperties.AppendForNamesKeys | src/query/functions/src/scalars/mod.rs:80-102 | a registration loop gives an entry exactly to the names it visits |
| AutoCastProperties.AppendForNamesMembers | src/query/functions/src/scalars/mod.rs:80-102 | after a registration loop a name holds a rule iff it held it before, or it was visited and the rule was registered |
| AutoCastProperties.LogicalBlockMembers | src/query/functions/src/scalars/mod.rs:81-90 | the inner loop leaves, for each integer type it visited, that type's cast to boolean, plus the three tables |
| AutoCastProperties.IntegerTypesListed | src/query/functions/src/scalars/mod.rs:81 | the integer types the loop visits are exactly the eight integer number types |
| AutoCastProperties.ComparisonRules | src/query/functions/src/scalars/mod.rs:98-102 | a comparison function gets exactly the general and variant rules, so never a string-to-number cast (`1 < '1'` stays an error) |
| AutoCastProperties.SimpleCastRules | src/query/functions/src/scalars/mod.rs:93-96 | a simple cast function gets exactly the general rules: no string-to-number rule and no variant rule |
| AutoCastProperties.LogicalRules | src/query/functions/src/scalars/mod.rs:80-91 | and/or/not/xor accept every integer type by a cast to boolean and hold every general, string and variant rule; registered nowhere else, that is all they hold |
| AutoCastProperties.RegisteredNames | src/query/functions/src/scalars/mod.rs:74-103 | registration gives an entry to exactly the logical, simple cast and comparison names, plus those already present |
| DescribeTable.Execute2 | src/query/service/src/interpreters/interpreter_table_describe.rs:57-123 | a view without a stored query fails with the Internal "View Table must have a SelectQuery inside" error; lookup and planner errors are returned; a non-view describes its own schema and a view its planned query's schema; the result is an error exactly when some default expression fails to render, and then it is the first such error; otherwise num_rows and all five columns have one entry per field, and row i has field i's name, its type formatted without Nullable, "YES" iff the field is nullable and "NO" otherwise, its rendered default expression or else its type's default value, and an empty extra |

## Left out

- The snapshot-based MERGE and mutation commit engine is not part of this model. The shown merge module only declares and re-exports it.
- The meta-service RPC handlers around the export stream are not modelled: handshake, kv, transaction, export, watch, member list, client info and token checks. Only the stream's `poll_next` is.
- The query context's other members only delegate to the shared state, session manager, catalogs or user API, or do asynchronous I/O; they are not modelled.
- The `RwLock` and the atomic counter are modelled sequentially: each call runs alone. Concurrent callers are not modelled.
- `Partitions` is reduced to its list of partitions. A partition descriptor is an opaque type parameter.
- QueryCtx.SessionType: the session kinds other than ClickHouse and MySQL are collapsed into one `Other` case, because only these two are told apart.
- QueryCtx.QueryContextShared.constructor: the shared state is built outside the modelled files. The model assumes its SHA list starts empty and its session type does not change afterwards.
- QueryCtx.QueryContext.GetPartitions: `Vec::with_capacity(num)` panics with a capacity overflow when `num` times the size of a partition pointer exceeds `isize::MAX` (from `num` = 2^60 on a 64-bit target), and aborts when a huge allocation fails. The model takes any `num` and does not model either failure.
- QueryCtx.WrappingIncrement: `usize` is taken to be 64 bits wide, so the fragment counter wraps from 2^64 - 1 to 0. A 32-bit target, which wraps at 2^32, is not modelled.
- The commit id of the build is a parameter of the constructors. Its value is fixed at build time.
- `Vec::sort` is modelled as an insertion sort. Only its result, the unique sorted permutation, is relied on.
- The function registry is reduced to its three cast-rule collections. The function families' own `register` calls are not modelled.
- `ALL_SIMPLE_CAST_FUNCTIONS` and `ALL_COMP_FUNC_NAMES` are defined outside the shown files, so they are parameters. `ALL_INTEGER_TYPES` is taken to be the eight integer number types.
- Rules are kept as lists, in registration order and with duplicates. The boolean functions receive the three tables once per integer type, as the loop does. The properties are stated by membership.
- AutoCastProperties.ComparisonRules, AutoCastProperties.SimpleCastRules: the exact rule set is stated for a name registered in no other family and with no earlier entry. A name in several families holds the union, as `AppendForNamesMembers` states.
- The `VIEW` engine name and the `query` option key come from the view storage crate, which is not part of this model. They are taken to be "VIEW" and "query".
- Several `DESCRIBE TABLE` collaborators are parameters: the table lookup, the planner, `format_data_type_sql`, parsing and printing of a stored default expression, and a type's default value. JSON parsing and SQL planning are not modelled.
- DescribeTable.Execute2: a field counts as nullable when its type is `Nullable(..)`. The output is reduced to its five columns and row count; how the result is packed for the pipeline is not modelled.
- The data-type enum holds the types these cores mention: boolean, string, the ten number types, timestamp, date, variant and nullable. Float32 and Float64 are tags only; there is no floating-point arithmetic.
