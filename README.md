# mongoscript, modelled in Dafny

MongoScript batches several named MongoDB find queries into one round trip.
- As the tests describe it, the Ruby side sends the batch to the server as the argument of the read-only JavaScript routine `multiquery`. The library's own `multiquery` does not: for a non-empty batch it returns `nil` (see "## Findings").
- The routine runs every query inside the database. It checks that the collection is listed in `system.namespaces`, calls `find(selector, fields || null)`, applies each modifier (`limit`, `sort`, ...) to the cursor in order, and materialises the result with `toArray()`.
- Any exception is caught per query and stored as an `{error: e}` marker, so one failing query never disturbs the others.
- Back in Ruby, `process_results` rewrites the response hash in place. Error markers become `QueryFailed` values. As the tests describe it, row arrays become domain objects built by the ORM's `rehydrate(klass, row)`; as written, its error check raises `TypeError` on a row array (see "## Findings").

The Ruby side also has three supporting pieces:
- a Mongoid adapter that rewrites Mongoid complex criteria (`:age.gt => 5`) into plain Mongo hashes at every nesting level;
- `code_for`, which finds a script file in the script directories and caches it in the global `LOADED_SCRIPTS`;
- `execute`, which sends the `$eval` command and accepts only a reply whose `ok` is 1.

The JavaScript tests run the routine against a hand-written mock database. That mock is modelled too, as a concrete instance of the routine's database.

Modules, one per source file:

| file | module | models |
|---|---|---|
| `values.dfy` | `Values` | JSON/BSON values, JavaScript and Ruby truthiness |
| `ruby_errors.dfy` | `RubyErrors` | the exception classes and their superclasses |
| `routine.dfy` | `MultiqueryRoutine` | `lib/mongoscript/javascripts/multiquery.js` |
| `mock_mongo.dfy` | `MockMongo` | `spec/javascripts/helpers/SpecHelper.js` |
| `criteria.dfy` | `Criteria` | `lib/mongoscript/orm/mongoid_adapter.rb` |
| `execution.dfy` | `Execution` | `lib/mongoscript/execution.rb` |
| `reconciler.dfy` | `Reconciler` | `process_results` in `spec/cases/multiquery_spec.rb` |
| `multiquery.dfy` | `Multiquery` | `lib/mongoscript/multiquery.rb` and the pipeline its tests describe |
| `wrappers.dfy` | `Wrappers` | `Option` and `Result` |

A value that JavaScript or Ruby would throw is a `Failure` of a `Result`. The database the routine sees is a record of functions: the namespace listing, `find`, one cursor method call, and `toArray`. Each can succeed or throw. The file system is a map from path to contents. The database command, the ORM's `rehydrate` and query normalisation are function parameters.

Three facts about the code shape the model:
- `process_results` iterates over the response hash, not over the submitted queries. A query with no response gets no entry.
- `execute_readonly_code` passes the option `nolock => true`.
- The library has no `normalize_queries` method, so normalisation is a function parameter. A non-empty normalised batch is required to be `Criteria.Canonical`: every hash, at any depth, is written as a hash, as a Ruby hash always reaches `resolve_arguments`.

## Model

| member | source | states |
|---|---|---|
| Values.ErrorMarker | lib/mongoscript/javascripts/multiquery.js:35 | the per-query marker is a document whose only member is `error`, holding the thrown value |
| MultiqueryRoutine.CollectionText | lib/mongoscript/javascripts/multiquery.js:31 | the collection as text: the collection itself, or "undefined" when it is absent |
| MultiqueryRoutine.FieldsArg | lib/mongoscript/javascripts/multiquery.js:20 | `find` gets the query's fields when they are present and truthy; absent or falsy fields (`null`, `false`, `0`, `""`) give `null` |
| MultiqueryRoutine.ModifierList | lib/mongoscript/javascripts/multiquery.js:16 | `query.modifiers \|\| []`: the given modifiers, or none when the list is absent |
| MultiqueryRoutine.Batch | lib/mongoscript/javascripts/multiquery.js:9-39 | the routine succeeds iff reading the namespace listing succeeds, and then it has exactly one entry per query name; a throw while listing is propagated unchanged |
| MultiqueryRoutine.Multiquery | lib/mongoscript/javascripts/multiquery.js:1-40 | the loop computes `Batch`. A `find` is issued exactly for the queries whose qualified collection name is listed, with that query's collection, selector and `fields \|\| null`. Nothing is issued when the listing throws |
| MultiqueryRoutine.RunQuery | lib/mongoscript/javascripts/multiquery.js:20-25 | the inner loop gives the `toArray()` of the cursor after every modifier, or the marker of the first throw |
| MultiqueryRoutine.ApplyModifiers | lib/mongoscript/javascripts/multiquery.js:22-24 | a chain whose every call returns succeeds; a chain of calls that return their own cursor gives back `find`'s cursor; a throw is the value some modifier call threw |
| MultiqueryRoutine.Fetch | lib/mongoscript/javascripts/multiquery.js:20-25 | a row array iff `find`, every modifier and `toArray` return, and then exactly what `toArray` produced; otherwise the `{error: e}` marker of the first value thrown |
| MultiqueryRoutine.EntryResult | lib/mongoscript/javascripts/multiquery.js:19-36 | `results[queryName]` is a row array or an `{error: ...}` marker, given that `toArray` yields an array; a row array only for a listed collection; an unlisted one gets "Unable to locate collection <name>" |
| MultiqueryRoutine.ApplyModifiersAppend | lib/mongoscript/javascripts/multiquery.js:22-24 | applying `a + b` is applying `a` and then `b` to the cursor it returned; the first throw ends the chain |
| MultiqueryRoutine.ApplyModifiersBase | lib/mongoscript/javascripts/multiquery.js:16-24 | absent or empty modifiers leave `find`'s cursor as is; one modifier is exactly one cursor call |
| MultiqueryRoutine.ApplyModifiersStep | lib/mongoscript/javascripts/multiquery.js:22-24 | modifiers apply in their given order, each to the previous one's cursor |
| MultiqueryRoutine.UnlistedIssuesNoFind | lib/mongoscript/javascripts/multiquery.js:19-31 | an unlisted collection yields "Unable to locate collection <name>" whatever `find`, the modifiers or `toArray` would do |
| MultiqueryRoutine.ListedResult | lib/mongoscript/javascripts/multiquery.js:19-36 | a listed collection yields a row array iff `find`, every modifier and `toArray` return, and the array is what `toArray` produced; a throw from `find`, from a modifier or from `toArray` yields the marker of that value |
| MultiqueryRoutine.OtherEntriesUnaffected | lib/mongoscript/javascripts/multiquery.js:13-37 | replacing one query, for instance by one that throws, changes no other entry of the batch |
| MockMongo.NamespaceEntry | spec/javascripts/helpers/SpecHelper.js:53-55 | the pushed record is a document whose `name` is `dbName + "." + name` |
| MockMongo.NamespaceEntries | spec/javascripts/helpers/SpecHelper.js:53-55 | one record per collection name, in push order |
| MockMongo.EntriesSnoc | spec/javascripts/helpers/SpecHelper.js:53-55 | pushing one more collection appends exactly its record |
| MockMongo.NamesOf | lib/mongoscript/javascripts/multiquery.js:9 | `ns => ns.name`, record by record: a document gives its `name` member, any other non-null record gives `null` |
| MockMongo.NullFreeRecords | spec/javascripts/helpers/SpecHelper.js:53-55 | the pushed records are documents, so the listing has a `null` record iff the seed of `system.namespaces` has one |
| MockMongo.MockQuery.constructor | spec/javascripts/helpers/SpecHelper.js:20-36 | a new cursor keeps its params, fields and collection, with nothing recorded for `limit` or `sort` |
| MockMongo.MockQuery.Limit | spec/javascripts/helpers/SpecHelper.js:25 | records its arguments, leaves the sort arguments alone, returns the same cursor |
| MockMongo.MockQuery.Sort | spec/javascripts/helpers/SpecHelper.js:26 | records its arguments, leaves the limit arguments alone, returns the same cursor |
| MockMongo.MockQuery.ToArray | spec/javascripts/helpers/SpecHelper.js:27-30 | always the collection's whole data, whatever the selector, fields, limit or sort |
| MockMongo.MockQuery.Map | spec/javascripts/helpers/SpecHelper.js:31-34 | `f` applied to every row of the collection's data, same length and order |
| MockMongo.MockCollection.constructor | spec/javascripts/helpers/SpecHelper.js:6-18 | a collection created without data has an empty data sequence; no cursor exists yet |
| MockMongo.MockCollection.Push | spec/javascripts/helpers/SpecHelper.js:53-55 | `data.push(record)` appends the record and keeps the memoised cursor |
| MockMongo.MockCollection.Find | spec/javascripts/helpers/SpecHelper.js:11-14 | memoised: the first call creates the cursor from its arguments, and every later call returns that same cursor whatever its arguments |
| MockMongo.MockDb.constructor | spec/javascripts/helpers/SpecHelper.js:5-63 | a fresh db has its name and no collections, not even `system.namespaces` |
| MockMongo.MockDb.ToString | spec/javascripts/helpers/SpecHelper.js:39-41 | `toString()` is the db's name |
| MockMongo.MockDb.Taken | spec/javascripts/helpers/SpecHelper.js:44 | `this[name]` is truthy for every existing collection; for a name that is neither inherited nor `name`, exactly when the collection exists |
| MockMongo.MockDb.AddCollection | spec/javascripts/helpers/SpecHelper.js:43-57 | the whole new state. A no-op when `this[name]` is already truthy. Otherwise it creates the collection with its data and no memoised cursor. The first call also creates `system.namespaces`: its own record precedes the new one, and its seed is the data given when it is itself the first name added, otherwise empty. The new `system.namespaces` has no memoised cursor either. It appends the record `dbName + "." + name`. Every existing collection stays the same object with the same memoised cursor, and all but `system.namespaces` keep their data. The namespace records stay in step with the collections |
| MockMongo.MockDb.AddFirst | spec/javascripts/helpers/SpecHelper.js:44-55 | the first call for another name: the nested call creates `system.namespaces` with no data and its own record, then the new collection's record follows; both collections are new, with no memoised cursor |
| MockMongo.MockDb.AddNamespacesFirst | spec/javascripts/helpers/SpecHelper.js:44-55 | `addCollection("system.namespaces", data)` on an empty db: its seed is `data \|\| []` and its own record is pushed after it |
| MockMongo.MockDb.AddRegistered | spec/javascripts/helpers/SpecHelper.js:44-55 | a later call creates the collection and appends only its record; every other collection keeps its object, data and memoised cursor |
| MockMongo.RecordsCarryTheDbName | spec/javascripts/helpers/SpecHelper.js:39-41 | every pushed record names its collection prefixed with the db's `toString()` |
| MockMongo.MockDatabase | spec/javascripts/helpers/SpecHelper.js:11-30 | the mock as the routine's database: the listing exists iff `system.namespaces` does and none of its records is `null` (reading `ns.name` of a `null` record throws outside the `try`), and then lists its records' names; `find` returns iff the collection exists, and `toArray` of its cursor is the collection's data; `limit`, `sort` and the inherited `valueOf` return the cursor itself; any other method throws |
| MockMongo.MockModifiersKeepCursor | spec/javascripts/helpers/SpecHelper.js:25-26 | on the mock, any chain of `limit`/`sort`/`valueOf` calls returns the cursor it started from; a chain with any other method throws |
| MockMongo.ListedAfterAdd | spec/javascripts/helpers/SpecHelper.js:53-55 | every added collection is listed under its qualified name |
| MockMongo.AddedCollectionServesItsData | spec/javascripts/multiquery_spec.js:60-76 | the listing succeeds iff no `null` record was seeded into `system.namespaces`, and then the routine run on the mock gives an added collection's query, with `limit`/`sort` modifiers, exactly that collection's data |
| MockMongo.BogusCollectionIsAnError | spec/javascripts/multiquery_spec.js:94-97 | the routine run on the mock gives a query on a collection never added the "Unable to locate collection" marker |
| MockMongo.Fixture | spec/javascripts/helpers/SpecHelper.js:68-81 | the tests' db holds `system.namespaces`, `vehicles` and `paths`, registered in that order, with three rows each |
| Criteria.Expand | lib/mongoscript/orm/mongoid_adapter.rb:39 | every pair is expanded on its own, in order; `:f.op => v` becomes `:f => {"$op" => v}` |
| Criteria.ResolveValue | lib/mongoscript/orm/mongoid_adapter.rb:40 | a non-hash value is kept as it is; a hash becomes a resolved map with no complex key |
| Criteria.ResolveHash | lib/mongoscript/orm/mongoid_adapter.rb:37-43 | `resolve_complex_criteria(hash)` leaves no complex key at the top level |
| Criteria.ResolveComplexCriteria | lib/mongoscript/orm/mongoid_adapter.rb:37-43 | the recursive loop builds exactly `ResolveHash` of its input into a fresh map |
| Criteria.ResolveArguments | lib/mongoscript/orm/mongoid_adapter.rb:21-23 | same length and order; a non-hash argument passes through unchanged; a hash argument is replaced by its resolved criteria |
| Criteria.ResolveHashKeys | lib/mongoscript/orm/mongoid_adapter.rb:38-42 | the result has exactly the keys of the one-level expansion |
| Criteria.ExpandedKeys | lib/mongoscript/orm/mongoid_adapter.rb:39 | a complex key `:f.op` contributes `:f`; any other key contributes itself |
| Criteria.ResolvedEntry | lib/mongoscript/orm/mongoid_adapter.rb:40 | each key's value is the value of the last pair setting it: a hash resolved recursively, any other value unchanged |
| Criteria.ResolvedHasNoComplexKeys | lib/mongoscript/orm/mongoid_adapter.rb:25-28 | at no depth of the result is there a complex key left |
| Criteria.WorkedExample | spec/cases/mongoid_adapter_spec.rb:52-54 | the nested example with `in`, `exists` and `ne` resolves to the expected plain hash |
| RubyErrors.AllAreExceptions | lib/mongoscript/execution.rb:10-12 | every modelled error class descends from `Exception` |
| RubyErrors.FailuresAreRuntimeErrors | lib/mongoscript/multiquery.rb:4 | `QueryFailed` and `ExecutionFailure` are `RuntimeError`s; `QueryFailed` is no `ArgumentError`; `ScriptNotFound` is no `RuntimeError` |
| Execution.Join | lib/mongoscript/execution.rb:54 | `File.join(dir, file)` is `dir` and `file` with one `/` added between them, unless `dir` already ends with `/`, in which case nothing is added |
| Execution.ToS | lib/mongoscript/execution.rb:53 | `script_name.to_s`: a symbol's text, or the string itself |
| Execution.FirstDirFrom | lib/mongoscript/execution.rb:54 | `script_dirs.find`: the first directory holding the file; none of the earlier ones holds it; `None` when no directory holds it |
| Execution.LoadCode | lib/mongoscript/execution.rb:52-57 | `ScriptNotFound` "Unable to find script <name>" iff no directory holds the file; the cached code when the name is cached; otherwise the contents of the file in the first directory holding it |
| Execution.CacheAfter | lib/mongoscript/execution.rb:52-57 | `LOADED_SCRIPTS[name] \|\|= code`: every cached entry is kept, and the name is added iff it was cached or some directory holds the file |
| Execution.ScriptCache.constructor | lib/mongoscript/execution.rb:8 | `LOADED_SCRIPTS` starts empty |
| Execution.Host.constructor | lib/mongoscript/execution.rb:25-26 | `script_dirs` starts as the gem's own script directory |
| Execution.Host.CodeFor | lib/mongoscript/execution.rb:52-57 | the search loop returns `LoadCode` and leaves the cache as `CacheAfter` |
| Execution.Host.ExecuteReadonlyRoutine | lib/mongoscript/execution.rb:69-71 | is `execute_readonly_code(code_for(name), args)`; a `nolock` command is sent only when the script was found |
| Execution.Host.ExecuteReadwriteRoutine | lib/mongoscript/execution.rb:73-75 | is `execute_readwrite_code(code_for(name), args)`; the command carries no option |
| Execution.EvalCommand | lib/mongoscript/execution.rb:92 | the command holds `$eval` and `args` (the resolved arguments) plus every option, and an option overrides a member of the same name |
| Execution.ExecuteReadonlyCode | lib/mongoscript/execution.rb:80-84 | the command holds exactly `$eval`, `args` and `nolock => true`; the call returns `retval` iff the reply's `ok` is 1, else raises `ExecutionFailure` |
| Execution.ExecuteReadwriteCode | lib/mongoscript/execution.rb:86-88 | the command holds exactly `$eval` and `args`; the call returns `retval` iff the reply's `ok` is 1, else raises `ExecutionFailure` |
| Execution.Execute | lib/mongoscript/execution.rb:90-97 | succeeds iff the reply's `ok` is 1, and then returns its `retval`; otherwise raises `ExecutionFailure` |
| Execution.FirstDirectoryWins | lib/mongoscript/execution.rb:54-57 | an uncached script's code is the file in the first directory holding it, and that code is stored in the cache |
| Execution.MissingScript | lib/mongoscript/execution.rb:55 | a script no directory holds raises `ScriptNotFound` "Unable to find script <name>" and leaves `LOADED_SCRIPTS` unchanged |
| Execution.SymbolsAndStringsAgree | lib/mongoscript/execution.rb:53 | a symbol and a string with the same text load the same code and leave the same cache |
| Execution.CacheIsWriteOnce | lib/mongoscript/execution.rb:57 | the cache gains at most the loaded name and never overwrites an entry |
| Execution.ReturnsCachedCode | lib/mongoscript/execution.rb:57 | the code returned is the code cached under the name afterwards |
| Execution.LaterLoadsReturnFirstCode | lib/mongoscript/execution.rb:57 | after a load, loading again returns the first code even if the file changed, and the cache stays as it is |
| Execution.ReadonlyDiffersOnlyInNolock | lib/mongoscript/execution.rb:80-88 | read-only code is sent with `nolock: true`, read-write code with no option, and nothing else differs |
| Execution.RoutinesRunLoadedCode | lib/mongoscript/execution.rb:69-75 | each routine is its `_code` counterpart on the loaded code; a missing script raises before any server is involved |
| Reconciler.Lookup | spec/cases/multiquery_spec.rb:74 | `queries[name]` is the query when present, otherwise `nil` |
| Reconciler.ErrorProbe | spec/cases/multiquery_spec.rb:73 | `response["error"]` as written: a hash gives its member; an array or integer raises `TypeError`; `nil` and booleans raise `NoMethodError` |
| Reconciler.ErrorCheck | spec/cases/multiquery_spec.rb:73 | the intended check: an array is never an error; every other response is checked as written |
| Reconciler.Rehydrated | spec/cases/multiquery_spec.rb:77 | the rows mapped through `rehydrate` with the query's class, same length and order. `NoMethodError` iff there is a row and no query of that name |
| Reconciler.StepAsWritten | spec/cases/multiquery_spec.rb:73-78 | the block body as written: an array response raises `TypeError`; it can only ever return a failure value with the name, `queries[name]` and the response, or raise `TypeError`/`NoMethodError` |
| Reconciler.Step | spec/cases/multiquery_spec.rb:73-78 | with the intended check: an array response succeeds iff it is empty or its query exists, and then gives as many objects as rows; the result is never left raw; a failure value carries the name, `queries[name]` and the response |
| Reconciler.NewEntry | spec/cases/multiquery_spec.rb:73-78 | the block body computes `Step` for one entry, the row loop included |
| Reconciler.Reconcile | spec/cases/multiquery_spec.rb:71-80 | with the intended check: succeeds iff every entry's step succeeds; then the result has the same keys, each holding its step's value; otherwise the error is some entry's error |
| Reconciler.ResultTable.constructor | spec/cases/multiquery_spec.rb:71-72 | the table holds the raw responses under their keys, in the hash's key order |
| Reconciler.RewriteEntries | spec/cases/multiquery_spec.rb:72-79 | the `each_pair` loop: the entries before the stopping point hold their step's value, the rest are untouched; it stops early exactly at a step that raises |
| Reconciler.ProcessResults | spec/cases/multiquery_spec.rb:71-80 | with the intended check, in place, same keys. On success it returns the same table with every entry rewritten. When an entry raises, the entries before it in key order are rewritten and the rest are untouched |
| Reconciler.ErrorResponseFails | spec/cases/multiquery_spec.rb:93-102 | a response with a truthy `error` becomes a failure carrying the name, `queries[name]` and the raw response |
| Reconciler.RowsAreRehydrated | spec/cases/multiquery_spec.rb:82-91 | an array response becomes its rows rehydrated with the query's class, same length, same order |
| Reconciler.OtherEntriesUnaffected | spec/cases/multiquery_spec.rb:93-102 | turning one response into an error marker makes that entry a failure and changes no other entry |
| Reconciler.AgreeExceptOnArrays | spec/cases/multiquery_spec.rb:73 | the written and the intended checks agree on every response except arrays, where the written one raises `TypeError` |
| Reconciler.RowsRaiseAsWritten | spec/cases/multiquery_spec.rb:19-24 | the tests' own row arrays raise `TypeError` as written, and are rehydrated as intended |
| Multiquery.LibMultiquery | lib/mongoscript/multiquery.rb:14-17 | `{}` for an empty batch; `nil` for any other batch |
| Multiquery.NonEmptyBatchReturnsNil | lib/mongoscript/multiquery.rb:14-17 | a one-query batch returns `nil` |
| Multiquery.FieldOrder | spec/cases/multiquery_spec.rb:72 | `each_pair` visits every key of the response exactly once |
| Multiquery.Multiquery | spec/cases/multiquery_spec.rb:35-63 | with the intended check: an empty batch returns `{}`, whatever it normalises to, sends no command and leaves the cache alone. Otherwise it sends one read-only command that runs the "multiquery" script on the normalised batch, and returns `process_results` of the reply with the original queries. A transport failure is raised |
| Multiquery.ProcessResponse | spec/cases/multiquery_spec.rb:71-80 | with the intended check: a reply hash, in field order, goes through `process_results`: success iff every field's step succeeds, and then the table holds what `Reconcile` computes; otherwise the error of some field's step |
| Multiquery.PipelineCommand | spec/cases/multiquery_spec.rb:40-50 | the command carries the routine's code, the normalised batch as its only argument, and `nolock: true` |

## Left out

- Iteration order of `for…in` over the batch and of the reply's fields: the routine's entries do not depend on it. `process_results` takes the hash's key order from `FieldOrder`, which may pick any order.
- Symbol and string hash keys are not distinguished: query names and response keys are both strings.
- Floating point: numbers are integers, and `ok == 1.0` is the reply's `ok` being 1.
- Exception messages raised by Ruby itself (for `TypeError` and `NoMethodError`) are not modelled, and neither is the inspected reply appended to the `ExecutionFailure` message. The pipeline keeps only the class of an execution error.
- MultiqueryRoutine.Batch: a collection value that is not a string (a number, an object) is not modelled. An absent collection prints as "undefined".
- MockMongo.MockDb.Taken: `this[name]` is checked against the existing collections, the prototype's and `Object.prototype`'s members, and `name` itself. Other JavaScript property-lookup quirks are not modelled.
- MockMongo.MockDatabase: the routine's view of the mock identifies a cursor with its collection. The arguments recorded by `limit`/`sort` do not appear in that view; they are stated on `MockQuery`. Of the members every object inherits, only `valueOf` is modelled as returning the cursor. Any other inherited member, and the cursor's own `toArray` and `map`, return something other than a cursor in JavaScript, and the throw comes at a later call or at `toArray`. The model throws at once. The entry is the same `TypeError` marker either way.
- MockMongo.MockDb.ToString: a db named "" owns `name` with the falsy value "", so `addCollection("name")` on it passes the `!this[name]` guard and replaces `this.name` by the new collection and `toString()` then returns that collection. The model keeps `dbName` as the name, and `toString()` always returns it. The namespace records are unaffected, since they use the constructor's `dbName`.
- MultiqueryRoutine.Fetch: `toArray` is typed to yield a sequence of rows, as a MongoDB cursor's does. The routine stores whatever `toArray` returns, and a stub returning some other object (the routine's tests return `{result: query}`) or a mock collection created with non-array data cannot be represented.
- MultiqueryRoutine.EntryResult: an entry is a row array or an `{error: ...}` marker only under that same typing of `toArray`; an entry holding another value that `toArray` returned is not modelled.
- MockMongo.MockCollection.constructor: `data || []` keeps any truthy data; only arrays of rows are modelled.
- MockMongo.MockDb.AddFirst: the nested `addCollection("system.namespaces")` call is made before `this[name]` is assigned rather than after it. The nested call never looks at `this[name]`, so the final state is the same.
- Criteria.Expand: Mongoid's own `expand_complex_criteria` is not part of this model. The one-level rule here keeps the later pair when two pairs set the same key, so two operators on one field (`:a.gt => 1, :a.lt => 5`) do not merge into one hash. Circular hashes, which the adapter warns about, cannot be written as values.
- Execution.Join: absolute file names and repeated separators inside a name are not normalised as `File.join` would.
- `gem_path` (Bundler), `File.exists?`/`File.read` (a path-to-contents map stands in), the `script_dirs` writer (the field is assignable), and the concurrency effect of `nolock` are not modelled.
- The ORM's `rehydrate` and `Mongoid::Config.database`, `MongoScript.orm_adapter` and `lib/mongoscript/orm/mongoid_document_methods.rb` are left out. So are the server command transport and `normalize_queries`; the transport and `normalize_queries` appear only as function parameters.
- `lib/mongoscript/scripts/multiquery.js` (an older revision of the routine) is not part of this model. Neither is `spec/cases/execution_spec.rb`, whose two-argument `code_for`, `script_dir` accessor and `NoScriptDirectory` raise do not match `lib/mongoscript/execution.rb`. `NoScriptDirectory` appears only in the class hierarchy.
- `QueryFailed` in the library has no three-argument constructor or readers. The model follows the tests' contract: a failure value with the query's name, its parameters and the raw response.

## Findings

| source | as written | input that shows it | evidently intended | confidence | as-written member | corrected member |
|---|---|---|---|---|---|---|
| spec/cases/multiquery_spec.rb:73 | `response["error"]` is evaluated on every response, including arrays of rows, where `Array#[]` with a string raises `TypeError` | `{:cars => [{"_id" => "abc"}, {"_id" => "def"}]}`, the tests' own results (lines 19-24) | array responses are rehydrated row by row (line 77, tests at 82-91) | high (Ruby semantics of `Array#[]`); not executed | Reconciler.RowsRaiseAsWritten | Reconciler.RowsAreRehydrated |
| lib/mongoscript/multiquery.rb:14-17 | a non-empty batch falls off the end of `multiquery` and returns `nil` | `multiquery({:cars => {...}})` | run the "multiquery" routine on the normalised batch and return `process_results` of its reply (tests at spec/cases/multiquery_spec.rb:40-63) | high (the method body has one statement); not executed | Multiquery.NonEmptyBatchReturnsNil | Multiquery.Multiquery |
