/**
 * The Ruby entry point `multiquery(queries)`: as the library writes it
 * (only the empty-batch short-circuit) and as its tests describe the whole
 * pipeline (normalise the queries, run the read-only routine "multiquery"
 * on the server, reconcile its response).
 */
module Multiquery {
  import opened Wrappers
  import opened Values
  import opened RubyErrors
  import opened Criteria
  import opened Execution
  import opened Reconciler

  /** The name of the server-side routine the pipeline runs. */
  const RoutineName: ScriptName := TextName("multiquery")

  /** `multiquery(queries)` as written: `{}` for an empty batch; any other batch falls off the end of the method (`nil`). */
  function LibMultiquery<K, O>(queries: map<string, Query<K>>): (r: Option<map<string, Entry<K, O>>>)
    ensures queries == map[] ==> r == Some(map[])
    ensures queries != map[] ==> r == None
  {
    if queries == map[] then Some(map[]) else None
  }

  /** A non-empty batch returns `nil`: no routine runs and no results come back. */
  lemma NonEmptyBatchReturnsNil<K, O>(name: string, q: Query<K>)
    ensures LibMultiquery<K, O>(map[name := q]) == None
  {
    assert name in map[name := q];
  }

  /** Some order of the keys of a document: the order in which its fields arrive. */
  method FieldOrder(fields: map<string, Value>) returns (order: seq<string>)
    ensures Enumerates(order, fields)
  {
    order := [];
    var rest := fields.Keys;
    while rest != {}
      invariant rest <= fields.Keys
      invariant forall i, j :: 0 <= i < j < |order| ==> order[i] != order[j]
      invariant forall i :: 0 <= i < |order| ==> order[i] in fields && order[i] !in rest
      invariant forall n :: n in fields ==> n in rest || n in order
      decreases rest
    {
      var n :| n in rest;
      order := order + [n];
      rest := rest - {n};
    }
  }

  /**
   * The pipeline the tests describe: an empty batch returns `{}` without
   * sending anything; otherwise the queries are normalised and passed to the
   * read-only routine "multiquery", and its response goes through
   * `process_results` with the original queries. Normalisation is the
   * function `normalize`; a response that is not a hash has no `each_pair`.
   */
  method Multiquery<K, O>(host: Host, queries: map<string, Query<K>>, normalize: map<string, Query<K>> -> Criterion,
                          fs: FileSystem, server: Command -> map<string, Value>, rehydrate: (Option<K>, Value) -> O)
    returns (out: Result<ResultTable<K, O>, ErrorClass>)
    requires queries != map[] ==> Canonical(normalize(queries))
    modifies host, host.cache
    ensures host.scriptDirs == old(host.scriptDirs)
    ensures queries == map[] ==>
      && out.Success? && fresh(out.value) && out.value.entries == map[]
      && host.sent == old(host.sent) && host.cache.loaded == old(host.cache.loaded)
    ensures queries != map[] ==>
      var code := LoadCode(host.scriptDirs, fs, old(host.cache.loaded), RoutineName);
      && host.cache.loaded == CacheAfter(host.scriptDirs, fs, old(host.cache.loaded), RoutineName)
      && host.sent == (if code.Success? then old(host.sent) + [EvalCommand(code.value, [normalize(queries)], ReadonlyOptions)] else old(host.sent))
    ensures queries != map[] ==>
      var raw := ReadonlyRoutine(host.scriptDirs, fs, old(host.cache.loaded), server, RoutineName, [normalize(queries)]);
      && (raw.Failure? ==> out == Failure(raw.error.klass))
      && (raw.Success? && !raw.value.Doc? ==> out == Failure(NoMethodError))
      && (raw.Success? && raw.value.Doc? ==>
            && (out.Success? <==> forall n :: n in raw.value.fields ==> Step(n, raw.value.fields[n], queries, rehydrate).Success?)
            && (out.Success? ==>
                  fresh(out.value) && Enumerates(out.value.order, raw.value.fields) &&
                  Reconcile(out.value.order, raw.value.fields, queries, rehydrate) == Success(out.value.entries))
            && (out.Failure? ==> exists n :: n in raw.value.fields && Step(n, raw.value.fields[n], queries, rehydrate) == Failure(out.error)))
  {
    if queries == map[] {
      var empty := new ResultTable<K, O>([], map[]);
      return Success(empty);
    }
    var raw := host.ExecuteReadonlyRoutine(RoutineName, [normalize(queries)], fs, server);
    if raw.Failure? {
      return Failure(raw.error.klass);
    }
    if !raw.value.Doc? {
      return Failure(NoMethodError);
    }
    out := ProcessResponse(raw.value.fields, queries, rehydrate);
  }

  /**
   * The response hash, its fields in the order they arrive, goes through
   * `process_results`: it succeeds when every field's step does, and then
   * holds what `Reconcile` computes; otherwise it fails with the error of
   * some field's step.
   */
  method ProcessResponse<K, O>(fields: map<string, Value>, queries: map<string, Query<K>>, rehydrate: (Option<K>, Value) -> O)
    returns (out: Result<ResultTable<K, O>, ErrorClass>)
    ensures out.Success? <==> forall n :: n in fields ==> Step(n, fields[n], queries, rehydrate).Success?
    ensures out.Success? ==>
      fresh(out.value) && Enumerates(out.value.order, fields) &&
      Reconcile(out.value.order, fields, queries, rehydrate) == Success(out.value.entries)
    ensures out.Failure? ==> exists n :: n in fields && Step(n, fields[n], queries, rehydrate) == Failure(out.error)
  {
    var order := FieldOrder(fields);
    var results := new ResultTable<K, O>(order, fields);
    out := ProcessResults(results, queries, rehydrate);
  }

  /** Read-only execution marks the command `nolock`; the command carries the code and the normalised batch as its only argument. */
  lemma PipelineCommand<K>(code: string, queries: map<string, Query<K>>, normalize: map<string, Query<K>> -> Criterion)
    ensures var cmd := EvalCommand(code, [normalize(queries)], ReadonlyOptions);
      && cmd.Keys == {"$eval", "args", "nolock"}
      && cmd["$eval"] == Code(code)
      && cmd["args"] == Arguments([ResolveValue(normalize(queries))])
      && cmd["nolock"] == Setting(Bool(true))
  {
    assert EvalCommand(code, [normalize(queries)], ReadonlyOptions).Keys == {"$eval", "args"} + {"nolock"};
  }
}
