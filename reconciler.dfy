/**
 * `process_results(results, queries)`: walks the raw response hash in its
 * key order and rewrites it in place. An entry whose response carries an
 * `"error"` becomes a `QueryFailed` value. Any other entry's rows are
 * replaced by domain objects built with `rehydrate(klass, row)`.
 *
 * `rehydrate` (the ORM's object factory) is a function parameter; `K` is
 * the type of model classes and `O` the type of the objects it builds.
 */
module Reconciler {
  import opened Wrappers
  import opened Values
  import opened RubyErrors

  /** A query as `process_results` reads it: its parameters and `[:klass]` (`None` when absent). */
  datatype Query<K> = Query(params: Value, klass: Option<K>)

  /** `QueryFailed.new(name, queries[name], response)`: its three readers. */
  datatype QueryFailure<K> = QueryFailure(queryName: string, queryParameters: Option<Query<K>>, dbResponse: Value)

  /** A value of the results hash: the raw response, rehydrated objects, or a failure. */
  datatype Entry<K, O> = Raw(response: Value) | Objects(objects: seq<O>) | Failed(failure: QueryFailure<K>)

  /** `queries[name]`: `None` for `nil`. */
  function Lookup<K>(queries: map<string, Query<K>>, name: string): (q: Option<Query<K>>)
    ensures q.Some? <==> name in queries
    ensures q.Some? ==> q.value == queries[name]
  {
    if name in queries then Some(queries[name]) else None
  }

  /** `t` occurs in `s` as a contiguous substring. */
  predicate Contains(s: string, t: string)
    decreases |s|
  {
    |t| <= |s| && (s[..|t|] == t || Contains(s[1..], t))
  }

  /**
   * `response["error"]` exactly as Ruby evaluates it for each kind of value:
   * a hash gives its member (or `nil`), a string gives `"error"` if it
   * contains it (or `nil`), an array or an integer raises `TypeError` (the
   * index must be an integer), and `nil`, `true` and `false` raise
   * `NoMethodError`.
   */
  function ErrorProbe(response: Value): (r: Result<Value, ErrorClass>)
    ensures response.Doc? ==> r == Success(Member(response.fields, "error"))
    ensures response.Arr? || response.Num? ==> r == Failure(TypeError)
    ensures response.Null? || response.Bool? ==> r == Failure(NoMethodError)
  {
    match response
    case Doc(fields) => Success(Member(fields, "error"))
    case Str(s) => Success(if Contains(s, "error") then Str("error") else Null)
    case Arr(_) => Failure(TypeError)
    case Num(_) => Failure(TypeError)
    case Null => Failure(NoMethodError)
    case Bool(_) => Failure(NoMethodError)
  }

  /** The check as evidently intended: an array of rows is never an error; every other response is probed as before. */
  function ErrorCheck(response: Value): (r: Result<Value, ErrorClass>)
    ensures response.Arr? ==> r == Success(Null)
    ensures !response.Arr? ==> r == ErrorProbe(response)
  {
    if response.Arr? then Success(Null) else ErrorProbe(response)
  }

  /**
   * `response.map! {|data| rehydrate(queries[name][:klass], data)}`: each
   * row in order; `queries[name][:klass]` is only evaluated (and raises on a
   * missing query) when there is a row.
   */
  function Rehydrated<K, O>(name: string, rows: seq<Value>, queries: map<string, Query<K>>, rehydrate: (Option<K>, Value) -> O): (r: Result<seq<O>, ErrorClass>)
    ensures r.Failure? <==> |rows| > 0 && name !in queries
    ensures r.Failure? ==> r.error == NoMethodError
    ensures r.Success? ==> |r.value| == |rows|
    ensures r.Success? ==> forall i :: 0 <= i < |rows| ==> r.value[i] == rehydrate(queries[name].klass, rows[i])
  {
    if |rows| == 0 then Success([])
    else if name !in queries then Failure(NoMethodError)
    else Success(seq(|rows|, i requires 0 <= i < |rows| => rehydrate(queries[name].klass, rows[i])))
  }

  /** The new value of one entry, given the error check in use. */
  function StepWith<K, O>(check: Result<Value, ErrorClass>, name: string, response: Value,
                         queries: map<string, Query<K>>, rehydrate: (Option<K>, Value) -> O): Result<Entry<K, O>, ErrorClass>
  {
    match check
    case Failure(e) => Failure(e)
    case Success(err) =>
      if RubyTruthy(err) then Success(Failed(QueryFailure(name, Lookup(queries, name), response)))
      else if !response.Arr? then Failure(NoMethodError)
      else match Rehydrated(name, response.items, queries, rehydrate)
        case Failure(e) => Failure(e)
        case Success(objects) => Success(Objects(objects))
  }

  /** One entry as the sketch is written. */
  function StepAsWritten<K, O>(name: string, response: Value, queries: map<string, Query<K>>, rehydrate: (Option<K>, Value) -> O): (r: Result<Entry<K, O>, ErrorClass>)
    ensures response.Arr? ==> r == Failure(TypeError)
    ensures r.Success? ==> r.value.Failed? && r.value.failure == QueryFailure(name, Lookup(queries, name), response)
    ensures r.Failure? ==> r.error == TypeError || r.error == NoMethodError
  {
    StepWith(ErrorProbe(response), name, response, queries, rehydrate)
  }

  /** One entry as evidently intended: what the rest of the model uses. */
  function Step<K, O>(name: string, response: Value, queries: map<string, Query<K>>, rehydrate: (Option<K>, Value) -> O): (r: Result<Entry<K, O>, ErrorClass>)
    ensures response.Arr? ==> (r.Success? <==> |response.items| == 0 || name in queries)
    ensures response.Arr? && r.Success? ==> r.value.Objects? && |r.value.objects| == |response.items|
    ensures r.Success? ==> !r.value.Raw?
    ensures r.Success? && r.value.Failed? ==> r.value.failure == QueryFailure(name, Lookup(queries, name), response)
    ensures r.Failure? ==> r.error == TypeError || r.error == NoMethodError
  {
    StepWith(ErrorCheck(response), name, response, queries, rehydrate)
  }

  /** The position of the first entry, from `from` on in key order, whose step raises. */
  function FirstFailure<K, O>(order: seq<string>, raw: map<string, Value>, queries: map<string, Query<K>>,
                              rehydrate: (Option<K>, Value) -> O, from: nat): (r: Option<nat>)
    requires from <= |order|
    requires forall i :: 0 <= i < |order| ==> order[i] in raw
    ensures r.Some? ==> from <= r.value < |order| && Step(order[r.value], raw[order[r.value]], queries, rehydrate).Failure?
    ensures r.Some? ==> forall j :: from <= j < r.value ==> Step(order[j], raw[order[j]], queries, rehydrate).Success?
    ensures r.None? ==> forall j :: from <= j < |order| ==> Step(order[j], raw[order[j]], queries, rehydrate).Success?
    decreases |order| - from
  {
    if from == |order| then None
    else if Step(order[from], raw[order[from]], queries, rehydrate).Failure? then Some(from)
    else FirstFailure(order, raw, queries, rehydrate, from + 1)
  }

  /** `order` lists the keys of `raw`, each once: the key order of a Ruby hash. */
  predicate Enumerates(order: seq<string>, raw: map<string, Value>)
  {
    (forall i, j :: 0 <= i < j < |order| ==> order[i] != order[j]) &&
    (forall n :: n in raw ==> n in order) &&
    (forall i :: 0 <= i < |order| ==> order[i] in raw)
  }

  /** The whole pass: every entry rewritten, or the first exception in key order. */
  function Reconcile<K, O>(order: seq<string>, raw: map<string, Value>, queries: map<string, Query<K>>,
                           rehydrate: (Option<K>, Value) -> O): (r: Result<map<string, Entry<K, O>>, ErrorClass>)
    requires Enumerates(order, raw)
    ensures r.Success? <==> forall n :: n in raw ==> Step(n, raw[n], queries, rehydrate).Success?
    ensures r.Success? ==> r.value.Keys == raw.Keys
    ensures r.Success? ==> forall n :: n in raw ==> r.value[n] == Step(n, raw[n], queries, rehydrate).value
    ensures r.Failure? ==> exists n :: n in raw && Step(n, raw[n], queries, rehydrate) == Failure(r.error)
  {
    match FirstFailure(order, raw, queries, rehydrate, 0)
    case Some(f) =>
      assert order[f] in raw;
      Failure(Step(order[f], raw[order[f]], queries, rehydrate).error)
    case None =>
      assert forall n :: n in raw ==> Step(n, raw[n], queries, rehydrate).Success? by {
        forall n | n in raw
          ensures Step(n, raw[n], queries, rehydrate).Success?
        {
          var i :| 0 <= i < |order| && order[i] == n;
        }
      }
      Success(map n | n in raw :: Step(n, raw[n], queries, rehydrate).value)
  }

  /** The results hash, updated in place: its key order and its entries. */
  class ResultTable<K, O> {
    const order: seq<string>
    var entries: map<string, Entry<K, O>>

    /** The table as the routine's response arrives: every entry raw. */
    constructor (order: seq<string>, raw: map<string, Value>)
      requires Enumerates(order, raw)
      ensures this.order == order && Valid() && AllRaw()
      ensures entries == map n | n in raw :: Raw(raw[n])
      ensures Responses() == raw
    {
      this.order := order;
      entries := map n | n in raw :: Raw(raw[n]);
      new;
      assert Responses() == raw;
    }

    /** The keys in `order` are those of `entries`, each once. */
    predicate Valid()
      reads this
    {
      (forall i, j :: 0 <= i < j < |order| ==> order[i] != order[j]) &&
      (forall n :: n in entries ==> n in order) &&
      (forall i :: 0 <= i < |order| ==> order[i] in entries)
    }

    predicate AllRaw()
      reads this
    {
      forall n :: n in entries ==> entries[n].Raw?
    }

    /** The raw responses the table holds. */
    function Responses(): (raw: map<string, Value>)
      reads this
      requires AllRaw()
      ensures raw.Keys == entries.Keys
    {
      map n | n in entries :: entries[n].response
    }
  }

  /**
   * `process_results(results, queries)` with the evidently intended check.
   * On success the same table comes back, every entry rewritten. If an entry
   * raises, the entries before it in key order are already rewritten and
   * the others are untouched.
   */
  method ProcessResults<K, O>(results: ResultTable<K, O>, queries: map<string, Query<K>>, rehydrate: (Option<K>, Value) -> O)
    returns (out: Result<ResultTable<K, O>, ErrorClass>)
    requires results.Valid() && results.AllRaw()
    modifies results
    ensures results.Valid() && results.entries.Keys == old(results.entries.Keys)
    ensures var expected := Reconcile(results.order, old(results.Responses()), queries, rehydrate);
      && (out.Success? <==> expected.Success?)
      && (out.Success? ==> out.value == results && expected == Success(results.entries))
      && (out.Failure? ==> expected == Failure(out.error))
    ensures out.Failure? ==>
      var f := FirstFailure(results.order, old(results.Responses()), queries, rehydrate, 0);
      && f.Some?
      && (forall j :: 0 <= j < f.value ==>
            Step(results.order[j], old(results.Responses())[results.order[j]], queries, rehydrate) == Success(results.entries[results.order[j]]))
      && (forall j :: f.value <= j < |results.order| ==> results.entries[results.order[j]] == old(results.entries)[results.order[j]])
  {
    ghost var raw := results.Responses();
    var failed, stop := RewriteEntries(results, raw, queries, rehydrate);
    if failed.Some? {
      FailsAt(results.order, raw, queries, rehydrate, stop);
      return Failure(failed.value);
    }
    PassCompletes(results.order, raw, queries, rehydrate, results.entries);
    out := Success(results);
  }

  /**
   * The `each_pair` loop: rewrites the entries in key order and stops at the
   * first one whose step raises, which is the `stop`-th; the entries from
   * there on are untouched.
   */
  method RewriteEntries<K, O>(results: ResultTable<K, O>, ghost raw: map<string, Value>, queries: map<string, Query<K>>,
                              rehydrate: (Option<K>, Value) -> O)
    returns (failed: Option<ErrorClass>, ghost stop: nat)
    requires results.Valid() && Enumerates(results.order, raw) && results.entries.Keys == raw.Keys
    requires forall n :: n in raw ==> results.entries[n] == Raw(raw[n])
    modifies results
    ensures results.Valid() && results.entries.Keys == raw.Keys
    ensures stop <= |results.order|
    ensures forall j :: 0 <= j < stop ==>
      Step(results.order[j], raw[results.order[j]], queries, rehydrate) == Success(results.entries[results.order[j]])
    ensures forall j :: stop <= j < |results.order| ==> results.entries[results.order[j]] == old(results.entries)[results.order[j]]
    ensures failed.None? ==> stop == |results.order|
    ensures failed.Some? ==>
      stop < |results.order| && Step(results.order[stop], raw[results.order[stop]], queries, rehydrate) == Failure(failed.value)
  {
    var order := results.order;
    var entries := results.entries;
    ghost var initial := entries;
    var i := 0;
    while i < |order|
      invariant 0 <= i <= |order|
      invariant results.entries == entries && entries.Keys == raw.Keys
      invariant forall j :: 0 <= j < i ==> Step(order[j], raw[order[j]], queries, rehydrate) == Success(entries[order[j]])
      invariant forall j :: i <= j < |order| ==> entries[order[j]] == initial[order[j]]
    {
      var name := order[i];
      assert entries[name] == Raw(raw[name]);
      var entry := NewEntry(name, entries[name].response, queries, rehydrate);
      if entry.Failure? {
        return Some(entry.error), i;
      }
      PassAdvances(order, raw, queries, rehydrate, initial, entries, i, entry.value);
      entries := entries[name := entry.value];
      results.entries := entries;
      i := i + 1;
    }
    return None, i;
  }

  /** Rewriting the `i`-th entry with its step's value extends the rewritten prefix by one and leaves the rest untouched. */
  lemma PassAdvances<K, O>(order: seq<string>, raw: map<string, Value>, queries: map<string, Query<K>>,
                           rehydrate: (Option<K>, Value) -> O, initial: map<string, Entry<K, O>>,
                           entries: map<string, Entry<K, O>>, i: nat, v: Entry<K, O>)
    requires i < |order| && forall j, k :: 0 <= j < k < |order| ==> order[j] != order[k]
    requires forall j :: 0 <= j < |order| ==> order[j] in raw && order[j] in entries
    requires forall j :: 0 <= j < i ==> Step(order[j], raw[order[j]], queries, rehydrate) == Success(entries[order[j]])
    requires forall j :: i <= j < |order| ==> order[j] in entries && order[j] in initial && entries[order[j]] == initial[order[j]]
    requires Step(order[i], raw[order[i]], queries, rehydrate) == Success(v)
    ensures forall j :: 0 <= j <= i ==>
      Step(order[j], raw[order[j]], queries, rehydrate) == Success(entries[order[i] := v][order[j]])
    ensures forall j :: i < j < |order| ==> entries[order[i] := v][order[j]] == initial[order[j]]
  {
  }

  /** A pass in which every entry was rewritten by its step is the whole of `Reconcile`. */
  lemma PassCompletes<K, O>(order: seq<string>, raw: map<string, Value>, queries: map<string, Query<K>>,
                            rehydrate: (Option<K>, Value) -> O, entries: map<string, Entry<K, O>>)
    requires Enumerates(order, raw) && entries.Keys == raw.Keys
    requires forall j :: 0 <= j < |order| ==> Step(order[j], raw[order[j]], queries, rehydrate) == Success(entries[order[j]])
    ensures Reconcile(order, raw, queries, rehydrate) == Success(entries)
  {
    var r := Reconcile(order, raw, queries, rehydrate);
    forall n | n in raw
      ensures Step(n, raw[n], queries, rehydrate) == Success(entries[n])
    {
      var j :| 0 <= j < |order| && order[j] == n;
    }
    assert r.value == entries;
  }

  /** The first step to raise, in key order, is the error of `Reconcile`. */
  lemma FailsAt<K, O>(order: seq<string>, raw: map<string, Value>, queries: map<string, Query<K>>,
                      rehydrate: (Option<K>, Value) -> O, i: nat)
    requires Enumerates(order, raw) && i < |order|
    requires forall j :: 0 <= j < i ==> Step(order[j], raw[order[j]], queries, rehydrate).Success?
    requires Step(order[i], raw[order[i]], queries, rehydrate).Failure?
    ensures FirstFailure(order, raw, queries, rehydrate, 0) == Some(i)
    ensures Reconcile(order, raw, queries, rehydrate) == Failure(Step(order[i], raw[order[i]], queries, rehydrate).error)
  {
    FirstFailureFrom(order, raw, queries, rehydrate, 0, i);
  }

  /** Searching from any position up to `i`, past steps that succeed, finds the failing step at `i`. */
  lemma {:induction false} FirstFailureFrom<K, O>(order: seq<string>, raw: map<string, Value>, queries: map<string, Query<K>>,
                                                  rehydrate: (Option<K>, Value) -> O, from: nat, i: nat)
    requires Enumerates(order, raw) && from <= i < |order|
    requires forall j :: from <= j < i ==> Step(order[j], raw[order[j]], queries, rehydrate).Success?
    requires Step(order[i], raw[order[i]], queries, rehydrate).Failure?
    ensures FirstFailure(order, raw, queries, rehydrate, from) == Some(i)
    decreases i - from
  {
    if from < i {
      FirstFailureFrom(order, raw, queries, rehydrate, from + 1, i);
    }
  }

  /** The body of the `each_pair` block for one entry: the failure value, or the rows mapped in place. */
  method NewEntry<K, O>(name: string, response: Value, queries: map<string, Query<K>>, rehydrate: (Option<K>, Value) -> O)
    returns (r: Result<Entry<K, O>, ErrorClass>)
    ensures r == Step(name, response, queries, rehydrate)
  {
    var err := ErrorCheck(response);
    if err.Failure? {
      return Failure(err.error);
    }
    if RubyTruthy(err.value) {
      return Success(Failed(QueryFailure(name, Lookup(queries, name), response)));
    }
    if !response.Arr? {
      return Failure(NoMethodError);
    }
    var rows := response.items;
    var objects: seq<O> := [];
    var k := 0;
    while k < |rows|
      invariant 0 <= k <= |rows|
      invariant k > 0 ==> name in queries
      invariant |objects| == k
      invariant forall m :: 0 <= m < k ==> objects[m] == rehydrate(queries[name].klass, rows[m])
    {
      if name !in queries {
        return Failure(NoMethodError);
      }
      objects := objects + [rehydrate(queries[name].klass, rows[k])];
      k := k + 1;
    }
    ghost var expected := Rehydrated(name, rows, queries, rehydrate);
    assert expected.Success? && |expected.value| == |objects|;
    assert expected.value == objects;
    r := Success(Objects(objects));
  }

  /** A response with a truthy `"error"` member becomes a failure carrying the query's name, its parameters and the response. */
  lemma ErrorResponseFails<K, O>(name: string, response: Value, queries: map<string, Query<K>>, rehydrate: (Option<K>, Value) -> O)
    requires response.Doc? && RubyTruthy(Member(response.fields, "error"))
    ensures Step(name, response, queries, rehydrate) == Success(Failed(QueryFailure(name, Lookup(queries, name), response)))
  {
  }

  /** An array response becomes its rows rehydrated with the query's class, same length, same order. */
  lemma RowsAreRehydrated<K, O>(name: string, rows: seq<Value>, queries: map<string, Query<K>>, rehydrate: (Option<K>, Value) -> O)
    requires name in queries
    ensures Step(name, Arr(rows), queries, rehydrate).Success?
    ensures var e := Step(name, Arr(rows), queries, rehydrate).value;
      e.Objects? && |e.objects| == |rows| &&
      forall i :: 0 <= i < |rows| ==> e.objects[i] == rehydrate(queries[name].klass, rows[i])
  {
  }

  /** Turning one response into an error changes no other entry of the result. */
  lemma OtherEntriesUnaffected<K, O>(order: seq<string>, raw: map<string, Value>, queries: map<string, Query<K>>,
                                     rehydrate: (Option<K>, Value) -> O, name: string, message: Value, other: string)
    requires Enumerates(order, raw) && name in raw && other in raw && other != name
    requires Reconcile(order, raw, queries, rehydrate).Success?
    requires RubyTruthy(message)
    ensures Enumerates(order, raw[name := ErrorMarker(message)])
    ensures var r := Reconcile(order, raw[name := ErrorMarker(message)], queries, rehydrate);
      r.Success? && r.value[name].Failed? &&
      r.value[other] == Reconcile(order, raw, queries, rehydrate).value[other]
  {
    var raw' := raw[name := ErrorMarker(message)];
    assert forall n :: n in raw' ==> Step(n, raw'[n], queries, rehydrate).Success? by {
      forall n | n in raw'
        ensures Step(n, raw'[n], queries, rehydrate).Success?
      {
        if n != name {
          assert raw'[n] == raw[n];
        }
      }
    }
  }

  /** Outside arrays the intended check is the written one, so the two passes differ only on array responses. */
  lemma AgreeExceptOnArrays<K, O>(name: string, response: Value, queries: map<string, Query<K>>, rehydrate: (Option<K>, Value) -> O)
    ensures !response.Arr? ==> StepAsWritten(name, response, queries, rehydrate) == Step(name, response, queries, rehydrate)
    ensures response.Arr? ==> StepAsWritten(name, response, queries, rehydrate) == Failure(TypeError)
  {
  }

  /**
   * The rows `[{"_id" => "abc"}, {"_id" => "def"}]` under `:cars`: as
   * written, `response["error"]` raises `TypeError` on the array; as
   * intended both rows are rehydrated with the query's class.
   */
  lemma RowsRaiseAsWritten<K, O>(queries: map<string, Query<K>>, rehydrate: (Option<K>, Value) -> O)
    requires "cars" in queries
    ensures var rows := [Doc(map["_id" := Str("abc")]), Doc(map["_id" := Str("def")])];
      && StepAsWritten("cars", Arr(rows), queries, rehydrate) == Failure(TypeError)
      && Step("cars", Arr(rows), queries, rehydrate)
         == Success(Objects([rehydrate(queries["cars"].klass, rows[0]), rehydrate(queries["cars"].klass, rows[1])]))
  {
    var rows := [Doc(map["_id" := Str("abc")]), Doc(map["_id" := Str("def")])];
    var objects := Rehydrated("cars", rows, queries, rehydrate).value;
    assert objects == [rehydrate(queries["cars"].klass, rows[0]), rehydrate(queries["cars"].klass, rows[1])];
  }
}
