/**
 * The server-side batch routine `multiquery(queries)`: for every named query
 * it checks that the target collection is listed in `system.namespaces`,
 * runs `find`, applies the modifiers in order, materialises the cursor with
 * `toArray()`, and catches any exception per entry as an `{error: e}` marker.
 */
module MultiqueryRoutine {
  import opened Wrappers
  import opened Values

  /** One modifier of a query: the cursor method to call and its argument (`limit: 3`), in the object's key order. */
  datatype Modifier = Modifier(name: string, arg: Value)

  /**
   * One entry of the batch as the routine receives it. `None` stands for an
   * absent property (`undefined`).
   */
  datatype QuerySpec = QuerySpec(
    collection: Option<string>,
    selector: Value,
    fields: Option<Value>,
    modifiers: Option<seq<Modifier>>)

  /**
   * The database as the routine sees it. Each operation either returns or
   * throws a value (`Failure`).
   * - `name`: what `db.toString()` gives;
   * - `listing`: `db["system.namespaces"].find().map(ns => ns.name)`;
   * - `find(c, selector, fields)`: `db[c].find(selector, fields)`;
   * - `apply(cursor, m)`: `cursor[m.name](m.arg)`;
   * - `toArray(cursor)`: the rows the cursor yields.
   */
  datatype Database<!Cursor> = Database(
    name: string,
    listing: Result<seq<Value>, Value>,
    find: (string, Value, Value) -> Result<Cursor, Value>,
    apply: (Cursor, Modifier) -> Result<Cursor, Value>,
    toArray: Cursor -> Result<seq<Value>, Value>)

  /** The arguments of one `find` call: collection, selector, projection. */
  datatype FindCall = FindCall(collection: string, selector: Value, fields: Value)

  /** `"" + query.collection`: an absent collection prints as "undefined". */
  function CollectionText(collection: Option<string>): (t: string)
    ensures collection.Some? ==> t == collection.value
    ensures collection.None? ==> t == "undefined"
  {
    if collection.Some? then collection.value else "undefined"
  }

  /** The qualified name `dbName + "." + collection` looked up in the listing. */
  function Namespace(dbName: string, collection: Option<string>): string
  {
    dbName + "." + CollectionText(collection)
  }

  /** The collection counts as existing iff its qualified name is among the listed names. */
  predicate Located(dbName: string, names: seq<Value>, q: QuerySpec)
  {
    Str(Namespace(dbName, q.collection)) in names
  }

  /** `query.fields || null`. */
  function FieldsArg(q: QuerySpec): (f: Value)
    ensures q.fields.None? ==> f == Null
    ensures q.fields.Some? && JsTruthy(q.fields.value) ==> f == q.fields.value
    ensures q.fields.Some? && !JsTruthy(q.fields.value) ==> f == Null
    ensures !JsTruthy(f) ==> f == Null
  {
    if q.fields.Some? && JsTruthy(q.fields.value) then q.fields.value else Null
  }

  /** `query.modifiers || []`: an array is always truthy, so only an absent list defaults. */
  function ModifierList(q: QuerySpec): (mods: seq<Modifier>)
    ensures q.modifiers.Some? ==> mods == q.modifiers.value
    ensures q.modifiers.None? ==> mods == []
  {
    if q.modifiers.Some? then q.modifiers.value else []
  }

  /** The error text for a collection that is not listed. */
  function NotFoundMessage(collection: Option<string>): string
  {
    "Unable to locate collection " + CollectionText(collection)
  }

  /** The modifiers applied one after another, each to the cursor the previous one returned; the first throw stops the chain. */
  function ApplyModifiers<C(!new)>(db: Database<C>, base: C, mods: seq<Modifier>): (r: Result<C, Value>)
    ensures (forall c, m :: db.apply(c, m).Success?) ==> r.Success?
    ensures (forall c, m :: db.apply(c, m) == Success(c)) ==> r == Success(base)
    ensures r.Failure? ==> exists c, i :: 0 <= i < |mods| && db.apply(c, mods[i]) == Failure(r.error)
    decreases |mods|
  {
    if mods == [] then Success(base)
    else match db.apply(base, mods[0])
      case Failure(e) => Failure(e)
      case Success(next) => ApplyModifiers(db, next, mods[1..])
  }

  /** Continue a cursor computation with further modifiers. */
  function Then<C(!new)>(db: Database<C>, r: Result<C, Value>, mods: seq<Modifier>): Result<C, Value>
  {
    match r
    case Failure(e) => Failure(e)
    case Success(c) => ApplyModifiers(db, c, mods)
  }

  /** The entry written for a query on a listed collection: find, modifiers, `toArray()`, or the thrown value. */
  function Fetch<C(!new)>(db: Database<C>, q: QuerySpec): (r: Value)
    ensures r.Arr? || (r.Doc? && r.fields.Keys == {"error"})
    ensures var cursor := Then(db, db.find(CollectionText(q.collection), q.selector, FieldsArg(q)), ModifierList(q));
      && (r.Arr? <==> cursor.Success? && db.toArray(cursor.value).Success?)
      && (r.Arr? ==> r == Arr(db.toArray(cursor.value).value))
      && (cursor.Failure? ==> r == ErrorMarker(cursor.error))
      && (cursor.Success? && db.toArray(cursor.value).Failure? ==> r == ErrorMarker(db.toArray(cursor.value).error))
  {
    match db.find(CollectionText(q.collection), q.selector, FieldsArg(q))
    case Failure(e) => ErrorMarker(e)
    case Success(base) =>
      match ApplyModifiers(db, base, ModifierList(q))
      case Failure(e) => ErrorMarker(e)
      case Success(cursor) =>
        match db.toArray(cursor)
        case Failure(e) => ErrorMarker(e)
        case Success(rows) => Arr(rows)
  }

  /** `results[queryName]` for one query, given the listed names. */
  function EntryResult<C(!new)>(db: Database<C>, names: seq<Value>, q: QuerySpec): (r: Value)
    ensures r.Arr? || (r.Doc? && r.fields.Keys == {"error"})
    ensures r.Arr? ==> Located(db.name, names, q)
    ensures !Located(db.name, names, q) ==> r == ErrorMarker(Str("Unable to locate collection " + CollectionText(q.collection)))
  {
    if Located(db.name, names, q) then Fetch(db, q)
    else ErrorMarker(Str(NotFoundMessage(q.collection)))
  }

  /** The whole routine: the listing is read once before the loop; a throw there is not caught. */
  function Batch<C(!new)>(db: Database<C>, queries: map<string, QuerySpec>): (r: Result<map<string, Value>, Value>)
    ensures r.Success? <==> db.listing.Success?
    ensures r.Failure? ==> r.error == db.listing.error
    ensures r.Success? ==> r.value.Keys == queries.Keys
  {
    match db.listing
    case Failure(e) => Failure(e)
    case Success(names) => Success(map n | n in queries :: EntryResult(db, names, queries[n]))
  }

  /**
   * The routine itself. Also returns, per query name, the arguments of the
   * `find` call it issued (no entry when it issued none).
   */
  method Multiquery<C(!new)>(db: Database<C>, queries: map<string, QuerySpec>)
    returns (r: Result<map<string, Value>, Value>, finds: map<string, FindCall>)
    ensures r == Batch(db, queries)
    ensures r.Success? ==> r.value.Keys == queries.Keys
    ensures r.Failure? ==> finds == map[]
    ensures r.Success? ==> finds.Keys == set n | n in queries && Located(db.name, db.listing.value, queries[n])
    ensures forall n :: n in finds ==>
      (n in queries && finds[n] == FindCall(CollectionText(queries[n].collection), queries[n].selector, FieldsArg(queries[n])))
  {
    finds := map[];
    if db.listing.Failure? {
      r := Failure(db.listing.error);
      return;
    }
    var names := db.listing.value;
    var dbName := db.name;
    var results: map<string, Value> := map[];
    var pending := queries.Keys;
    while pending != {}
      invariant pending <= queries.Keys
      invariant results.Keys == queries.Keys - pending
      invariant forall n :: n in results ==> results[n] == EntryResult(db, names, queries[n])
      invariant finds.Keys == set n | n in results && Located(dbName, names, queries[n])
      invariant forall n :: n in finds ==>
        (n in queries && finds[n] == FindCall(CollectionText(queries[n].collection), queries[n].selector, FieldsArg(queries[n])))
      decreases pending
    {
      var queryName :| queryName in pending;
      var query := queries[queryName];
      var collection := CollectionText(query.collection);
      if Str(dbName + "." + collection) in names {
        var fields := FieldsArg(query);
        finds := finds[queryName := FindCall(collection, query.selector, fields)];
        var entry := RunQuery(db, query);
        results := results[queryName := entry];
      } else {
        results := results[queryName := ErrorMarker(Str("Unable to locate collection " + collection))];
      }
      pending := pending - {queryName};
    }
    assert results == map n | n in queries :: EntryResult(db, names, queries[n]);
    r := Success(results);
  }

  /** The body of the `try` block for a listed collection: find, then each modifier in order, then `toArray()`. */
  method RunQuery<C(!new)>(db: Database<C>, query: QuerySpec) returns (entry: Value)
    ensures entry == Fetch(db, query)
  {
    var found := db.find(CollectionText(query.collection), query.selector, FieldsArg(query));
    if found.Failure? {
      return ErrorMarker(found.error);
    }
    var base := found.value;
    var modifiers := ModifierList(query);
    var i := 0;
    while i < |modifiers|
      invariant 0 <= i <= |modifiers|
      invariant ApplyModifiers(db, base, modifiers[i..]) == ApplyModifiers(db, found.value, modifiers)
    {
      var next := db.apply(base, modifiers[i]);
      if next.Failure? {
        return ErrorMarker(next.error);
      }
      base := next.value;
      i := i + 1;
    }
    var rows := db.toArray(base);
    entry := if rows.Failure? then ErrorMarker(rows.error) else Arr(rows.value);
  }

  /** Applying `a + b` is applying `a`, then `b` to the cursor that `a` produced. */
  lemma {:induction false} ApplyModifiersAppend<C(!new)>(db: Database<C>, base: C, a: seq<Modifier>, b: seq<Modifier>)
    ensures ApplyModifiers(db, base, a + b) == Then(db, ApplyModifiers(db, base, a), b)
    decreases |a|
  {
    if a == [] {
      assert a + b == b;
    } else {
      assert (a + b)[1..] == a[1..] + b;
      match db.apply(base, a[0])
      case Failure(e) =>
      case Success(next) => ApplyModifiersAppend(db, next, a[1..], b);
    }
  }

  /** A single modifier is exactly one cursor call; no modifiers leave the cursor as `find` returned it. */
  lemma ApplyModifiersBase<C(!new)>(db: Database<C>, base: C, m: Modifier)
    ensures ApplyModifiers(db, base, []) == Success(base)
    ensures ApplyModifiers(db, base, [m]) == db.apply(base, m)
  {
  }

  /** Modifiers are applied in the given order: the chain over `mods` is the step-by-step fold, one call per modifier. */
  lemma {:induction false} ApplyModifiersStep<C(!new)>(db: Database<C>, base: C, mods: seq<Modifier>, m: Modifier)
    ensures ApplyModifiers(db, base, mods + [m]) == Then(db, ApplyModifiers(db, base, mods), [m])
  {
    ApplyModifiersAppend(db, base, mods, [m]);
  }

  /** A collection that is not listed yields the "Unable to locate collection" marker, whatever find, modifiers or toArray would do. */
  lemma {:induction false} UnlistedIssuesNoFind<C(!new)>(db: Database<C>, other: Database<C>, names: seq<Value>, q: QuerySpec)
    requires db.name == other.name
    requires !Located(db.name, names, q)
    ensures EntryResult(db, names, q) == EntryResult(other, names, q)
    ensures EntryResult(db, names, q) == ErrorMarker(Str("Unable to locate collection " + CollectionText(q.collection)))
  {
  }

  /**
   * A listed collection yields an array exactly when find, every modifier and
   * toArray returned, and the array is what toArray produced on the final
   * cursor; otherwise the entry is the marker of the first value thrown.
   */
  lemma ListedResult<C(!new)>(db: Database<C>, names: seq<Value>, q: QuerySpec)
    requires Located(db.name, names, q)
    ensures var found := db.find(CollectionText(q.collection), q.selector, FieldsArg(q));
      var cursor := Then(db, found, ModifierList(q));
      var e := EntryResult(db, names, q);
      && (e.Arr? <==> found.Success? && cursor.Success? && db.toArray(cursor.value).Success?)
      && (e.Arr? ==> e == Arr(db.toArray(cursor.value).value))
      && (found.Failure? ==> e == ErrorMarker(found.error))
      && (found.Success? && cursor.Failure? ==> e == ErrorMarker(cursor.error))
      && (cursor.Success? && db.toArray(cursor.value).Failure? ==> e == ErrorMarker(db.toArray(cursor.value).error))
  {
  }

  /**
   * Failure isolation: replacing one query (by one that throws, say) leaves
   * every other entry of the batch exactly as it was.
   */
  lemma {:induction false} OtherEntriesUnaffected<C(!new)>(db: Database<C>, queries: map<string, QuerySpec>, name: string, q: QuerySpec, other: string)
    requires db.listing.Success?
    requires other in queries && other != name
    ensures Batch(db, queries[name := q]).value[other] == Batch(db, queries).value[other]
  {
  }
}
