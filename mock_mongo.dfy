/**
 * The mock database the routine's tests run against: a db object that owns
 * its collections as properties, bootstraps `system.namespaces` on the first
 * `addCollection`, memoises each collection's `find`, and whose cursors
 * record `limit`/`sort` arguments while `toArray` always yields the
 * collection's whole data.
 */
module MockMongo {
  import opened Wrappers
  import opened Values
  import opened MultiqueryRoutine

  const SystemNamespaces := "system.namespaces"

  /** The value JavaScript's mock throws when a missing property is called (`db.x.find` with no `x`, an unknown cursor method). */
  const TypeErrorValue := Str("TypeError")

  /**
   * Property names every mock db already answers truthily: the members of
   * its prototype and of `Object.prototype`.
   */
  const InheritedNames: set<string> := {
    "toString", "addCollection",
    "constructor", "hasOwnProperty", "isPrototypeOf", "propertyIsEnumerable",
    "toLocaleString", "valueOf", "__proto__",
    "__defineGetter__", "__defineSetter__", "__lookupGetter__", "__lookupSetter__"}

  /** The namespace record `{name: dbName + "." + name}` pushed for each new collection. */
  function NamespaceEntry(dbName: string, name: string): (v: Value)
    ensures v.Doc? && Member(v.fields, "name") == Str(dbName + "." + name)
  {
    Doc(map["name" := Str(dbName + "." + name)])
  }

  /** The namespace records for `names`, in order. */
  function NamespaceEntries(dbName: string, names: seq<string>): (r: seq<Value>)
    ensures |r| == |names|
    ensures forall i {:trigger r[i]} :: 0 <= i < |names| ==> r[i] == NamespaceEntry(dbName, names[i])
  {
    seq(|names|, i requires 0 <= i < |names| => NamespaceEntry(dbName, names[i]))
  }

  /** Pushing one more name pushes its record at the end. */
  lemma EntriesSnoc(dbName: string, names: seq<string>, name: string)
    ensures NamespaceEntries(dbName, names + [name]) == NamespaceEntries(dbName, names) + [NamespaceEntry(dbName, name)]
  {
  }

  /** Qualified names determine the collection: `d.a == d.b` only when `a == b`. */
  lemma QualifiedInjective(dbName: string, a: string, b: string)
    requires dbName + "." + a == dbName + "." + b
    ensures a == b
  {
    assert a == (dbName + "." + a)[|dbName| + 1..];
    assert b == (dbName + "." + b)[|dbName| + 1..];
  }

  /**
   * `ns => ns.name` over the namespace records, as the routine's listing maps
   * them: a document gives its `name` member, anything else has none.
   */
  function NamesOf(records: seq<Value>): (r: seq<Value>)
    ensures |r| == |records|
    ensures forall i {:trigger r[i]} :: 0 <= i < |records| && records[i].Doc? ==> r[i] == Member(records[i].fields, "name")
    ensures forall i {:trigger r[i]} :: 0 <= i < |records| && !records[i].Doc? ==> r[i] == Null
  {
    seq(|records|, i requires 0 <= i < |records| =>
      if records[i].Doc? then Member(records[i].fields, "name") else Null)
  }

  /** No record is `null`: reading `ns.name` from a `null` record throws, and the listing is not guarded. */
  predicate NullFree(records: seq<Value>)
  {
    forall i :: 0 <= i < |records| ==> records[i] != Null
  }

  /** The pushed records are documents, so the listing's null-freedom is the seed's. */
  lemma NullFreeRecords(dbName: string, seedRecords: seq<Value>, order: seq<string>)
    ensures NullFree(seedRecords + NamespaceEntries(dbName, order)) <==> NullFree(seedRecords)
  {
    var records := seedRecords + NamespaceEntries(dbName, order);
    if NullFree(seedRecords) {
      forall i | 0 <= i < |records| ensures records[i] != Null {
        if i >= |seedRecords| {
          assert records[i] == NamespaceEntries(dbName, order)[i - |seedRecords|];
        }
      }
    } else {
      var i :| 0 <= i < |seedRecords| && seedRecords[i] == Null;
      assert records[i] == Null;
    }
  }

  /** A cursor returned by a collection's `find`. */
  class MockQuery {
    const params: Value
    const fields: Value
    const collection: MockCollection
    var limitArgs: Option<seq<Value>>
    var sortArgs: Option<seq<Value>>

    constructor (params: Value, fields: Value, collection: MockCollection)
      ensures this.params == params && this.fields == fields && this.collection == collection
      ensures limitArgs == None && sortArgs == None
    {
      this.params := params;
      this.fields := fields;
      this.collection := collection;
      limitArgs := None;
      sortArgs := None;
    }

    /** `limit(...)` records its arguments and returns the same cursor. */
    method Limit(args: seq<Value>) returns (q: MockQuery)
      modifies this
      ensures q == this
      ensures limitArgs == Some(args) && sortArgs == old(sortArgs)
    {
      limitArgs := Some(args);
      q := this;
    }

    /** `sort(...)` records its arguments and returns the same cursor. */
    method Sort(args: seq<Value>) returns (q: MockQuery)
      modifies this
      ensures q == this
      ensures sortArgs == Some(args) && limitArgs == old(limitArgs)
    {
      sortArgs := Some(args);
      q := this;
    }

    /** Always the collection's data, whatever the selector, projection, limit or sort. */
    method ToArray() returns (rows: seq<Value>)
      ensures rows == collection.data
    {
      rows := collection.data;
    }

    /** `map(f)` over the collection's data: same length, element by element. */
    method Map(f: Value -> Value) returns (out: seq<Value>)
      ensures |out| == |collection.data|
      ensures forall i :: 0 <= i < |out| ==> out[i] == f(collection.data[i])
    {
      var data := ToArray();
      out := seq(|data|, i requires 0 <= i < |data| => f(data[i]));
    }
  }

  /** A collection of the mock db. */
  class MockCollection {
    const name: string
    var data: seq<Value>
    var findResult: MockQuery?

    /** `data || []`. */
    constructor (name: string, data: Option<seq<Value>>)
      ensures this.name == name && findResult == null
      ensures this.data == (if data.Some? then data.value else [])
    {
      this.name := name;
      this.data := if data.Some? then data.value else [];
      findResult := null;
    }

    /** `data.push(record)`. */
    method Push(record: Value)
      modifies this
      ensures data == old(data) + [record] && findResult == old(findResult)
    {
      data := data + [record];
    }

    /** Memoised `find`: the first call creates the cursor; every later call returns that same cursor, whatever its arguments. */
    method Find(params: Value, fields: Value) returns (q: MockQuery)
      modifies this
      ensures findResult == q && data == old(data)
      ensures old(findResult) != null ==> q == old(findResult)
      ensures old(findResult) == null ==>
        fresh(q) && q.params == params && q.fields == fields && q.collection == this &&
        q.limitArgs == None && q.sortArgs == None
    {
      if findResult == null {
        findResult := new MockQuery(params, fields, this);
      }
      q := findResult;
    }
  }

  /**
   * A mock db named `dbName`. `order` lists the collection names in the
   * order their namespace records were pushed; `seed` is the data
   * `system.namespaces` was created with (empty unless a caller added it
   * explicitly with data).
   */
  class MockDb {
    const dbName: string
    var collections: map<string, MockCollection>
    ghost var order: seq<string>
    ghost var seed: seq<Value>
    ghost var Repr: set<MockCollection>

    ghost predicate Valid()
      reads this, Repr
    {
      && Registry()
      && (SystemNamespaces in collections ==>
            collections[SystemNamespaces].data == seed + NamespaceEntries(dbName, order))
    }

    /** Each collection sits under its own name, and every name was pushed exactly once. */
    ghost predicate Registry()
      reads this
    {
      && (forall n :: n in collections ==> collections[n] in Repr && collections[n].name == n)
      && (forall n :: n in collections <==> n in order)
      && (forall i, j :: 0 <= i < j < |order| ==> order[i] != order[j])
      && (order != [] ==> SystemNamespaces in collections)
      && (order == [] ==> seed == [])
    }

    /** `MockMongo(dbName)`: a db with no collections (not even `system.namespaces`). */
    constructor (dbName: string)
      ensures Valid() && Repr == {}
      ensures this.dbName == dbName && collections == map[] && order == []
    {
      this.dbName := dbName;
      collections := map[];
      order := [];
      seed := [];
      Repr := {};
    }

    /** `toString()` is the db's name, the prefix of every namespace record. */
    function ToString(): (s: string)
      reads this
      ensures s == dbName
    {
      dbName
    }

    /** `this[name]` is already truthy: an existing collection, an inherited member, or `name` itself when the db name is non-empty. */
    predicate Taken(name: string): (taken: bool)
      reads this
      ensures name in collections ==> taken
      ensures name !in InheritedNames && name != "name" ==> (taken <==> name in collections)
    {
      name in collections || name in InheritedNames || (name == "name" && dbName != "")
    }

    /**
     * `addCollection(name, data)`. A no-op when `this[name]` is taken.
     * Otherwise creates the collection; if `system.namespaces` does not exist
     * yet, creates it too and pushes its own record first; then pushes the
     * record `{name: dbName + "." + name}`.
     */
    method AddCollection(name: string, data: Option<seq<Value>>)
      requires Valid()
      modifies this, Repr
      ensures Valid() && fresh(Repr - old(Repr))
      ensures old(Taken(name)) ==> unchanged(this) && unchanged(Repr)
      ensures !old(Taken(name)) ==>
        && collections.Keys == old(collections.Keys) + {name, SystemNamespaces}
        && fresh(collections[name])
      ensures !old(Taken(name)) && (SystemNamespaces in old(collections) || name == SystemNamespaces) ==>
        order == old(order) + [name]
      ensures !old(Taken(name)) && SystemNamespaces !in old(collections) && name != SystemNamespaces ==>
        order == [SystemNamespaces, name]
      ensures !old(Taken(name)) && name != SystemNamespaces ==>
        collections[name].data == (if data.Some? then data.value else [])
      ensures !old(Taken(name)) ==> collections[name].findResult == null
      ensures !old(Taken(name)) && SystemNamespaces !in old(collections) ==> collections[SystemNamespaces].findResult == null
      ensures forall n :: n in old(collections) ==>
        && collections[n] == old(collections[n])
        && collections[n].findResult == old(collections[n].findResult)
        && (n != SystemNamespaces ==> collections[n].data == old(collections[n].data))
      ensures SystemNamespaces in old(collections) ==> seed == old(seed)
      ensures SystemNamespaces !in old(collections) && name != SystemNamespaces ==> seed == []
      ensures SystemNamespaces !in old(collections) && name == SystemNamespaces ==> seed == (if data.Some? then data.value else [])
    {
      if Taken(name) {
        return;
      }
      assert name !in collections;
      if SystemNamespaces in collections {
        AddRegistered(name, data);
      } else if name == SystemNamespaces {
        AddNamespacesFirst(data);
      } else {
        AddFirst(name, data);
      }
    }

    /**
     * The first `addCollection` of a db, for a name other than
     * `system.namespaces`: the nested `addCollection("system.namespaces")`
     * creates that collection without data and pushes its own record, and
     * then `name`'s record follows.
     */
    method AddFirst(name: string, data: Option<seq<Value>>)
      requires Valid() && collections == map[] && name != SystemNamespaces
      modifies this
      ensures Valid() && fresh(Repr - old(Repr))
      ensures collections.Keys == {name, SystemNamespaces}
      ensures fresh(collections[name]) && fresh(collections[SystemNamespaces])
      ensures order == [SystemNamespaces, name] && seed == []
      ensures collections[name].data == (if data.Some? then data.value else [])
      ensures collections[name].findResult == null && collections[SystemNamespaces].findResult == null
    {
      // the nested call leaves `system.namespaces` holding its own record; `name` is then registered after it
      AddNamespacesFirst(None);
      AddRegistered(name, data);
    }

    /**
     * `addCollection("system.namespaces", data)` on a db without collections:
     * the collection exists once created, so its own record is pushed onto
     * its own data, after whatever data it was given.
     */
    method AddNamespacesFirst(data: Option<seq<Value>>)
      requires Valid() && collections == map[]
      modifies this
      ensures Valid() && fresh(Repr - old(Repr))
      ensures collections.Keys == {SystemNamespaces} && fresh(collections[SystemNamespaces])
      ensures order == [SystemNamespaces] && seed == (if data.Some? then data.value else [])
      ensures collections[SystemNamespaces].findResult == null
    {
      var created := new MockCollection(SystemNamespaces, data);
      var records := [NamespaceEntry(dbName, SystemNamespaces)];
      assert NamespaceEntries(dbName, [SystemNamespaces]) == records;
      seed := created.data;
      created.data := created.data + records;
      collections := map[SystemNamespaces := created];
      Repr := Repr + {created};
      order := [SystemNamespaces];
    }

    /** A later `addCollection` of a new name: create it and push its record onto `system.namespaces`. */
    method AddRegistered(name: string, data: Option<seq<Value>>)
      requires Valid() && SystemNamespaces in collections && name !in collections
      modifies this, collections[SystemNamespaces]
      ensures Valid() && fresh(Repr - old(Repr))
      ensures name in collections && fresh(collections[name])
      ensures collections == old(collections)[name := collections[name]]
      ensures collections[name].data == (if data.Some? then data.value else [])
      ensures order == old(order) + [name] && seed == old(seed)
      ensures forall n :: n in old(collections) && n != SystemNamespaces ==>
        collections[n].data == old(collections[n].data)
      ensures collections[name].findResult == null
      ensures forall n :: n in old(collections) ==> collections[n].findResult == old(collections[n].findResult)
    {
      var created := new MockCollection(name, data);
      var namespaces := collections[SystemNamespaces];
      // only the data of `system.namespaces` changes; every collection object stays where it was
      EntriesSnoc(dbName, order, name);
      Register(created);
      namespaces.Push(NamespaceEntry(dbName, name));
    }

    /** Files `created` under its name, after every collection already there. */
    method Register(created: MockCollection)
      requires Registry() && SystemNamespaces in collections && created.name !in collections
      modifies this
      ensures Registry()
      ensures collections == old(collections)[created.name := created]
      ensures Repr == old(Repr) + {created}
      ensures order == old(order) + [created.name] && seed == old(seed)
    {
      collections := collections[created.name := created];
      Repr := Repr + {created};
      order := order + [created.name];
    }

    /** The rows of every collection, as the routine's database reads them. */
    function Rows(): (rows: map<string, seq<Value>>)
      reads this, Repr
      requires Valid()
      ensures rows.Keys == collections.Keys
    {
      map n | n in collections :: collections[n].data
    }

    /** This mock seen through the routine's database interface. */
    function AsDatabase(): Database<string>
      reads this, Repr
      requires Valid()
    {
      MockDatabase(dbName, Rows())
    }
  }

  /**
   * The cursor methods that hand back the cursor itself: the mock's `limit`
   * and `sort`, and `valueOf`, which every object inherits.
   */
  predicate KeepsCursor(method_: string)
  {
    method_ == "limit" || method_ == "sort" || method_ == "valueOf"
  }

  /**
   * The mock as the routine's database: a cursor is the collection it came
   * from (find is memoised per collection), `limit`, `sort` and `valueOf`
   * return it unchanged, any other method throws, and `toArray` gives the
   * collection's whole data.
   */
  function MockDatabase(dbName: string, rows: map<string, seq<Value>>): (db: Database<string>)
    ensures db.name == dbName
    ensures db.listing.Success? <==> SystemNamespaces in rows && NullFree(rows[SystemNamespaces])
    ensures db.listing.Success? ==> db.listing.value == NamesOf(rows[SystemNamespaces])
    ensures forall c, selector, fields :: db.find(c, selector, fields).Success? <==> c in rows
    ensures forall c, selector, fields :: c in rows ==>
      db.find(c, selector, fields).Success? && db.toArray(db.find(c, selector, fields).value) == Success(rows[c])
    ensures forall c: string, m: Modifier :: KeepsCursor(m.name) ==> db.apply(c, m) == Success(c)
    ensures forall c: string, m: Modifier :: !KeepsCursor(m.name) ==> db.apply(c, m).Failure?
  {
    Database(
      dbName,
      if SystemNamespaces in rows && NullFree(rows[SystemNamespaces]) then Success(NamesOf(rows[SystemNamespaces]))
      else Failure(TypeErrorValue),
      (c: string, selector: Value, fields: Value) => if c in rows then Success(c) else Failure(TypeErrorValue),
      (cursor: string, m: Modifier) => if KeepsCursor(m.name) then Success(cursor) else Failure(TypeErrorValue),
      (cursor: string) => if cursor in rows then Success(rows[cursor]) else Failure(TypeErrorValue))
  }

  /** Every modifier is one that keeps the cursor. */
  predicate MockModifiers(mods: seq<Modifier>)
  {
    forall i :: 0 <= i < |mods| ==> KeepsCursor(mods[i].name)
  }

  /** On the mock, a chain of `limit`/`sort`/`valueOf` calls returns the cursor it started from; any other method throws. */
  lemma {:induction false} MockModifiersKeepCursor(dbName: string, rows: map<string, seq<Value>>, c: string, mods: seq<Modifier>)
    ensures MockModifiers(mods) ==> ApplyModifiers(MockDatabase(dbName, rows), c, mods) == Success(c)
    ensures !MockModifiers(mods) ==> ApplyModifiers(MockDatabase(dbName, rows), c, mods) == Failure(TypeErrorValue)
    decreases |mods|
  {
    if mods != [] {
      MockModifiersKeepCursor(dbName, rows, c, mods[1..]);
      if !MockModifiers(mods) && MockModifiers(mods[1..]) {
        assert !KeepsCursor(mods[0].name) by {
          forall i | 1 <= i < |mods| ensures KeepsCursor(mods[i].name) {
            assert mods[i] == mods[1..][i - 1];
          }
        }
      }
      if MockModifiers(mods) {
        assert MockModifiers(mods[1..]) by {
          forall i | 0 <= i < |mods[1..]| ensures KeepsCursor(mods[1..][i].name) {
            assert mods[1..][i] == mods[i + 1];
          }
        }
      }
    }
  }

  /** The `i`-th pushed record names the `i`-th collection, prefixed with the db's `toString()`. */
  lemma RecordsCarryTheDbName(db: MockDb, i: nat)
    requires db.Valid() && i < |db.order|
    ensures SystemNamespaces in db.collections
    ensures var records := db.collections[SystemNamespaces].data;
      |db.seed| + i < |records| && records[|db.seed| + i].Doc? &&
      Member(records[|db.seed| + i].fields, "name") == Str(db.ToString() + "." + db.order[i])
  {
    assert db.order[i] in db.collections;
  }

  /** Every collection whose record was pushed is listed under its qualified name. */
  lemma ListedAfterAdd(dbName: string, seedRecords: seq<Value>, order: seq<string>, name: string)
    requires name in order
    ensures Str(dbName + "." + name) in NamesOf(seedRecords + NamespaceEntries(dbName, order))
  {
    var i :| 0 <= i < |order| && order[i] == name;
    var records := seedRecords + NamespaceEntries(dbName, order);
    assert records[|seedRecords| + i] == NamespaceEntry(dbName, name);
    assert NamesOf(records)[|seedRecords| + i] == Str(dbName + "." + name);
  }

  /**
   * Running the routine against a mock: a query on an added collection whose
   * modifiers are `limit`/`sort` gets the collection's whole data, whatever
   * its selector and fields, unless `system.namespaces` was seeded with a
   * `null` record, which makes the listing throw.
   */
  lemma AddedCollectionServesItsData(db: MockDb, q: QuerySpec)
    requires db.Valid()
    requires q.collection.Some? && q.collection.value in db.collections
    requires MockModifiers(ModifierList(q))
    ensures db.AsDatabase().listing.Success? <==> NullFree(db.seed)
    ensures NullFree(db.seed) ==>
      EntryResult(db.AsDatabase(), db.AsDatabase().listing.value, q) == Arr(db.collections[q.collection.value].data)
  {
    var c := q.collection.value;
    var rows := db.Rows();
    NullFreeRecords(db.dbName, db.seed, db.order);
    ListedAfterAdd(db.dbName, db.seed, db.order, c);
    MockModifiersKeepCursor(db.dbName, rows, c, ModifierList(q));
  }

  /**
   * A query on a collection that was never added (and is not listed by a
   * seeded record) gets the "Unable to locate collection" marker.
   */
  lemma {:induction false} BogusCollectionIsAnError(db: MockDb, q: QuerySpec)
    requires db.Valid() && db.collections != map[]
    requires db.seed == []
    requires q.collection.Some? && q.collection.value !in db.collections
    ensures db.AsDatabase().listing.Success?
    ensures EntryResult(db.AsDatabase(), db.AsDatabase().listing.value, q)
         == ErrorMarker(Str("Unable to locate collection " + q.collection.value))
  {
    var c := q.collection.value;
    var records := NamespaceEntries(db.dbName, db.order);
    assert db.collections[SystemNamespaces].data == records;
    NullFreeRecords(db.dbName, [], db.order);
    assert [] + records == records;
    var names := db.AsDatabase().listing.value;
    forall i | 0 <= i < |names|
      ensures names[i] != Str(db.dbName + "." + c)
    {
      assert records[i] == NamespaceEntry(db.dbName, db.order[i]);
      assert db.order[i] in db.collections;
      if names[i] == Str(db.dbName + "." + c) {
        QualifiedInjective(db.dbName, db.order[i], c);
      }
    }
  }

  /** The tests' fixture: a db with `vehicles` and `paths` holding three rows each. */
  method Fixture() returns (db: MockDb)
    ensures db.Valid() && fresh(db)
    ensures db.collections.Keys == {SystemNamespaces, "vehicles", "paths"}
    ensures db.order == [SystemNamespaces, "vehicles", "paths"] && db.seed == []
    ensures |db.collections["vehicles"].data| == 3 && |db.collections["paths"].data| == 3
  {
    db := new MockDb("mongoscript_test");
    var vehicles := [Doc(map["car" := Num(1)]), Doc(map["truck" := Num(2)]), Doc(map["spaceship" := Num(100000)])];
    var paths := [Doc(map["road" := Num(1)]), Doc(map["rail" := Num(2)]), Doc(map["wormhole" := Num(100000)])];
    assert "vehicles" !in InheritedNames && "paths" !in InheritedNames;
    db.AddCollection("vehicles", Some(vehicles));
    assert db.collections.Keys == {SystemNamespaces, "vehicles"};
    var vehiclesCollection := db.collections["vehicles"];
    assert vehiclesCollection.data == vehicles;
    db.AddCollection("paths", Some(paths));
    assert db.collections["vehicles"] == vehiclesCollection;
  }
}
