/**
 * Argument and criteria resolution of the Mongoid adapter:
 * `resolve_arguments` expands every hash argument with
 * `resolve_complex_criteria`, which rewrites Mongoid complex keys such as
 * `:age.gt => 5` into `:age => {"$gt" => 5}` at every nesting level.
 */
module Criteria {
  import opened Values

  /**
   * A Ruby hash key: a symbol, a string, or a Mongoid complex criterion
   * (`:field.operator`).
   */
  datatype Key = Sym(name: string) | Text(text: string) | Complex(field: string, operator: string)

  /**
   * An argument or hash value before resolution: a hash (its pairs in
   * insertion order) or any other value. A hash in argument or value
   * position is always written `Hash`; `Plain` holds the values that are not
   * hashes there (an array, and whatever it contains, is not searched).
   */
  datatype Criterion = Plain(value: Value) | Hash(pairs: seq<(Key, Criterion)>)

  /**
   * The convention above, checked: no hash, at any depth of hash values, is
   * written `Plain(Doc(...))`, so every Ruby hash reaches resolution as `Hash`.
   */
  predicate Canonical(c: Criterion)
  {
    match c
    case Plain(v) => !v.Doc?
    case Hash(pairs) => forall i :: 0 <= i < |pairs| ==> Canonical(pairs[i].1)
  }

  /** A resolved argument: hashes are maps (Ruby hash equality ignores order). */
  datatype Resolved = Leaf(value: Value) | Tree(entries: map<Key, Resolved>)

  /**
   * Mongoid's one-level rewrite of a single pair: a complex key
   * `:field.op => v` becomes `:field => {"$op" => v}`; other pairs are kept.
   */
  function ExpandPair(p: (Key, Criterion)): (Key, Criterion)
  {
    match p.0
    case Complex(field, operator) => (Sym(field), Hash([(Text("$" + operator), p.1)]))
    case _ => p
  }

  /** `hash.expand_complex_criteria`, pair by pair in order. */
  function Expand(pairs: seq<(Key, Criterion)>): (r: seq<(Key, Criterion)>)
    ensures |r| == |pairs|
    ensures forall i :: 0 <= i < |pairs| ==> r[i] == ExpandPair(pairs[i])
  {
    seq(|pairs|, i requires 0 <= i < |pairs| => ExpandPair(pairs[i]))
  }

  /** The keys a sequence of pairs sets. */
  function KeysOf(pairs: seq<(Key, Criterion)>): (keys: set<Key>)
    ensures forall i :: 0 <= i < |pairs| ==> pairs[i].0 in keys
    ensures forall k :: k in keys ==> exists i :: 0 <= i < |pairs| && pairs[i].0 == k
  {
    set i | 0 <= i < |pairs| :: pairs[i].0
  }

  /** A size that the one-level expansion never increases, so resolution terminates. */
  function Size(c: Criterion): nat
    decreases c, 1
  {
    match c
    case Plain(_) => 1
    case Hash(pairs) => 1 + PrefixSize(c, |pairs|)
  }

  /** A complex key costs one more than a plain one: it becomes a key and a one-entry hash. */
  function KeyCost(k: Key): nat
  {
    if k.Complex? then 2 else 1
  }

  /** The size of the first `n` pairs of the hash `c`. */
  function PrefixSize(c: Criterion, n: nat): nat
    requires c.Hash? && n <= |c.pairs|
    decreases c, 0, n
  {
    if n == 0 then 0
    else
      assert c.pairs[n - 1] in c.pairs;
      PrefixSize(c, n - 1) + KeyCost(c.pairs[n - 1].0) + Size(c.pairs[n - 1].1)
  }

  /** Each pair accounts for at least its key cost and its value's size. */
  lemma {:induction false} PairWithinSize(c: Criterion, n: nat, i: nat)
    requires c.Hash? && i < n <= |c.pairs|
    ensures KeyCost(c.pairs[i].0) + Size(c.pairs[i].1) <= PrefixSize(c, n)
  {
    if i < n - 1 {
      PairWithinSize(c, n - 1, i);
    }
  }

  /** Every value of the expansion is smaller than the hash it came from. */
  lemma ExpandedValueSmaller(pairs: seq<(Key, Criterion)>, i: nat)
    requires i < |pairs|
    ensures Size(Expand(pairs)[i].1) < Size(Hash(pairs))
  {
    PairWithinSize(Hash(pairs), |pairs|, i);
    var (k, v) := pairs[i];
    if k.Complex? {
      var single := Hash([(Text("$" + k.operator), v)]);
      assert PrefixSize(single, 1) == 1 + Size(v);
    }
  }

  /** `v.is_a?(Hash) ? resolve_complex_criteria(v) : v`. */
  function ResolveValue(c: Criterion): (r: Resolved)
    ensures c.Plain? ==> r == Leaf(c.value)
    ensures c.Hash? ==> r.Tree? && forall k :: k in r.entries ==> !k.Complex?
    decreases Size(c), 1
  {
    match c
    case Plain(v) => Leaf(v)
    case Hash(pairs) => Tree(ResolveHash(pairs))
  }

  /** `resolve_complex_criteria(hash)`: a fresh map filled from the expanded pairs in order. */
  function ResolveHash(pairs: seq<(Key, Criterion)>): (r: map<Key, Resolved>)
    ensures forall k :: k in r ==> !k.Complex?
    decreases Size(Hash(pairs)), 0
  {
    ResolveFrom(pairs, |pairs|)
  }

  /** The result map after the first `n` expanded pairs have been stored (a later pair overwrites an earlier one with the same key). */
  function ResolveFrom(pairs: seq<(Key, Criterion)>, n: nat): (r: map<Key, Resolved>)
    requires n <= |pairs|
    ensures forall k :: k in r ==> !k.Complex?
    decreases Size(Hash(pairs)), 0, n
  {
    if n == 0 then map[]
    else
      var p := Expand(pairs)[n - 1];
      ExpandedValueSmaller(pairs, n - 1);
      ResolveFrom(pairs, n - 1)[p.0 := ResolveValue(p.1)]
  }

  /** The implementation's loop over the expanded pairs, recursing into hash values. */
  method ResolveComplexCriteria(pairs: seq<(Key, Criterion)>) returns (result: map<Key, Resolved>)
    ensures result == ResolveHash(pairs)
    decreases Size(Hash(pairs))
  {
    result := map[];
    var expanded := Expand(pairs);
    var i := 0;
    while i < |expanded|
      invariant 0 <= i <= |expanded|
      invariant result == ResolveFrom(pairs, i)
    {
      var (k, v) := expanded[i];
      ExpandedValueSmaller(pairs, i);
      if v.Hash? {
        var nested := ResolveComplexCriteria(v.pairs);
        result := result[k := Tree(nested)];
      } else {
        result := result[k := Leaf(v.value)];
      }
      i := i + 1;
    }
  }

  /** `resolve_arguments(args)`: every hash argument resolved, every other argument passed through, in order. */
  function ResolveArguments(args: seq<Criterion>): (r: seq<Resolved>)
    ensures |r| == |args|
    ensures forall i :: 0 <= i < |args| && args[i].Plain? ==> r[i] == Leaf(args[i].value)
    ensures forall i :: 0 <= i < |args| && args[i].Hash? ==> r[i] == Tree(ResolveHash(args[i].pairs))
  {
    seq(|args|, i requires 0 <= i < |args| => ResolveValue(args[i]))
  }

  /** No complex key is left, at any depth. */
  predicate FullyResolved(r: Resolved)
  {
    match r
    case Leaf(_) => true
    case Tree(entries) => forall k :: k in entries ==> !k.Complex? && FullyResolved(entries[k])
  }

  /** The result has exactly the keys of the one-level expansion. */
  lemma {:induction false} ResolveFromKeys(pairs: seq<(Key, Criterion)>, n: nat)
    requires n <= |pairs|
    ensures ResolveFrom(pairs, n).Keys == KeysOf(Expand(pairs)[..n])
  {
    if n > 0 {
      ResolveFromKeys(pairs, n - 1);
      assert Expand(pairs)[..n] == Expand(pairs)[..n - 1] + [Expand(pairs)[n - 1]];
    }
  }

  lemma ResolveHashKeys(pairs: seq<(Key, Criterion)>)
    ensures ResolveHash(pairs).Keys == KeysOf(Expand(pairs))
  {
    ResolveFromKeys(pairs, |pairs|);
    assert Expand(pairs)[..|pairs|] == Expand(pairs);
  }

  /** A complex key `:f.op` contributes the symbol key `:f`; a plain key contributes itself. */
  lemma ExpandedKeys(pairs: seq<(Key, Criterion)>, i: nat)
    requires i < |pairs|
    ensures pairs[i].0.Complex? ==> Sym(pairs[i].0.field) in ResolveHash(pairs)
    ensures !pairs[i].0.Complex? ==> pairs[i].0 in ResolveHash(pairs)
  {
    ResolveHashKeys(pairs);
    assert Expand(pairs)[i] == ExpandPair(pairs[i]);
  }

  /** Where a key is set by exactly one pair, its value is that pair's value resolved (for a complex key, wrapped in `{"$op" => ...}`). */
  lemma {:induction false} ResolveFromValue(pairs: seq<(Key, Criterion)>, n: nat, i: nat)
    requires i < n <= |pairs|
    requires forall j :: i < j < n ==> Expand(pairs)[j].0 != Expand(pairs)[i].0
    ensures Expand(pairs)[i].0 in ResolveFrom(pairs, n)
    ensures ResolveFrom(pairs, n)[Expand(pairs)[i].0] == ResolveValue(Expand(pairs)[i].1)
  {
    if i < n - 1 {
      ResolveFromValue(pairs, n - 1, i);
    }
  }

  /** Each key's value is the value of the last pair that sets it, resolved: a hash recursively, anything else unchanged. */
  lemma ResolvedEntry(pairs: seq<(Key, Criterion)>, k: Key)
    requires k in ResolveHash(pairs)
    ensures k in KeysOf(Expand(pairs))
    ensures var last := Expand(pairs)[LastIndexOf(Expand(pairs), k)].1;
      && ResolveHash(pairs)[k] == ResolveValue(last)
      && (last.Plain? ==> ResolveHash(pairs)[k] == Leaf(last.value))
      && (last.Hash? ==> ResolveHash(pairs)[k] == Tree(ResolveHash(last.pairs)))
  {
    ResolveHashKeys(pairs);
    ResolveFromValue(pairs, |pairs|, LastIndexOf(Expand(pairs), k));
  }

  /** Resolution leaves no complex key anywhere in the result. */
  lemma {:induction false} ResolvedHasNoComplexKeys(c: Criterion)
    ensures FullyResolved(ResolveValue(c))
    decreases Size(c)
  {
    match c
    case Plain(_) =>
    case Hash(pairs) =>
      var result := ResolveHash(pairs);
      forall k | k in result
        ensures !k.Complex? && FullyResolved(result[k])
      {
        ResolvedEntry(pairs, k);
        var last := LastIndexOf(Expand(pairs), k);
        ExpandedValueSmaller(pairs, last);
        ResolvedHasNoComplexKeys(Expand(pairs)[last].1);
      }
  }

  /** The position of the last pair that sets `k`. */
  function LastIndexOf(pairs: seq<(Key, Criterion)>, k: Key): (i: nat)
    requires k in KeysOf(pairs)
    ensures i < |pairs| && pairs[i].0 == k
    ensures forall j :: i < j < |pairs| ==> pairs[j].0 != k
  {
    if pairs[|pairs| - 1].0 == k then |pairs| - 1
    else
      assert k in KeysOf(pairs[..|pairs| - 1]) by {
        var j :| 0 <= j < |pairs| && pairs[j].0 == k;
        assert pairs[..|pairs| - 1][j] == pairs[j];
      }
      LastIndexOf(pairs[..|pairs| - 1], k)
  }

  /**
   * The adapter's worked example: `{:a.in => [1, 2], :c => {:e.exists =>
   * false, :f => {:y.ne => 2}}, :f => 3}` resolves to `{:a => {"$in" =>
   * [1, 2]}, :c => {:e => {"$exists" => false}, :f => {:y => {"$ne" => 2}}},
   * :f => 3}`.
   */
  lemma WorkedExample()
    ensures ResolveHash([
        (Complex("a", "in"), Plain(Arr([Num(1), Num(2)]))),
        (Sym("c"), Hash([
          (Complex("e", "exists"), Plain(Bool(false))),
          (Sym("f"), Hash([(Complex("y", "ne"), Plain(Num(2)))]))])),
        (Sym("f"), Plain(Num(3)))])
      == map[
        Sym("a") := Tree(map[Text("$in") := Leaf(Arr([Num(1), Num(2)]))]),
        Sym("c") := Tree(map[
          Sym("e") := Tree(map[Text("$exists") := Leaf(Bool(false))]),
          Sym("f") := Tree(map[Sym("y") := Tree(map[Text("$ne") := Leaf(Num(2))])])]),
        Sym("f") := Leaf(Num(3))]
  {
    ResolveSingle(Text("$ne"), Plain(Num(2)));
    ResolveSingle(Complex("y", "ne"), Plain(Num(2)));
    ResolveSingle(Text("$exists"), Plain(Bool(false)));
    ResolveSingle(Complex("e", "exists"), Plain(Bool(false)));
    ResolveSingle(Text("$in"), Plain(Arr([Num(1), Num(2)])));
    ResolveSingle(Complex("a", "in"), Plain(Arr([Num(1), Num(2)])));
    assert "$" + "ne" == "$ne" && "$" + "exists" == "$exists" && "$" + "in" == "$in";
    var ne := Tree(map[Text("$ne") := Leaf(Num(2))]);
    var present := Tree(map[Text("$exists") := Leaf(Bool(false))]);
    var inList := Tree(map[Text("$in") := Leaf(Arr([Num(1), Num(2)]))]);
    var y := [(Complex("y", "ne"), Plain(Num(2)))];
    assert ResolveHash(y) == map[Sym("y") := ne];
    var c := [(Complex("e", "exists"), Plain(Bool(false))), (Sym("f"), Hash(y))];
    assert ResolveFrom(c, 1) == ResolveHash([c[0]]) == map[Sym("e") := present];
    assert Expand(c)[1] == c[1] && ResolveValue(Hash(y)) == Tree(map[Sym("y") := ne]);
    assert ResolveHash(c) == ResolveFrom(c, 2) == ResolveFrom(c, 1)[Sym("f") := Tree(map[Sym("y") := ne])];
    assert ResolveHash(c) == map[Sym("e") := present, Sym("f") := Tree(map[Sym("y") := ne])];
    var top := [(Complex("a", "in"), Plain(Arr([Num(1), Num(2)]))), (Sym("c"), Hash(c)), (Sym("f"), Plain(Num(3)))];
    assert ResolveFrom(top, 1) == ResolveHash([top[0]]) == map[Sym("a") := inList];
    assert Expand(top)[1] == top[1] && Expand(top)[2] == top[2];
    assert ResolveFrom(top, 2) == map[Sym("a") := inList, Sym("c") := Tree(ResolveHash(c))];
  }

  /** A one-pair hash resolves to the one (expanded) entry. */
  lemma ResolveSingle(k: Key, v: Criterion)
    ensures ResolveHash([(k, v)]) == map[ExpandPair((k, v)).0 := ResolveValue(ExpandPair((k, v)).1)]
  {
    var pairs := [(k, v)];
    var p := Expand(pairs)[0];
    assert p == ExpandPair((k, v));
    assert ResolveFrom(pairs, 0) == map[];
    assert ResolveHash(pairs) == ResolveFrom(pairs, 1) == ResolveFrom(pairs, 0)[p.0 := ResolveValue(p.1)];
  }
}
