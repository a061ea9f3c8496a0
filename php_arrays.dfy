/**
 * PHP arrays as the options bag uses them: ordered maps from string keys to
 * values. An array is the sequence of its entries in insertion order, and a
 * key occurs at most once (`Distinct`).
 *
 * The functions here are the PHP primitives the bag is built from:
 * `array_key_exists`, `$a[$k]`, `$a[$k] = $v`, `unset($a[$k])`,
 * `array_keys`, `array_values` and `array_merge`.
 */
module PhpArrays {

  /** A stored PHP value. `Other(tag)` stands for any payload the bag never
      inspects (a float, a nested array, an object), told apart by its tag. */
  datatype Value = Null | Bool(b: bool) | Int(i: int) | Str(s: string) | Other(tag: nat)

  datatype Option<T> = None | Some(value: T)

  type Entry = (string, Value)

  /** The entries of a PHP array, in insertion order. */
  type PhpArray = seq<Entry>

  /** Keys of a PHP array are pairwise distinct. */
  predicate Distinct(a: PhpArray) {
    forall i, j :: 0 <= i < j < |a| ==> a[i].0 != a[j].0
  }

  /** `array_keys($a)`: the keys in insertion order. */
  function ArrayKeys(a: PhpArray): (r: seq<string>)
    ensures |r| == |a|
    ensures forall i :: 0 <= i < |a| ==> r[i] == a[i].0
  {
    if a == [] then [] else [a[0].0] + ArrayKeys(a[1..])
  }

  /** `array_values($a)`: the values in insertion order. */
  function ArrayValues(a: PhpArray): (r: seq<Value>)
    ensures |r| == |a|
    ensures forall i :: 0 <= i < |a| ==> r[i] == a[i].1
  {
    if a == [] then [] else [a[0].1] + ArrayValues(a[1..])
  }

  /** Pairs keys and values up position by position: the inverse of splitting
      an array into `ArrayKeys` and `ArrayValues` (see `CombineKeysValues`). */
  function Combine(keys: seq<string>, values: seq<Value>): PhpArray
    requires |keys| == |values|
  {
    if keys == [] then [] else [(keys[0], values[0])] + Combine(keys[1..], values[1..])
  }

  /** Keys and values are aligned position by position: pairing them up again
      gives back the array. */
  lemma {:induction false} CombineKeysValues(a: PhpArray)
    ensures |ArrayKeys(a)| == |ArrayValues(a)| == |a|
    ensures Combine(ArrayKeys(a), ArrayValues(a)) == a
  {
    if a != [] {
      CombineKeysValues(a[1..]);
      assert ArrayKeys(a)[1..] == ArrayKeys(a[1..]);
      assert ArrayValues(a)[1..] == ArrayValues(a[1..]);
    }
  }

  /** The slot the hash table finds for key `k`, or -1 when there is none. */
  function IndexOf(a: PhpArray, k: string): (r: int)
    ensures -1 <= r < |a|
    ensures 0 <= r ==> a[r].0 == k
    ensures forall j :: 0 <= j < |a| && (r < 0 || j < r) ==> a[j].0 != k
  {
    if a == [] then -1
    else if a[0].0 == k then 0
    else
      var r := IndexOf(a[1..], k);
      if r < 0 then -1 else r + 1
  }

  /** A position that holds key `k`, with no earlier one holding it, is the
      position `IndexOf` finds; no position at all means -1. */
  lemma IndexOfIs(a: PhpArray, k: string, p: int)
    requires -1 <= p < |a|
    requires 0 <= p ==> a[p].0 == k
    requires forall j :: 0 <= j < |a| && (p < 0 || j < p) ==> a[j].0 != k
    ensures IndexOf(a, k) == p
  {
  }

  /** `array_key_exists($k, $a)`: true whatever the stored value, null included. */
  function KeyExists(a: PhpArray, k: string): (r: bool)
    ensures r <==> exists i :: 0 <= i < |a| && a[i].0 == k
    ensures r <==> k in ArrayKeys(a)
  {
    IndexOf(a, k) >= 0
  }

  /** The value stored under `k`, or null when `k` is absent (the shared body
      of `get` in the options classes). */
  function Lookup(a: PhpArray, k: string): (r: Value)
    ensures KeyExists(a, k) ==> exists i :: 0 <= i < |a| && a[i] == (k, r)
    ensures !KeyExists(a, k) ==> r == Null
  {
    if !KeyExists(a, k) then Null else a[IndexOf(a, k)].1
  }

  /** In a PHP array the value found under a key is the one stored with it. */
  lemma LookupEntry(a: PhpArray, i: int)
    requires Distinct(a) && 0 <= i < |a|
    ensures KeyExists(a, a[i].0) && Lookup(a, a[i].0) == a[i].1
  {
    IndexOfIs(a, a[i].0, i);
  }

  /** A key stored with a null value is present, yet reads back as null:
      existence and value are separate questions. */
  lemma NullIsPresent(a: PhpArray, i: int)
    requires Distinct(a) && 0 <= i < |a| && a[i].1 == Null
    ensures KeyExists(a, a[i].0) && Lookup(a, a[i].0) == Null
  {
    LookupEntry(a, i);
  }

  /** `$a[$k] = $v`: an existing key is overwritten where it stands, a new key
      is appended after the last entry. */
  function Assign(a: PhpArray, k: string, v: Value): (r: PhpArray)
    ensures ArrayKeys(r) == if KeyExists(a, k) then ArrayKeys(a) else ArrayKeys(a) + [k]
    ensures Distinct(a) ==> Distinct(r)
  {
    var i := IndexOf(a, k);
    if i < 0 then a + [(k, v)] else a[i := (k, v)]
  }

  /** After `$a[$k] = $v` the key reads back as `$v` and every other key reads
      back as before. */
  lemma AssignLookup(a: PhpArray, k: string, v: Value, j: string)
    ensures KeyExists(Assign(a, k, v), j) <==> (j == k || KeyExists(a, j))
    ensures Lookup(Assign(a, k, v), j) == if j == k then v else Lookup(a, j)
  {
    var r := Assign(a, k, v);
    var i := IndexOf(a, k);
    var p := IndexOf(a, j);
    if i < 0 {
      if j == k {
        IndexOfIs(r, j, |a|);
      } else {
        IndexOfIs(r, j, p);
      }
    } else {
      if j == k {
        IndexOfIs(r, j, i);
      } else {
        IndexOfIs(r, j, p);
      }
    }
  }

  /** `unset($a[$k])`: drops the entry of `k` if there is one. */
  function Unset(a: PhpArray, k: string): (r: PhpArray)
    ensures !KeyExists(a, k) ==> r == a
    ensures KeyExists(a, k) ==> |r| == |a| - 1
    ensures Distinct(a) ==> Distinct(r)
  {
    var i := IndexOf(a, k);
    if i < 0 then a else a[..i] + a[i + 1..]
  }

  /** Reference definition of removal: keep, in order, every entry whose key
      is not `k`. */
  function Without(a: PhpArray, k: string): PhpArray
  {
    if a == [] then [] else (if a[0].0 == k then [] else [a[0]]) + Without(a[1..], k)
  }

  lemma {:induction false} WithoutAbsent(a: PhpArray, k: string)
    requires forall i :: 0 <= i < |a| ==> a[i].0 != k
    ensures Without(a, k) == a
  {
    if a != [] {
      WithoutAbsent(a[1..], k);
    }
  }

  /** On a PHP array `unset` removes the key and keeps every other entry in its
      relative order. */
  lemma {:induction false} UnsetKeepsOrder(a: PhpArray, k: string)
    requires Distinct(a)
    ensures Unset(a, k) == Without(a, k)
  {
    if a != [] {
      if a[0].0 == k {
        WithoutAbsent(a[1..], k);
        assert Unset(a, k) == a[1..];
      } else {
        var i := IndexOf(a, k);
        UnsetKeepsOrder(a[1..], k);
        if i < 0 {
          WithoutAbsent(a, k);
        } else {
          assert IndexOf(a[1..], k) == i - 1;
          assert a[..i] + a[i + 1..] == [a[0]] + (a[1..][..i - 1] + a[1..][i..]);
        }
      }
    }
  }

  /** After `unset($a[$k])` the key is gone and every other key reads back as
      before. */
  lemma UnsetLookup(a: PhpArray, k: string, j: string)
    requires Distinct(a)
    ensures KeyExists(Unset(a, k), j) <==> (j != k && KeyExists(a, j))
    ensures Lookup(Unset(a, k), j) == if j == k then Null else Lookup(a, j)
  {
    var r := Unset(a, k);
    var i := IndexOf(a, k);
    var p := IndexOf(a, j);
    if 0 <= i {
      if j == k {
        IndexOfIs(r, j, -1);
      } else if p < 0 {
        IndexOfIs(r, j, -1);
      } else if p < i {
        IndexOfIs(r, j, p);
      } else {
        IndexOfIs(r, j, p - 1);
      }
    }
  }

  /** `array_merge($a, $b)` for string keys: the entries of `$b` are written,
      in order, into a copy of `$a`. */
  function ArrayMerge(a: PhpArray, b: PhpArray): (r: PhpArray)
    ensures Distinct(a) ==> Distinct(r)
    decreases |b|
  {
    if b == [] then a else ArrayMerge(Assign(a, b[0].0, b[0].1), b[1..])
  }

  /** Merging a single entry is writing that entry. */
  lemma MergeSingle(a: PhpArray, k: string, v: Value)
    ensures ArrayMerge(a, [(k, v)]) == Assign(a, k, v)
  {
    assert [(k, v)][1..] == [];
  }

  /** After a merge, a key of `b` reads back as its value in `b`; any other key
      reads back as in `a`. */
  lemma {:induction false} MergeLookup(a: PhpArray, b: PhpArray, k: string)
    requires Distinct(b)
    ensures KeyExists(ArrayMerge(a, b), k) <==> (KeyExists(b, k) || KeyExists(a, k))
    ensures Lookup(ArrayMerge(a, b), k) == if KeyExists(b, k) then Lookup(b, k) else Lookup(a, k)
    decreases |b|
  {
    if b != [] {
      var a' := Assign(a, b[0].0, b[0].1);
      MergeLookup(a', b[1..], k);
      AssignLookup(a, b[0].0, b[0].1, k);
      if b[0].0 == k {
        IndexOfIs(b, k, 0);
        assert !KeyExists(b[1..], k) by {
          forall j | 0 <= j < |b[1..]| ensures b[1..][j].0 != k {
            assert b[1..][j] == b[j + 1];
          }
        }
      } else {
        IndexOfIs(b, k, if IndexOf(b[1..], k) < 0 then -1 else IndexOf(b[1..], k) + 1);
      }
    }
  }

  /** The keys of `b` that are not among `keys`, in `b`'s order. */
  function FreshKeys(keys: seq<string>, b: PhpArray): seq<string>
  {
    if b == [] then [] else (if b[0].0 in keys then [] else [b[0].0]) + FreshKeys(keys, b[1..])
  }

  lemma {:induction false} FreshKeysIgnore(keys: seq<string>, k: string, b: PhpArray)
    requires forall i :: 0 <= i < |b| ==> b[i].0 != k
    ensures FreshKeys(keys + [k], b) == FreshKeys(keys, b)
  {
    if b != [] {
      FreshKeysIgnore(keys, k, b[1..]);
      assert (b[0].0 in keys + [k]) == (b[0].0 in keys);
    }
  }

  /** One step of a merge: writing the first entry of `b` and then looking for
      fresh keys in the rest finds the same keys as looking in all of `b`. */
  lemma MergeKeysStep(a: PhpArray, b: PhpArray)
    requires Distinct(b) && b != []
    ensures ArrayKeys(Assign(a, b[0].0, b[0].1)) + FreshKeys(ArrayKeys(Assign(a, b[0].0, b[0].1)), b[1..])
         == ArrayKeys(a) + FreshKeys(ArrayKeys(a), b)
  {
    var ka, k0, b' := ArrayKeys(a), b[0].0, b[1..];
    var a' := Assign(a, k0, b[0].1);
    assert FreshKeys(ka, b) == (if k0 in ka then [] else [k0]) + FreshKeys(ka, b');
    if k0 in ka {
      assert ArrayKeys(a') == ka;
      assert [] + FreshKeys(ka, b') == FreshKeys(ka, b');
    } else {
      forall i | 0 <= i < |b'| ensures b'[i].0 != k0 {
        assert b'[i] == b[i + 1];
      }
      FreshKeysIgnore(ka, k0, b');
      assert ArrayKeys(a') == ka + [k0];
      assert ka + [k0] + FreshKeys(ka, b') == ka + ([k0] + FreshKeys(ka, b'));
    }
  }

  /** A merge keeps the keys of `a` where they were and appends the keys new
      to `a` in `b`'s order. */
  lemma {:induction false} MergeKeys(a: PhpArray, b: PhpArray)
    requires Distinct(b)
    ensures ArrayKeys(ArrayMerge(a, b)) == ArrayKeys(a) + FreshKeys(ArrayKeys(a), b)
    decreases |b|
  {
    if b != [] {
      MergeKeys(Assign(a, b[0].0, b[0].1), b[1..]);
      MergeKeysStep(a, b);
    }
  }
}
