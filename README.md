# Options bag, modelled in Dafny

This project models a small PHP "options bag": a wrapper around one PHP
associative array, an ordered map from string keys to arbitrary values. It
covers four parts:

- the `Options` class, with the read-only queries `all`, `keys`, `values`, `get`
  and `has`, and the chainable mutators `merge`, `mergeKey` and `override`;
- the abstract `Collection` base class, which adds subscript access
  (`offsetExists`, `offsetGet`, `offsetSet`, `offsetUnset`), property access
  (`__get`, `__set`) and an iterator over the array's internal pointer
  (`current`, `next`, `key`, `valid`, `rewind`);
- the `Iteratable` trait, which holds the same iterator;
- the `Arrayable` trait, which holds the same subscript access and writes
  through `mergeKey`.

Files:

- `php_arrays.dfy` (module `PhpArrays`) defines the PHP array and the
  primitives the classes are built from. A PHP array is a sequence of
  `(key, value)` entries in insertion order. Keys are pairwise distinct
  (`Distinct`). The primitives are `array_key_exists` (`KeyExists`), `$a[$k]`
  guarded by a null default (`Lookup`), `$a[$k] = $v` (`Assign`),
  `unset($a[$k])` (`Unset`), `array_keys`, `array_values` and `array_merge`.
  The module also proves their properties: overwrite in place or append,
  removal keeping order, and merge values and key order.
- `internal_pointer.dfy` (module `InternalPointer`) models the internal
  pointer as a position. A position at or past the end means "past the end".
  The module defines `foreach` over the iterator protocol (`Visit`) and proves
  which entries it visits.
- `options.dfy` (module `OptionsBag`) holds the class `Options`.
- `collection.dfy` (module `OptionsCollection`) holds the class `Collection`.
- `traits.dfy` (module `OptionsTraits`) holds the classes `Iteratable` and
  `Arrayable`. A trait's `$this` is the object that uses it. Each trait is
  therefore a class holding a `host: Options` reference, and its methods act
  on `host`. `Arrayable.OffsetSet` calls `host.MergeKey`, as the trait does.
- `scenarios.dfy` (module `Scenarios`) restates the six concrete cases of
  the unit tests. Lemmas state them on the array functions, and methods run
  them on an `Options` object.

Some assumptions and modelling decisions:

- Every PHP array has distinct keys. Constructors, `Merge` and `Override`
  therefore require `Distinct` of the array they receive. Every mutator is
  proved to keep the keys distinct.
- A value is `Null`, `Bool`, `Int`, `Str` or `Other(tag)`. `Other(tag)` stands
  for any payload the bag never looks into.
- The chainable mutators return `self`, proved equal to `this`.

Other revisions of this library also offer filtering, `isEnabled` and
`isDisabled`, `addIfUnique`, `toJson` and a `fromArray` factory. The classes
modelled here have none of them, so they are not part of this model.

## Model

| member | source | states |
|---|---|---|
| `PhpArrays.ArrayKeys` | src/Options.php:30-33 | one key per entry; the i-th key is the i-th entry's key (insertion order) |
| `PhpArrays.ArrayValues` | src/Options.php:39-42 | one value per entry; the i-th value is the i-th entry's value |
| `PhpArrays.CombineKeysValues` | src/Options.php:30-42 | keys and values have the array's length and are positionally aligned: pairing them up gives back the array |
| `PhpArrays.KeyExists` | src/Options.php:63-66 | true iff some entry has the key, whatever its value; equivalently the key is among `array_keys` |
| `PhpArrays.Lookup` | src/Options.php:49-56 | a present key yields a value stored with that key; an absent key yields null |
| `PhpArrays.LookupEntry` | src/Options.php:49-56 | in an array with distinct keys, the key of every entry is present and reads back as that entry's value |
| `PhpArrays.NullIsPresent` | src/Options.php:49-66 | a key stored with null is present, and `get` still yields null for it |
| `PhpArrays.Assign` | src/Options.php:88-92 | keys after `$a[$k] = $v`: unchanged when k existed (overwrite in place), k appended last otherwise; keys stay distinct |
| `PhpArrays.AssignLookup` | src/Options.php:88-92 | after the write, k is present and reads back v; every other key keeps its presence and value |
| `PhpArrays.Unset` | src/Collection.php:101-104 | an absent key leaves the array unchanged; a present one shortens it by exactly one entry; keys stay distinct |
| `PhpArrays.UnsetKeepsOrder` | src/Collection.php:101-104 | on distinct keys, `unset` equals the reference filter that keeps, in order, every entry whose key differs |
| `PhpArrays.UnsetLookup` | src/Traits/Arrayable.php:24-27 | afterwards the key is absent and reads null; every other key keeps its presence and value |
| `PhpArrays.ArrayMerge` | src/Options.php:75-79 | `array_merge` writes the incoming entries in order into a copy; keys stay distinct |
| `PhpArrays.MergeLookup` | src/Options.php:75-79 | after a merge, a key of the incoming array reads back its incoming value, any other key its old value; present iff present in either |
| `PhpArrays.MergeKeys` | src/Options.php:75-79 | after a merge the old keys keep their positions and the keys new to the array follow, in the incoming array's order |
| `PhpArrays.MergeSingle` | src/Options.php:75-92 | merging a one-entry array is the same as `mergeKey` of that entry |
| `InternalPointer.CurrentAt` | src/Traits/Iteratable.php:9-12 | value under the pointer, or `false` past the end |
| `InternalPointer.KeyAt` | src/Traits/Iteratable.php:19-22 | key under the pointer, or null past the end |
| `InternalPointer.Advance` | src/Traits/Iteratable.php:14-17 | one position forward inside the array; past the end it stays |
| `InternalPointer.ValidAt` | src/Traits/Iteratable.php:24-27 | valid iff the pointer is on an entry whose value is not the boolean `false` |
| `InternalPointer.VisitFrom` | src/Traits/Iteratable.php:9-27 | iterating from any position yields the remaining entries up to the first stored `false` |
| `InternalPointer.ForeachVisits` | src/Traits/Iteratable.php:9-32 | rewind then next while valid visits the entries in insertion order and stops at the first stored `false` |
| `InternalPointer.ForeachVisitsAll` | src/Traits/Iteratable.php:9-32 | with no stored `false`, iteration visits every entry exactly once, in insertion order |
| `InternalPointer.ForeachStopsAtFalse` | src/Traits/Iteratable.php:24-27 | a first stored `false` at position i ends iteration early: only the entries before i are visited |
| `OptionsBag.Options.constructor` | src/Options.php:12-15 | the new bag holds exactly the given array (default empty) |
| `OptionsBag.Options.All` | src/Options.php:21-24 | returns the held entries, same length, same order |
| `OptionsBag.Options.Keys` | src/Options.php:30-33 | one key per entry, in insertion order |
| `OptionsBag.Options.Values` | src/Options.php:39-42 | one value per entry, in insertion order |
| `OptionsBag.Options.Get` | src/Options.php:49-56 | a present key yields the value stored with it; an absent key yields null |
| `OptionsBag.Options.Has` | src/Options.php:63-66 | true iff some entry has the key, regardless of its value |
| `OptionsBag.Options.Merge` | src/Options.php:75-79 | incoming keys read their incoming value, others their old value; old keys keep their positions, new keys are appended in incoming order; returns the same instance |
| `OptionsBag.Options.MergeKey` | src/Options.php:88-92 | afterwards `get(k) == v`; no other key changes; an existing key keeps its position, a new one goes last; returns the same instance |
| `OptionsBag.Options.Override` | src/Options.php:99-103 | afterwards `all()` is exactly the given array; returns the same instance |
| `OptionsCollection.Collection.constructor` | src/Collection.php:17-20 | holds the given array with the pointer on its first entry |
| `OptionsCollection.Collection.Current` | src/Collection.php:26-29 | value under the pointer, `false` past the end |
| `OptionsCollection.Collection.Next` | src/Collection.php:34-37 | advances exactly one entry (stays past the end); entries unchanged |
| `OptionsCollection.Collection.Key` | src/Collection.php:43-46 | key under the pointer, null past the end |
| `OptionsCollection.Collection.Valid` | src/Collection.php:51-54 | equals `current() !== false`: false past the end and on a stored `false` |
| `OptionsCollection.Collection.Rewind` | src/Collection.php:59-62 | pointer back to the start: `key()`/`current()` give the first entry, or null/`false` when empty; entries unchanged |
| `OptionsCollection.Collection.ForEach` | src/Collection.php:26-62 | a `foreach` driven through `rewind`/`valid`/`key`/`current`/`next` yields the entries in insertion order up to the first stored `false`; entries unchanged |
| `OptionsCollection.Collection.OffsetExists` | src/Collection.php:68-71 | equals `has`: true iff the key is stored |
| `OptionsCollection.Collection.OffsetGet` | src/Collection.php:78-81 | equals `get`; null for an absent key |
| `OptionsCollection.Collection.OffsetSet` | src/Collection.php:88-95 | for a string offset: afterwards the key reads the value, other keys unchanged, existing key kept in place, new key appended; pointer unchanged |
| `OptionsCollection.Collection.OffsetUnset` | src/Collection.php:101-104 | the key is gone; the other entries keep their values and relative order; no-op for an absent key |
| `OptionsCollection.Collection.MagicGet` | src/Collection.php:110-113 | equals `get`; null for an absent key |
| `OptionsCollection.Collection.MagicSet` | src/Collection.php:119-122 | the same write as `offsetSet`: key reads the value, others unchanged, overwrite in place or append |
| `OptionsCollection.Collection.Get` | src/Collection.php:130-137 | a present key yields the value stored with it; an absent key yields null |
| `OptionsCollection.Collection.Has` | src/Collection.php:144-147 | true iff some entry has the key, regardless of its value |
| `OptionsTraits.Iteratable.Current` | src/Traits/Iteratable.php:9-12 | value under the host array's pointer, `false` past the end |
| `OptionsTraits.Iteratable.Next` | src/Traits/Iteratable.php:14-17 | advances exactly one entry (stays past the end); only the pointer changes, never the host's entries |
| `OptionsTraits.Iteratable.Key` | src/Traits/Iteratable.php:19-22 | key under the pointer, null past the end |
| `OptionsTraits.Iteratable.Valid` | src/Traits/Iteratable.php:24-27 | equals `current() !== false`: false past the end and on a stored `false` |
| `OptionsTraits.Iteratable.Rewind` | src/Traits/Iteratable.php:29-32 | pointer on the first entry, or past the end (not valid) for an empty array |
| `OptionsTraits.ForEach` | src/Traits/Iteratable.php:9-32 | a `foreach` over a trait-using object, driven through its own methods, yields the host's entries in insertion order up to the first stored `false` |
| `OptionsTraits.Arrayable.OffsetExists` | src/Traits/Arrayable.php:9-12 | equals the host's `has` |
| `OptionsTraits.Arrayable.OffsetGet` | src/Traits/Arrayable.php:14-17 | equals the host's `get`; null for an absent key |
| `OptionsTraits.Arrayable.OffsetSet` | src/Traits/Arrayable.php:19-22 | exactly the effect of the host's `mergeKey`: overwrite in place or append, other keys unchanged |
| `OptionsTraits.Arrayable.OffsetUnset` | src/Traits/Arrayable.php:24-27 | afterwards `offsetExists` is false; other entries keep values and relative order; no-op for an absent key |
| `Scenarios.MergeScenario` | tests/Unit/OptionsTest.php:84-97 | the merge example of the tests gives the expected array |
| `Scenarios.MergeKeyScenario` | tests/Unit/OptionsTest.php:102-114 | the chained `mergeKey` example gives the expected array |
| `Scenarios.KeysValuesScenario` | tests/Unit/OptionsTest.php:34-57 | keys and values of the test data come out in insertion order |
| `Scenarios.GetHasScenario` | tests/Unit/OptionsTest.php:62-79 | `get`/`has` on a present and on a missing key, as in the tests |
| `Scenarios.AllScenario` | tests/Unit/OptionsTest.php:20-29 | `all()` on a new bag built from the test data gives back exactly that data, in order |
| `Scenarios.MergeObjectScenario` | tests/Unit/OptionsTest.php:84-97 | `merge` on a bag object, read through `all()`, gives the expected array |
| `Scenarios.MergeKeyObjectScenario` | tests/Unit/OptionsTest.php:102-114 | chained `mergeKey` calls on a bag object, read through `all()`, give the expected array |
| `Scenarios.OverrideScenario` | tests/Unit/OptionsTest.php:119-127 | `override` on a bag object leaves exactly the given array |

## Left out

- PHP key coercion is not modelled. PHP turns integer-like string keys such as `"1"` into integer keys, and `array_merge` renumbers integer keys. Keys here are strings that PHP keeps as strings. For such keys `array_merge` is "overwrite or append".
- Offsets are typed `string`. Int, float and bool offsets are converted to strings by PHP (not modelled; see key coercion above). A null, array or non-stringable object offset makes `has`/`get`/`mergeKey` throw a `TypeError`. That includes `$bag[] = $v` through `Arrayable::offsetSet`, which calls `mergeKey(null, $v)`, and `$collection[null]` through `has`/`get`. This error path is not modelled.
- OptionsCollection.Collection.OffsetSet: covers non-null offsets only. The null-offset branch (`$collection[] = $v`) appends under the next integer key and stores the offset, which is null, instead of the value. Modelling it needs integer keys.
- The internal pointer is modelled only between mutations. In PHP the pointer follows a hash slot, and copying an array copies its pointer. In the model the mutators leave the pointer's position number unchanged, and the constructors start it at the first entry. So an `unset` before the pointer, or a `merge`/`override` that replaces the array, is not tracked as PHP tracks it. The `Iteratable` pointer is also held by the wrapper object, not by `host.options`. Two `Iteratable` objects over one host therefore have separate pointers, while PHP keeps one pointer per array.
- `OptionsTraits.Iteratable.constructor` and `OptionsTraits.Arrayable.constructor` exist only to bind the host object. Traits have no constructors.
- `Collection` is abstract in PHP. Here it is a plain class with the same members.
- Floats, nested arrays and objects are opaque `Other(tag)` values. Nothing in the modelled code inspects them.
- The `ArrayAccess`/`Iterator` interface declarations and the `#[\ReturnTypeWillChange]` attributes are language glue.
- The PHPUnit harness is not modelled. Its concrete cases are restated in `Scenarios`.
