/**
 * The abstract `Collection` base class: a PHP array with its internal
 * pointer, read as an iterator (`current`, `next`, `key`, `valid`, `rewind`),
 * through subscripts (`offsetExists`, `offsetGet`, `offsetSet`,
 * `offsetUnset`) and through undeclared properties (`__get`, `__set`).
 */
module OptionsCollection {
  import opened PhpArrays
  import opened InternalPointer

  class Collection {
    /** The wrapped PHP array. */
    var options: PhpArray
    /** The array's internal pointer; `|options|` or more is past the end. */
    var cursor: nat

    ghost predicate Wellformed()
      reads this
    {
      Distinct(options)
    }

    /** `new Collection($options = [])`: a fresh array's pointer is on its
        first entry. */
    constructor (options: PhpArray := [])
      requires Distinct(options)
      ensures Wellformed()
      ensures this.options == options && cursor == 0
    {
      this.options := options;
      cursor := 0;
    }

    /** `current()`: the value under the pointer, `false` past the end. */
    function Current(): (r: Value)
      reads this
      ensures cursor < |options| ==> r == options[cursor].1
      ensures |options| <= cursor ==> r == Bool(false)
    {
      CurrentAt(options, cursor)
    }

    /** `next()`: one entry further; the entries do not change. */
    method Next()
      modifies this`cursor
      ensures options == old(options)
      ensures old(cursor) < |options| ==> cursor == old(cursor) + 1
      ensures |options| <= old(cursor) ==> cursor == old(cursor)
    {
      cursor := Advance(options, cursor);
    }

    /** `key()`: the key under the pointer, null (`None`) past the end. */
    function Key(): (r: Option<string>)
      reads this
      ensures cursor < |options| ==> r == Some(options[cursor].0)
      ensures |options| <= cursor ==> r == None
    {
      KeyAt(options, cursor)
    }

    /** `valid()`: `current() !== false`, so a stored `false` reads as the end. */
    predicate Valid()
      reads this
      ensures Valid() <==> Current() != Bool(false)
      ensures Valid() <==> cursor < |options| && options[cursor].1 != Bool(false)
    {
      ValidAt(options, cursor)
    }

    /** `rewind()`: back to the first entry, or past the end when empty. */
    method Rewind()
      modifies this`cursor
      ensures options == old(options) && cursor == 0
      ensures |options| > 0 ==> Key() == Some(options[0].0) && Current() == options[0].1
      ensures |options| == 0 ==> Key() == None && Current() == Bool(false) && !Valid()
    {
      cursor := 0;
    }

    /** A `foreach ($collection as $key => $value)`: rewind, then while
        `valid()` take `key()` and `current()` and call `next()`. It yields the
        entries in insertion order up to the first stored `false`. */
    method ForEach() returns (visited: PhpArray)
      modifies this`cursor
      ensures options == old(options)
      ensures visited == TakeUntilFalse(options)
    {
      Rewind();
      visited := [];
      while Valid()
        invariant visited + Visit(options, cursor) == Visit(options, 0)
        decreases |options| - cursor
      {
        visited := visited + [(Key().value, Current())];
        Next();
      }
      ForeachVisits(options);
    }

    /** `offsetExists($offset)`: `has($offset)`. */
    function OffsetExists(offset: string): (r: bool)
      reads this
      ensures r == Has(offset)
      ensures r <==> exists i :: 0 <= i < |options| && options[i].0 == offset
    {
      Has(offset)
    }

    /** `offsetGet($offset)`: `get($offset)`, null for an absent key. */
    function OffsetGet(offset: string): (r: Value)
      reads this
      ensures r == Get(offset)
      ensures !Has(offset) ==> r == Null
    {
      Get(offset)
    }

    /** `offsetSet($offset, $value)` for a non-null offset:
        `$options[$offset] = $value`. */
    method OffsetSet(offset: string, value: Value)
      requires Wellformed()
      modifies this`options
      ensures Wellformed() && cursor == old(cursor)
      ensures options == Assign(old(options), offset, value)
      ensures Get(offset) == value
      ensures forall other :: other != offset ==> Get(other) == old(Get(other)) && Has(other) == old(Has(other))
      ensures ArrayKeys(options) == if old(Has(offset)) then old(ArrayKeys(options)) else old(ArrayKeys(options)) + [offset]
    {
      ghost var before := options;
      options := Assign(options, offset, value);
      AssignLookup(before, offset, value, offset);
      forall other | other != offset
        ensures Get(other) == Lookup(before, other) && Has(other) == KeyExists(before, other)
      {
        AssignLookup(before, offset, value, other);
      }
    }

    /** `offsetUnset($offset)`: `unset($options[$offset])`. */
    method OffsetUnset(offset: string)
      requires Wellformed()
      modifies this`options
      ensures Wellformed() && cursor == old(cursor)
      ensures options == Without(old(options), offset)
      ensures !Has(offset)
      ensures forall other :: other != offset ==> Get(other) == old(Get(other)) && Has(other) == old(Has(other))
      ensures !old(Has(offset)) ==> options == old(options)
    {
      ghost var before := options;
      options := Unset(options, offset);
      UnsetKeepsOrder(before, offset);
      UnsetLookup(before, offset, offset);
      forall other | other != offset
        ensures Get(other) == Lookup(before, other) && Has(other) == KeyExists(before, other)
      {
        UnsetLookup(before, offset, other);
      }
    }

    /** `__get($key)`: reading an undeclared property is `get($key)`. */
    function MagicGet(key: string): (r: Value)
      reads this
      ensures r == Get(key)
      ensures !Has(key) ==> r == Null
    {
      Get(key)
    }

    /** `__set($key, $value)`: writing an undeclared property is
        `$options[$key] = $value`, the same write `offsetSet` makes. */
    method MagicSet(key: string, value: Value)
      requires Wellformed()
      modifies this`options
      ensures Wellformed() && cursor == old(cursor)
      ensures options == Assign(old(options), key, value)
      ensures Get(key) == value
      ensures forall other :: other != key ==> Get(other) == old(Get(other)) && Has(other) == old(Has(other))
      ensures ArrayKeys(options) == if old(Has(key)) then old(ArrayKeys(options)) else old(ArrayKeys(options)) + [key]
    {
      ghost var before := options;
      options := Assign(options, key, value);
      AssignLookup(before, key, value, key);
      forall other | other != key
        ensures Get(other) == Lookup(before, other) && Has(other) == KeyExists(before, other)
      {
        AssignLookup(before, key, value, other);
      }
    }

    /** `get($key)`: the stored value, or null when the key is absent. */
    function Get(key: string): (r: Value)
      reads this
      ensures Has(key) ==> exists i :: 0 <= i < |options| && options[i] == (key, r)
      ensures !Has(key) ==> r == Null
    {
      if !Has(key) then Null else Lookup(options, key)
    }

    /** `has($key)`: whether the key is stored, whatever its value (null too). */
    function Has(key: string): (r: bool)
      reads this
      ensures r <==> exists i :: 0 <= i < |options| && options[i].0 == key
    {
      KeyExists(options, key)
    }
  }
}
