/**
 * The two reusable traits, each modelled as a class over its host: the
 * trait's `$this` is an `Options` object, reached through `host`.
 *
 * `Iteratable` steps the host array's internal pointer; `Arrayable` answers
 * subscripts with the host's `has`, `get` and `mergeKey` and removes entries
 * with `unset`.
 */
module OptionsTraits {
  import opened PhpArrays
  import opened InternalPointer
  import OptionsBag

  class Iteratable {
    /** The object the trait is used in. */
    const host: OptionsBag.Options
    /** The internal pointer of `host.options`; `|host.options|` or more is
        past the end. */
    var cursor: nat

    constructor (host: OptionsBag.Options)
      ensures this.host == host && cursor == 0
    {
      this.host := host;
      cursor := 0;
    }

    /** `current()`: the value under the pointer, `false` past the end. */
    function Current(): (r: Value)
      reads this, host
      ensures cursor < |host.options| ==> r == host.options[cursor].1
      ensures |host.options| <= cursor ==> r == Bool(false)
    {
      CurrentAt(host.options, cursor)
    }

    /** `next()`: one entry further; only the pointer moves. */
    method Next()
      modifies this`cursor
      ensures old(cursor) < |host.options| ==> cursor == old(cursor) + 1
      ensures |host.options| <= old(cursor) ==> cursor == old(cursor)
    {
      cursor := Advance(host.options, cursor);
    }

    /** `key()`: the key under the pointer, null (`None`) past the end. */
    function Key(): (r: Option<string>)
      reads this, host
      ensures cursor < |host.options| ==> r == Some(host.options[cursor].0)
      ensures |host.options| <= cursor ==> r == None
    {
      KeyAt(host.options, cursor)
    }

    /** `valid()`: `current() !== false`, so a stored `false` reads as the end. */
    predicate Valid()
      reads this, host
      ensures Valid() <==> Current() != Bool(false)
      ensures Valid() <==> cursor < |host.options| && host.options[cursor].1 != Bool(false)
    {
      ValidAt(host.options, cursor)
    }

    /** `rewind()`: back to the first entry, or past the end when empty. */
    method Rewind()
      modifies this`cursor
      ensures cursor == 0
      ensures |host.options| > 0 ==> Key() == Some(host.options[0].0) && Current() == host.options[0].1
      ensures |host.options| == 0 ==> Key() == None && !Valid()
    {
      cursor := 0;
    }
  }

  /** A `foreach` over an object using the trait: rewind, then while
      `valid()` take `key()` and `current()` and call `next()`. It yields the
      host's entries in insertion order up to the first stored `false`. */
  method ForEach(it: Iteratable) returns (visited: PhpArray)
    modifies it`cursor
    ensures visited == TakeUntilFalse(it.host.options)
  {
    it.Rewind();
    visited := [];
    while it.Valid()
      invariant visited + Visit(it.host.options, it.cursor) == Visit(it.host.options, 0)
      decreases |it.host.options| - it.cursor
    {
      visited := visited + [(it.Key().value, it.Current())];
      it.Next();
    }
    ForeachVisits(it.host.options);
  }

  class Arrayable {
    /** The object the trait is used in. */
    const host: OptionsBag.Options

    constructor (host: OptionsBag.Options)
      ensures this.host == host
    {
      this.host := host;
    }

    /** `offsetExists($offset)`: the host's `has($offset)`. */
    function OffsetExists(offset: string): (r: bool)
      reads host
      ensures r == host.Has(offset)
      ensures r <==> exists i :: 0 <= i < |host.options| && host.options[i].0 == offset
    {
      host.Has(offset)
    }

    /** `offsetGet($offset)`: the host's `get($offset)`, null for an absent key. */
    function OffsetGet(offset: string): (r: Value)
      reads host
      ensures r == host.Get(offset)
      ensures !host.Has(offset) ==> r == Null
    {
      host.Get(offset)
    }

    /** `offsetSet($offset, $value)`: the host's `mergeKey($offset, $value)`. */
    method OffsetSet(offset: string, value: Value)
      requires host.Wellformed()
      modifies host
      ensures host.Wellformed()
      ensures host.options == Assign(old(host.options), offset, value)
      ensures host.Get(offset) == value
      ensures forall other :: other != offset ==> host.Get(other) == old(host.Get(other)) && host.Has(other) == old(host.Has(other))
      ensures host.Keys() == if old(host.Has(offset)) then old(host.Keys()) else old(host.Keys()) + [offset]
    {
      var self := host.MergeKey(offset, value);
    }

    /** `offsetUnset($offset)`: `unset($this->options[$offset])` on the host. */
    method OffsetUnset(offset: string)
      requires host.Wellformed()
      modifies host
      ensures host.Wellformed()
      ensures host.options == Without(old(host.options), offset)
      ensures !OffsetExists(offset)
      ensures forall other :: other != offset ==> host.Get(other) == old(host.Get(other)) && host.Has(other) == old(host.Has(other))
      ensures !old(host.Has(offset)) ==> host.options == old(host.options)
    {
      ghost var before := host.options;
      host.options := Unset(host.options, offset);
      UnsetKeepsOrder(before, offset);
      UnsetLookup(before, offset, offset);
      forall other | other != offset
        ensures host.Get(other) == Lookup(before, other) && host.Has(other) == KeyExists(before, other)
      {
        UnsetLookup(before, offset, other);
      }
    }
  }
}
