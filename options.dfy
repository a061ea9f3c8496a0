/**
 * The `Options` class: one PHP array held in a private field, with read-only
 * queries and chainable mutators that return the same instance.
 */
module OptionsBag {
  import opened PhpArrays

  class Options {
    /** The wrapped PHP array. */
    var options: PhpArray

    /** Keys are unique, as in every PHP array. */
    ghost predicate Wellformed()
      reads this
    {
      Distinct(options)
    }

    /** `new Options($options = [])`: holds the given array as is. */
    constructor (options: PhpArray := [])
      requires Distinct(options)
      ensures Wellformed()
      ensures All() == options
    {
      this.options := options;
    }

    /** `all()`: the array itself, entries and order as stored. */
    function All(): (r: PhpArray)
      reads this
      ensures |r| == |options| && forall i :: 0 <= i < |r| ==> r[i] == options[i]
    {
      options
    }

    /** `keys()`: the keys in insertion order, one per entry. */
    function Keys(): (r: seq<string>)
      reads this
      ensures |r| == |options|
      ensures forall i :: 0 <= i < |r| ==> r[i] == options[i].0
    {
      ArrayKeys(options)
    }

    /** `values()`: the values in insertion order, one per entry. */
    function Values(): (r: seq<Value>)
      reads this
      ensures |r| == |options|
      ensures forall i :: 0 <= i < |r| ==> r[i] == options[i].1
    {
      ArrayValues(options)
    }

    /** `get($key)`: the stored value, or null when the key is absent. */
    function Get(key: string): (r: Value)
      reads this
      ensures Has(key) ==> exists i :: 0 <= i < |options| && options[i] == (key, r)
      ensures !Has(key) ==> r == Null
    {
      if !Has(key) then Null else Lookup(options, key)
    }

    /** `has($key)`: whether the key is stored, whatever its value (null too). */
    function Has(key: string): (r: bool)
      reads this
      ensures r <==> exists i :: 0 <= i < |options| && options[i].0 == key
    {
      KeyExists(options, key)
    }

    /** `merge($options)`: `array_merge` of the held array with the given one. */
    method Merge(incoming: PhpArray) returns (self: Options)
      requires Wellformed() && Distinct(incoming)
      modifies this
      ensures self == this && Wellformed()
      ensures options == ArrayMerge(old(options), incoming)
      ensures forall key :: Get(key) == if KeyExists(incoming, key) then Lookup(incoming, key) else old(Get(key))
      ensures forall key :: Has(key) <==> KeyExists(incoming, key) || old(Has(key))
      ensures Keys() == old(Keys()) + FreshKeys(old(Keys()), incoming)
    {
      ghost var before := options;
      options := ArrayMerge(options, incoming);
      forall key
        ensures Get(key) == if KeyExists(incoming, key) then Lookup(incoming, key) else Lookup(before, key)
        ensures Has(key) <==> KeyExists(incoming, key) || KeyExists(before, key)
      {
        MergeLookup(before, incoming, key);
      }
      MergeKeys(before, incoming);
      self := this;
    }

    /** `mergeKey($key, $value)`: `$options[$key] = $value`. */
    method MergeKey(key: string, value: Value) returns (self: Options)
      requires Wellformed()
      modifies this
      ensures self == this && Wellformed()
      ensures options == Assign(old(options), key, value)
      ensures Get(key) == value
      ensures forall other :: other != key ==> Get(other) == old(Get(other)) && Has(other) == old(Has(other))
      ensures Keys() == if old(Has(key)) then old(Keys()) else old(Keys()) + [key]
    {
      ghost var before := options;
      options := Assign(options, key, value);
      AssignLookup(before, key, value, key);
      forall other | other != key
        ensures Get(other) == Lookup(before, other) && Has(other) == KeyExists(before, other)
      {
        AssignLookup(before, key, value, other);
      }
      self := this;
    }

    /** `override($options)`: the held array becomes the given one, nothing of
        the old one survives. */
    method Override(incoming: PhpArray) returns (self: Options)
      requires Distinct(incoming)
      modifies this
      ensures self == this && Wellformed()
      ensures All() == incoming
    {
      options := incoming;
      self := this;
    }
  }
}
