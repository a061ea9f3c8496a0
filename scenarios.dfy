/**
 * The concrete scenarios of the options test suite, stated on the model.
 */
module Scenarios {
  import opened PhpArrays
  import OptionsBag

  function Data(): (r: PhpArray)
    ensures Distinct(r)
  {
    [("key1", Str("value1")), ("key2", Str("value2")), ("key3", Str("value3")), ("key4", Str("value4"))]
  }

  /** Merging `key2` and `key3` overwrites them in place. */
  lemma MergeScenario()
    ensures ArrayMerge(Data(), [("key2", Str("override2")), ("key3", Str("value3"))])
         == [("key1", Str("value1")), ("key2", Str("override2")), ("key3", Str("value3")), ("key4", Str("value4"))]
  {
    var b := [("key2", Str("override2")), ("key3", Str("value3"))];
    IndexOfIs(Data(), "key2", 1);
    var a1 := Data()[1 := ("key2", Str("override2"))];
    assert ArrayMerge(Data(), b) == ArrayMerge(a1, b[1..]);
    IndexOfIs(a1, "key3", 2);
    assert ArrayMerge(a1, b[1..]) == ArrayMerge(a1[2 := ("key3", Str("value3"))], []);
  }

  /** A new key goes last; an existing key is overwritten where it stands. */
  lemma MergeKeyScenario()
    ensures Assign(Assign(Data(), "newKey", Str("newValue")), "key1", Str("overrideValue1"))
         == [("key1", Str("overrideValue1")), ("key2", Str("value2")), ("key3", Str("value3")),
             ("key4", Str("value4")), ("newKey", Str("newValue"))]
  {
    IndexOfIs(Data(), "newKey", -1);
    var a1 := Data() + [("newKey", Str("newValue"))];
    IndexOfIs(a1, "key1", 0);
  }

  /** Keys and values come out in insertion order. */
  lemma KeysValuesScenario()
    ensures ArrayKeys(Data()) == ["key1", "key2", "key3", "key4"]
    ensures ArrayValues(Data()) == [Str("value1"), Str("value2"), Str("value3"), Str("value4")]
  {
  }

  /** `get` finds a stored key and answers null for a missing one; `has`
      tells them apart. */
  lemma GetHasScenario()
    ensures Lookup(Data(), "key1") == Str("value1")
    ensures Lookup(Data(), "noKey") == Null
    ensures KeyExists(Data(), "key1") && !KeyExists(Data(), "notFound")
  {
  }

  /** `all()` on a new bag gives back the array it was built from. */
  method AllScenario() returns (all: PhpArray)
    ensures all == [("key1", Str("value1")), ("key2", Str("value2")), ("key3", Str("value3")), ("key4", Str("value4"))]
  {
    var bag := new OptionsBag.Options(Data());
    all := bag.All();
  }

  /** `merge` on a bag, read back through `all()`. */
  method MergeObjectScenario() returns (all: PhpArray)
    ensures all == [("key1", Str("value1")), ("key2", Str("override2")), ("key3", Str("value3")), ("key4", Str("value4"))]
  {
    var bag := new OptionsBag.Options(Data());
    var self := bag.Merge([("key2", Str("override2")), ("key3", Str("value3"))]);
    MergeScenario();
    all := self.All();
  }

  /** Chained `mergeKey` calls on a bag, read back through `all()`. */
  method MergeKeyObjectScenario() returns (all: PhpArray)
    ensures all == [("key1", Str("overrideValue1")), ("key2", Str("value2")), ("key3", Str("value3")),
                    ("key4", Str("value4")), ("newKey", Str("newValue"))]
  {
    var bag := new OptionsBag.Options(Data());
    var self := bag.MergeKey("newKey", Str("newValue"));
    self := self.MergeKey("key1", Str("overrideValue1"));
    MergeKeyScenario();
    all := self.All();
  }

  /** `override` on a bag discards the old entries. */
  method OverrideScenario() returns (all: PhpArray)
    ensures all == [("key", Str("value"))]
  {
    var bag := new OptionsBag.Options(Data());
    var self := bag.Override([("key", Str("value"))]);
    all := self.All();
  }
}
