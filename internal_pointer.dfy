/**
 * The internal pointer of a PHP array, which the iterator methods of the
 * options classes step through with `current`, `key`, `next` and `reset`.
 *
 * The pointer is a position in the entry sequence. A position at or past the
 * end is the "past the end" state: `current` answers `false` there, `key`
 * answers null (`None`), and `next` leaves it where it is.
 */
module InternalPointer {
  import opened PhpArrays

  /** `current($a)`: the value under the pointer, or `false` past the end. */
  function CurrentAt(a: PhpArray, pos: nat): (r: Value)
    ensures pos < |a| ==> r == a[pos].1
    ensures |a| <= pos ==> r == Bool(false)
  {
    if pos < |a| then a[pos].1 else Bool(false)
  }

  /** `key($a)`: the key under the pointer, or null past the end. */
  function KeyAt(a: PhpArray, pos: nat): (r: Option<string>)
    ensures pos < |a| ==> r == Some(a[pos].0)
    ensures |a| <= pos ==> r == None
  {
    if pos < |a| then Some(a[pos].0) else None
  }

  /** `next($a)`: one entry further, in insertion order; past the end it stays. */
  function Advance(a: PhpArray, pos: nat): (r: nat)
    ensures pos < |a| ==> r == pos + 1
    ensures |a| <= pos ==> r == pos
  {
    if pos < |a| then pos + 1 else pos
  }

  /** `current($a) !== false`, the test both iterator classes use for
      `valid()`: it fails past the end and also on a stored boolean `false`. */
  predicate ValidAt(a: PhpArray, pos: nat)
    ensures ValidAt(a, pos) <==> pos < |a| && a[pos].1 != Bool(false)
  {
    CurrentAt(a, pos) != Bool(false)
  }

  /** The `(key, value)` pairs a `foreach` over the iterator visits from
      position `pos` on: while `valid()`, take `key()` and `current()`, then
      `next()`. */
  function Visit(a: PhpArray, pos: nat): PhpArray
    decreases |a| - pos
  {
    if !ValidAt(a, pos) then []
    else [(KeyAt(a, pos).value, CurrentAt(a, pos))] + Visit(a, Advance(a, pos))
  }

  /** Reference: the entries of `a` before its first stored `false`. */
  function TakeUntilFalse(a: PhpArray): PhpArray
  {
    if a == [] || a[0].1 == Bool(false) then [] else [a[0]] + TakeUntilFalse(a[1..])
  }

  /** From any position, iteration yields the remaining entries up to the
      first stored `false`. */
  lemma {:induction false} VisitFrom(a: PhpArray, pos: nat)
    requires pos <= |a|
    ensures Visit(a, pos) == TakeUntilFalse(a[pos..])
    decreases |a| - pos
  {
    if pos < |a| && a[pos].1 != Bool(false) {
      VisitFrom(a, pos + 1);
      assert a[pos..][1..] == a[pos + 1..];
    }
  }

  /** After `rewind()`, iteration visits the entries in insertion order and
      stops at the first stored `false`. */
  lemma ForeachVisits(a: PhpArray)
    ensures Visit(a, 0) == TakeUntilFalse(a)
  {
    VisitFrom(a, 0);
    assert a[0..] == a;
  }

  lemma {:induction false} TakeUntilFalseAll(a: PhpArray)
    requires forall i :: 0 <= i < |a| ==> a[i].1 != Bool(false)
    ensures TakeUntilFalse(a) == a
  {
    if a != [] {
      TakeUntilFalseAll(a[1..]);
    }
  }

  lemma {:induction false} TakeUntilFalseStops(a: PhpArray, i: nat)
    requires i < |a| && a[i].1 == Bool(false)
    requires forall j :: 0 <= j < i ==> a[j].1 != Bool(false)
    ensures TakeUntilFalse(a) == a[..i]
  {
    if i > 0 {
      TakeUntilFalseStops(a[1..], i - 1);
      assert a[..i] == [a[0]] + a[1..][..i - 1];
    }
  }

  /** On an array with no stored `false`, rewind-then-next visits every entry
      exactly once, in insertion order. */
  lemma ForeachVisitsAll(a: PhpArray)
    requires forall i :: 0 <= i < |a| ==> a[i].1 != Bool(false)
    ensures Visit(a, 0) == a
  {
    ForeachVisits(a);
    TakeUntilFalseAll(a);
  }

  /** A stored `false` at position `i`, the first one, ends iteration there:
      only the entries before it are visited. */
  lemma ForeachStopsAtFalse(a: PhpArray, i: nat)
    requires i < |a| && a[i].1 == Bool(false)
    requires forall j :: 0 <= j < i ==> a[j].1 != Bool(false)
    ensures Visit(a, 0) == a[..i]
  {
    ForeachVisits(a);
    TakeUntilFalseStops(a, i);
  }
}
