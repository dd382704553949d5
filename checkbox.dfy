/**
 * The brand filter's checkbox handler. The selection is toggled on a copy of
 * `filters.brands`; the copy is what goes to `handleFilter`. Brands are
 * compared with `===`, so the element type only needs equality.
 */
module Checkbox {
  import opened Wrappers
  import opened JsArray

  /** Removing the first occurrence of a value from a duplicate-free list removes the value altogether. */
  lemma {:induction false} RemoveAtDistinct<T>(s: seq<T>, i: nat)
    requires Distinct(s) && i < |s|
    ensures Distinct(s[..i] + s[i + 1..])
    ensures s[i] !in s[..i] + s[i + 1..]
  {
    var r := s[..i] + s[i + 1..];
    assert forall k :: 0 <= k < |r| ==> r[k] == s[if k < i then k else k + 1];
    forall k | 0 <= k < |r| ensures r[k] != s[i] {
      assert r[k] == s[if k < i then k else k + 1];
    }
  }

  /** Taking one element out and putting it back at the end keeps the same elements. */
  lemma MovedToEnd<T>(s: seq<T>, i: nat)
    requires i < |s|
    ensures multiset(s[..i] + s[i + 1..] + [s[i]]) == multiset(s)
  {
    assert s == s[..i] + [s[i]] + s[i + 1..];
  }

  /**
   * `handleToggle`: an undefined value clears the selection; otherwise the
   * value is pushed when `indexOf` misses it and spliced out at the index it
   * finds. On a duplicate-free selection the result stays duplicate-free and
   * the value's membership flips.
   */
  method HandleToggle<T(==)>(brands: seq<T>, value: Option<T>) returns (newBrands: seq<T>)
    ensures value.None? ==> newBrands == []
    ensures value.Some? && value.value !in brands ==> newBrands == brands + [value.value]
    ensures value.Some? && value.value in brands ==>
      var i := IndexOf(brands, value.value);
      newBrands == brands[..i] + brands[i + 1..]
    ensures value.Some? && Distinct(brands) ==>
      Distinct(newBrands) && (value.value in newBrands <==> value.value !in brands)
  {
    newBrands := brands;
    if value.None? {
      newBrands := [];
    } else {
      var index := IndexOf(newBrands, value.value);
      if index == -1 {
        newBrands := newBrands + [value.value];
      } else {
        if Distinct(brands) {
          RemoveAtDistinct(brands, index);
        }
        newBrands := newBrands[..index] + newBrands[index + 1..];
      }
    }
  }

  /** Toggling an absent brand twice gives back the selection exactly. */
  method ToggleTwiceRestores<T(==)>(brands: seq<T>, value: T) returns (newBrands: seq<T>)
    requires value !in brands
    ensures newBrands == brands
  {
    var once := HandleToggle(brands, Some(value));
    newBrands := HandleToggle(once, Some(value));
    assert IndexOf(once, value) == |brands| by {
      assert once[..|brands|] == brands;
    }
    assert once[..|brands|] == brands;
  }

  /**
   * Toggling a selected brand twice takes it out at its first index and puts
   * it back at the end. When it was selected once, the result is the other
   * brands in their order followed by it; on a duplicate-free selection that
   * is the same brands, still duplicate-free, with this one last.
   */
  method ToggleTwicePresent<T(==)>(brands: seq<T>, value: T) returns (newBrands: seq<T>)
    requires value in brands
    ensures var i := IndexOf(brands, value);
      value !in brands[i + 1..] ==> newBrands == brands[..i] + brands[i + 1..] + [value]
    ensures Distinct(brands) ==>
      multiset(newBrands) == multiset(brands) && Distinct(newBrands) && newBrands[|newBrands| - 1] == value
  {
    var i := IndexOf(brands, value);
    var once := HandleToggle(brands, Some(value));
    assert once == brands[..i] + brands[i + 1..];
    if Distinct(brands) {
      RemoveAtDistinct(brands, i);
    }
    if value !in brands[i + 1..] {
      assert value !in once;
    }
    newBrands := HandleToggle(once, Some(value));
    if Distinct(brands) {
      MovedToEnd(brands, i);
    }
  }

  /** A selection holding a brand twice is not restored: `[b, b]` toggled twice with `b` becomes empty. */
  method ToggleTwiceDuplicate<T(==)>(b: T) returns (newBrands: seq<T>)
    ensures newBrands == []
  {
    var once := HandleToggle([b, b], Some(b));
    assert once == [b];
    newBrands := HandleToggle(once, Some(b));
  }
}
