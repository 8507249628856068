/**
 * Collection helpers: `anyMatch`, `allMatch`, `removeLastElement` and
 * `collect`. A Java collection is a sequence in iteration order; a null
 * collection or predicate is `None`.
 */
module MoreCollectionUtils {
  import opened Wrappers

  /** A mutable Java list. */
  class MutableList<T> {
    var elements: seq<T>

    constructor (elements: seq<T>)
      ensures this.elements == elements
    {
      this.elements := elements;
    }
  }

  /** What `anyMatch` documents: false for a null or empty collection, true for a null predicate, else some element passes. */
  predicate SomeMatch<T>(collection: Option<seq<T>>, tester: Option<T -> bool>) {
    && collection.Some? && |collection.value| > 0
    && (tester.None? || exists i | 0 <= i < |collection.value| :: tester.value(collection.value[i]))
  }

  /** What `allMatch` documents: true for a null or empty collection or a null predicate, else every element passes. */
  predicate EveryMatch<T>(collection: Option<seq<T>>, tester: Option<T -> bool>) {
    || collection.None? || |collection.value| == 0
    || tester.None?
    || forall i | 0 <= i < |collection.value| :: tester.value(collection.value[i])
  }

  /** `anyMatch`: stops at the first element that passes. */
  method AnyMatch<T>(collection: Option<seq<T>>, tester: Option<T -> bool>) returns (r: bool)
    ensures r == SomeMatch(collection, tester)
  {
    if collection.None? || |collection.value| == 0 {
      return false;
    }
    if tester.None? {
      return true;
    }
    var elements, test := collection.value, tester.value;
    var i := 0;
    while i < |elements|
      invariant 0 <= i <= |elements|
      invariant forall j | 0 <= j < i :: !test(elements[j])
    {
      if test(elements[i]) {
        return true;
      }
      i := i + 1;
    }
    return false;
  }

  /** `allMatch`: stops at the first element that fails. */
  method AllMatch<T>(collection: Option<seq<T>>, tester: Option<T -> bool>) returns (r: bool)
    ensures r == EveryMatch(collection, tester)
  {
    if collection.None? || |collection.value| == 0 {
      return true;
    }
    if tester.None? {
      return true;
    }
    var elements, test := collection.value, tester.value;
    var i := 0;
    while i < |elements|
      invariant 0 <= i <= |elements|
      invariant forall j | 0 <= j < i :: test(elements[j])
    {
      if !test(elements[i]) {
        return false;
      }
      i := i + 1;
    }
    return true;
  }

  /**
   * On a non-empty collection with a predicate, some element passes exactly
   * when not every element passes the negated predicate.
   */
  lemma SomeMatchIsNotEveryMismatch<T>(elements: seq<T>, test: T -> bool)
    requires |elements| > 0
    ensures SomeMatch(Some(elements), Some(test)) == !EveryMatch(Some(elements), Some(x => !test(x)))
  {
    if SomeMatch(Some(elements), Some(test)) {
      var i :| 0 <= i < |elements| && test(elements[i]);
      assert !(x => !test(x))(elements[i]);
    }
  }

  /** The edge cases both helpers document, side by side. */
  lemma NullAndEmptyCases<T>(elements: seq<T>, test: T -> bool)
    ensures !SomeMatch<T>(None, Some(test)) && !SomeMatch<T>(Some([]), Some(test))
    ensures EveryMatch<T>(None, Some(test)) && EveryMatch<T>(Some([]), Some(test))
    ensures |elements| > 0 ==> SomeMatch(Some(elements), None) && EveryMatch(Some(elements), None)
  {
  }

  /**
   * `removeLastElement`: null for a null or empty list, which is left as it
   * is; otherwise removes and returns the last element.
   */
  method RemoveLastElement<T>(list: MutableList?<T>) returns (r: Option<T>)
    modifies list
    ensures list == null ==> r.None?
    ensures list != null && old(list.elements) == [] ==> r.None? && list.elements == []
    ensures list != null && old(list.elements) != [] ==>
              r == Some(old(list.elements)[|old(list.elements)| - 1]) &&
              list.elements + [r.value] == old(list.elements)
  {
    if list == null || |list.elements| == 0 {
      return None;
    }
    var last := list.elements[|list.elements| - 1];
    list.elements := list.elements[..|list.elements| - 1];
    r := Some(last);
  }

  /**
   * `collect` for a list: `produced` is what the supplier yields (null when
   * there is no supplier or it yields null); the elements are appended in order.
   */
  method Collect<T>(produced: MutableList?<T>, elements: seq<T>) returns (r: MutableList?<T>)
    modifies produced
    ensures r == produced
    ensures produced != null ==> produced.elements == old(produced.elements) + elements
  {
    if produced == null {
      return null;
    }
    var i := 0;
    while i < |elements|
      invariant 0 <= i <= |elements|
      invariant produced.elements == old(produced.elements) + elements[..i]
    {
      produced.elements := produced.elements + [elements[i]];
      i := i + 1;
    }
    assert elements[..i] == elements;
    r := produced;
  }
}
