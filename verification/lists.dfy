/**
 * The id filter both the cart (`prev.filter(item => item.id !== id)`) and the product page
 * (`prev.filter(product => product.id !== id)`) apply to their lists.
 */
module Lists {

  /** Keeps, in order, the elements whose key differs from `id`. */
  function FilterOutId<T(!new)>(s: seq<T>, key: T -> int, id: int): (r: seq<T>)
    ensures forall x :: x in r <==> x in s && key(x) != id
    ensures |r| <= |s|
  {
    if s == [] then []
    else if key(s[0]) != id then [s[0]] + FilterOutId(s[1..], key, id)
    else FilterOutId(s[1..], key, id)
  }

  /** The filter works element by element: filtering a concatenation filters each part in
      place, so the surviving elements keep their relative order. */
  lemma {:induction false} FilterDistributes<T(!new)>(a: seq<T>, b: seq<T>, key: T -> int, id: int)
    ensures FilterOutId(a + b, key, id) == FilterOutId(a, key, id) + FilterOutId(b, key, id)
  {
    if a != [] {
      assert (a + b)[1..] == a[1..] + b;
      FilterDistributes(a[1..], b, key, id);
    } else {
      assert a + b == b;
    }
  }

  /** The filter leaves the list unchanged exactly when no element has the id. */
  lemma {:induction false} FilterNoOpIffAbsent<T(!new)>(s: seq<T>, key: T -> int, id: int)
    ensures FilterOutId(s, key, id) == s <==> forall x :: x in s ==> key(x) != id
  {
    if s != [] {
      FilterNoOpIffAbsent(s[1..], key, id);
      if key(s[0]) == id {
        assert |FilterOutId(s, key, id)| <= |s[1..]| < |s|;
      } else {
        assert s == [s[0]] + s[1..];
        assert forall x :: x in s <==> x == s[0] || x in s[1..];
      }
    }
  }
}
