/**
 * A view container's ordered list of children, with the framework's
 * insertion and removal rules, and the sequence facts the icon lists need.
 */
module ViewGroups {

  predicate Distinct<T(==)>(s: seq<T>) {
    forall i, j :: 0 <= i < j < |s| ==> s[i] != s[j]
  }

  /** `s` with `x` inserted so that it lands at index `i`. */
  function InsertAt<T>(s: seq<T>, i: nat, x: T): (r: seq<T>)
    requires i <= |s|
    ensures |r| == |s| + 1 && r[i] == x
    ensures r[..i] == s[..i] && r[i + 1..] == s[i..]
    ensures forall j :: 0 <= j < |r| ==> r[j] == if j < i then s[j] else if j == i then x else s[j - 1]
  {
    s[..i] + [x] + s[i..]
  }

  /** Inserting adds exactly the inserted element. */
  lemma InsertAtMembers<T>(s: seq<T>, i: nat, x: T)
    requires i <= |s|
    ensures forall y :: y in InsertAt(s, i, x) <==> y == x || y in s
  {
    assert s == s[..i] + s[i..];
  }

  /** `s` without the element at index `i`. */
  function RemoveAt<T>(s: seq<T>, i: nat): (r: seq<T>)
    requires i < |s|
    ensures |r| == |s| - 1
    ensures r[..i] == s[..i] && r[i..] == s[i + 1..]
    ensures forall j :: 0 <= j < |r| ==> r[j] == if j < i then s[j] else s[j + 1]
  {
    s[..i] + s[i + 1..]
  }

  /** The index of the first occurrence of `x` in `s`. */
  function IndexOf<T(==)>(s: seq<T>, x: T): (k: nat)
    requires x in s
    ensures k < |s| && s[k] == x
    ensures forall j :: 0 <= j < k ==> s[j] != x
  {
    if s[0] == x then 0 else 1 + IndexOf(s[1..], x)
  }

  /** The framework's `removeView`: the child goes, a non-child is ignored. */
  function RemoveFirst<T(==)>(s: seq<T>, x: T): seq<T> {
    if x in s then RemoveAt(s, IndexOf(s, x)) else s
  }

  /** Removing a child shortens the list by one and drops exactly that one occurrence. */
  lemma RemoveFirstMembers<T>(s: seq<T>, x: T)
    ensures x in s ==> |RemoveFirst(s, x)| == |s| - 1
    ensures x !in s ==> RemoveFirst(s, x) == s
    ensures forall y :: y in s && y != x ==> y in RemoveFirst(s, x)
    ensures forall y :: y in RemoveFirst(s, x) ==> y in s
    ensures Distinct(s) ==> Distinct(RemoveFirst(s, x)) && x !in RemoveFirst(s, x)
  {
    if x in s {
      var k := IndexOf(s, x);
      RemoveAtKeeps(s, k);
      if Distinct(s) {
        RemoveAtDistinct(s, k);
      }
    }
  }

  /** Removing keeps a list free of repeats. */
  lemma RemoveFirstDistinct<T>(s: seq<T>, x: T)
    requires Distinct(s)
    ensures Distinct(RemoveFirst(s, x))
  {
    if x in s {
      RemoveAtDistinct(s, IndexOf(s, x));
    }
  }

  /** `removeView` applied to each element of `xs` in turn. */
  function RemoveEach<T(==)>(s: seq<T>, xs: seq<T>): seq<T>
    decreases |xs|
  {
    if |xs| == 0 then s else RemoveFirst(RemoveEach(s, xs[..|xs| - 1]), xs[|xs| - 1])
  }

  /** Removing each of `xs` from a list without repeats leaves exactly the other elements. */
  lemma {:induction false} RemoveEachMembers<T>(s: seq<T>, xs: seq<T>)
    requires Distinct(s)
    ensures Distinct(RemoveEach(s, xs))
    ensures forall y :: y in RemoveEach(s, xs) <==> y in s && y !in xs
    decreases |xs|
  {
    if |xs| > 0 {
      var p, x := xs[..|xs| - 1], xs[|xs| - 1];
      assert xs == p + [x];
      RemoveEachMembers(s, p);
      RemoveFirstMembers(RemoveEach(s, p), x);
    }
  }

  lemma RemoveAtKeeps<T>(s: seq<T>, k: nat)
    requires k < |s|
    ensures forall y :: y in s && y != s[k] ==> y in RemoveAt(s, k)
    ensures forall y :: y in RemoveAt(s, k) ==> y in s
  {
    var r := RemoveAt(s, k);
    forall y | y in s && y != s[k]
      ensures y in r
    {
      var j :| 0 <= j < |s| && s[j] == y;
      if j < k { assert r[j] == y; } else { assert r[j - 1] == y; }
    }
  }

  lemma RemoveAtDistinct<T>(s: seq<T>, k: nat)
    requires k < |s| && Distinct(s)
    ensures Distinct(RemoveAt(s, k)) && s[k] !in RemoveAt(s, k)
  {
    var r := RemoveAt(s, k);
    forall i, j | 0 <= i < j < |r|
      ensures r[i] != r[j]
    {
      var i' := if i < k then i else i + 1;
      var j' := if j < k then j else j + 1;
      assert r[i] == s[i'] && r[j] == s[j'];
    }
    forall j | 0 <= j < |r|
      ensures r[j] != s[k]
    {
      var j' := if j < k then j else j + 1;
      assert r[j] == s[j'];
    }
  }

  /** A list without repeats whose every element is in `b` is no longer than `b`. */
  lemma {:induction false} SubsetLength<T>(a: seq<T>, b: seq<T>)
    requires Distinct(a)
    requires forall x :: x in a ==> x in b
    ensures |a| <= |b|
    decreases |a|
  {
    if |a| > 0 {
      var x := a[0];
      var b' := RemoveFirst(b, x);
      RemoveFirstMembers(b, x);
      forall y | y in a[1..]
        ensures y in b'
      {
        var j :| 0 <= j < |a[1..]| && a[1..][j] == y;
        assert a[j + 1] == y && a[0] != a[j + 1];
      }
      assert Distinct(a[1..]) by {
        forall i, j | 0 <= i < j < |a[1..]|
          ensures a[1..][i] != a[1..][j]
        {
          assert a[1..][i] == a[i + 1] && a[1..][j] == a[j + 1];
        }
      }
      SubsetLength(a[1..], b');
    }
  }

  /**
   * Moving the element `x`, found beyond index `i`, to index `i` keeps the
   * prefix before `i`, the members and the length, and keeps the list free
   * of repeats.
   */
  lemma MoveTo<T>(s: seq<T>, i: nat, x: T)
    requires Distinct(s) && x in s && i < |s|
    requires forall j :: 0 <= j <= i ==> s[j] != x
    ensures var r := RemoveFirst(s, x);
      && |r| == |s| - 1 && i <= |r|
      && |InsertAt(r, i, x)| == |s|
      && InsertAt(r, i, x)[..i] == s[..i]
      && InsertAt(r, i, x)[i] == x
      && Distinct(InsertAt(r, i, x))
      && (forall y :: y in InsertAt(r, i, x) <==> y in s)
  {
    var k := IndexOf(s, x);
    RemoveFirstMembers(s, x);
    var r := RemoveFirst(s, x);
    assert r[..i] == s[..i] by {
      assert r[..k] == s[..k];
      assert r[..i] == r[..k][..i] && s[..i] == s[..k][..i];
    }
    InsertAtMembers(r, i, x);
    InsertKeepsDistinct(r, i, x);
  }

  /** Inserting a non-member keeps a list free of repeats. */
  lemma InsertKeepsDistinct<T>(s: seq<T>, i: nat, x: T)
    requires Distinct(s) && i <= |s| && x !in s
    ensures Distinct(InsertAt(s, i, x))
  {
    var t := InsertAt(s, i, x);
    forall a, b | 0 <= a < b < |t|
      ensures t[a] != t[b]
    {
      if a == i {
        assert t[b] == s[b - 1];
      } else if b == i {
        assert t[a] == s[a];
      } else {
        var a' := if a < i then a else a - 1;
        var b' := if b < i then b else b - 1;
        assert t[a] == s[a'] && t[b] == s[b'];
      }
    }
  }

  /**
   * A view container (a linear layout, or the notification-icon merger) and
   * its children in order. A child is in at most one container, once.
   */
  class ViewGroup<V(==)> {
    var children: seq<V>

    constructor (initial: seq<V>)
      ensures children == initial
    {
      children := initial;
    }

    /**
     * `addView(child, index)`: a negative index appends; otherwise the child
     * is inserted at `index`, which must not exceed the child count.
     */
    method AddView(v: V, index: int)
      requires index <= |children|
      modifies this
      ensures index < 0 ==> children == old(children) + [v]
      ensures 0 <= index ==> children == InsertAt(old(children), index, v)
    {
      if index < 0 {
        children := children + [v];
      } else {
        children := InsertAt(children, index, v);
      }
    }

    /** `removeView(child)`: a non-child is ignored. */
    method RemoveView(v: V)
      modifies this
      ensures children == RemoveFirst(old(children), v)
    {
      if v in children {
        children := RemoveAt(children, IndexOf(children, v));
      }
    }

    /** `removeViewAt(index)`. */
    method RemoveViewAt(index: nat)
      requires index < |children|
      modifies this
      ensures children == RemoveAt(old(children), index)
    {
      children := RemoveAt(children, index);
    }

    /** The child at `index` changed its contents in place (`view.set(icon)`). */
    method SetChildAt(index: nat, v: V)
      requires index < |children|
      modifies this
      ensures children == old(children)[index := v]
    {
      children := children[index := v];
    }
  }
}
