/** List operations the components share: the chip delete filter, the ID
    lookups (`some`, `find`) and the dropdown catalogue filter. */
module Lists {
  import opened Terpenes

  /** `a` is `b` with some elements left out, the rest in their order. */
  ghost predicate IsSubsequence<T>(a: seq<T>, b: seq<T>)
    decreases |b|
  {
    a == [] || (b != [] && ((a[0] == b[0] && IsSubsequence(a[1..], b[1..])) || IsSubsequence(a, b[1..])))
  }

  lemma {:induction false} SubsequenceMembers<T>(a: seq<T>, b: seq<T>)
    requires IsSubsequence(a, b)
    ensures forall e :: e in a ==> e in b
    decreases |b|
  {
    if a != [] {
      if a[0] == b[0] && IsSubsequence(a[1..], b[1..]) {
        SubsequenceMembers(a[1..], b[1..]);
        forall e | e in a ensures e in b {
          if e != a[0] { assert e in a[1..]; }
        }
      } else {
        SubsequenceMembers(a, b[1..]);
      }
    }
  }

  lemma {:induction false} SubsequenceTransitive<T>(a: seq<T>, b: seq<T>, c: seq<T>)
    requires IsSubsequence(a, b) && IsSubsequence(b, c)
    ensures IsSubsequence(a, c)
    decreases |c|
  {
    if a != [] && c != [] {
      if b[0] == c[0] && IsSubsequence(b[1..], c[1..]) {
        if a[0] == b[0] && IsSubsequence(a[1..], b[1..]) {
          SubsequenceTransitive(a[1..], b[1..], c[1..]);
        } else {
          SubsequenceTransitive(a, b[1..], c[1..]);
        }
      } else {
        SubsequenceTransitive(a, b, c[1..]);
      }
    }
  }

  /** `list.filter(e => e !== x)`, the body of every chip delete handler.
      JavaScript compares object references; the model compares values. */
  function Without(s: seq<Attribute>, x: Attribute): (r: seq<Attribute>)
    ensures x !in r
    ensures forall y :: y != x ==> multiset(r)[y] == multiset(s)[y]
    ensures |r| == |s| - multiset(s)[x]
    ensures x !in s ==> r == s
  {
    if s == [] then []
    else
      assert s == [s[0]] + s[1..];
      if s[0] == x then Without(s[1..], x)
      else [s[0]] + Without(s[1..], x)
  }

  /** A delete keeps the other elements in their original order. */
  lemma {:induction false} WithoutIsSubsequence(s: seq<Attribute>, x: Attribute)
    ensures IsSubsequence(Without(s, x), s)
  {
    if s != [] {
      WithoutIsSubsequence(s[1..], x);
      if s[0] != x {
        assert ([s[0]] + Without(s[1..], x))[1..] == Without(s[1..], x);
      }
    }
  }

  /** Deleting from a concatenation deletes from each part. */
  lemma {:induction false} WithoutConcat(a: seq<Attribute>, b: seq<Attribute>, x: Attribute)
    ensures Without(a + b, x) == Without(a, x) + Without(b, x)
  {
    if a == [] {
      assert a + b == b;
    } else {
      assert (a + b)[0] == a[0];
      assert (a + b)[1..] == a[1..] + b;
      WithoutConcat(a[1..], b, x);
      if a[0] != x {
        assert [a[0]] + (Without(a[1..], x) + Without(b, x)) == ([a[0]] + Without(a[1..], x)) + Without(b, x);
      }
    }
  }

  /** When the deleted element occurs exactly once, at position `i`, the
      delete removes exactly that position. */
  lemma {:induction false} WithoutAt(s: seq<Attribute>, i: nat)
    requires i < |s|
    requires forall j :: 0 <= j < |s| && j != i ==> s[j] != s[i]
    ensures Without(s, s[i]) == s[..i] + s[i + 1..]
  {
    var x, pre, post := s[i], s[..i], s[i + 1..];
    assert s == pre + ([x] + post);
    assert x !in pre by {
      forall j | 0 <= j < |pre| ensures pre[j] != x { assert pre[j] == s[j]; }
    }
    assert x !in post by {
      forall j | 0 <= j < |post| ensures post[j] != x { assert post[j] == s[i + 1 + j]; }
    }
    calc {
      Without(s, x);
      Without(pre + ([x] + post), x);
      { WithoutConcat(pre, [x] + post, x); }
      Without(pre, x) + Without([x] + post, x);
      { WithoutConcat([x], post, x); }
      pre + (Without([x], x) + post);
      { assert [x][1..] == []; }
      pre + post;
    }
  }

  /** Repeated deletes, one per clicked chip, in the order clicked. */
  function WithoutAll(s: seq<Attribute>, xs: seq<Attribute>): seq<Attribute>
    decreases |xs|
  {
    if xs == [] then s else WithoutAll(Without(s, xs[0]), xs[1..])
  }

  /** However many chips are deleted, the list only ever shrinks and keeps
      its order. */
  lemma {:induction false} WithoutAllIsSubsequence(s: seq<Attribute>, xs: seq<Attribute>)
    ensures IsSubsequence(WithoutAll(s, xs), s)
    decreases |xs|
  {
    if xs == [] {
      SubsequenceReflexive(s);
    } else {
      WithoutIsSubsequence(s, xs[0]);
      WithoutAllIsSubsequence(Without(s, xs[0]), xs[1..]);
      SubsequenceTransitive(WithoutAll(s, xs), Without(s, xs[0]), s);
    }
  }

  lemma {:induction false} SubsequenceReflexive<T>(s: seq<T>)
    ensures IsSubsequence(s, s)
  {
    if s != [] {
      SubsequenceReflexive(s[1..]);
    }
  }

  /** `list.some(e => e.<ID> === id)`. */
  predicate HasId(list: seq<Attribute>, id: int)
  {
    exists k :: 0 <= k < |list| && list[k].id == id
  }

  /** `e` is the first entry of `list` whose ID is `id`. */
  ghost predicate IsFirstWithId(list: seq<Attribute>, id: int, e: Attribute)
  {
    exists k :: 0 <= k < |list| && list[k] == e && e.id == id && NoIdBefore(list, id, k)
  }

  ghost predicate NoIdBefore(list: seq<Attribute>, id: int, k: int)
    requires k <= |list|
  {
    forall j :: 0 <= j < k ==> list[j].id != id
  }

  lemma {:induction false} FirstWithIdTail(list: seq<Attribute>, id: int, e: Attribute)
    requires list != [] && list[0].id != id
    requires IsFirstWithId(list[1..], id, e)
    ensures IsFirstWithId(list, id, e)
  {
    var k :| 0 <= k < |list[1..]| && list[1..][k] == e && e.id == id && NoIdBefore(list[1..], id, k);
    assert list[k + 1] == e;
    assert NoIdBefore(list, id, k + 1) by {
      forall j | 0 <= j < k + 1 ensures list[j].id != id {
        if j > 0 { assert list[j] == list[1..][j - 1]; }
      }
    }
  }

  /** There is only one first match. */
  lemma {:induction false} FirstWithIdUnique(list: seq<Attribute>, id: int, e1: Attribute, e2: Attribute)
    requires IsFirstWithId(list, id, e1) && IsFirstWithId(list, id, e2)
    ensures e1 == e2
  {
    var k1 :| 0 <= k1 < |list| && list[k1] == e1 && e1.id == id && NoIdBefore(list, id, k1);
    var k2 :| 0 <= k2 < |list| && list[k2] == e2 && e2.id == id && NoIdBefore(list, id, k2);
  }

  /** `list.find(e => e.<ID> === id)`: the first entry with that ID, if any. */
  function Find(list: seq<Attribute>, id: int): (r: Option<Attribute>)
    ensures r.None? <==> !HasId(list, id)
    ensures r.Some? ==> IsFirstWithId(list, id, r.value)
  {
    if list == [] then None
    else if list[0].id == id then
      assert NoIdBefore(list, id, 0);
      Some(list[0])
    else
      var r := Find(list[1..], id);
      if r.Some? then
        FirstWithIdTail(list, id, r.value);
        r
      else
        assert forall k :: 1 <= k < |list| ==> list[k] == list[1..][k - 1];
        r
  }

  /** `catalogue.filter(c => selected.some(s => s.<ID> === c.<ID>))`: the
      value shown as selected by a dropdown. */
  function SelectedInCatalogue(catalogue: seq<Attribute>, selected: seq<Attribute>): (r: seq<Attribute>)
    ensures forall c :: c in r <==> c in catalogue && HasId(selected, c.id)
    ensures forall c :: multiset(r)[c] == if HasId(selected, c.id) then multiset(catalogue)[c] else 0
    ensures IsSubsequence(r, catalogue)
  {
    if catalogue == [] then []
    else
      assert catalogue == [catalogue[0]] + catalogue[1..];
      var rest := SelectedInCatalogue(catalogue[1..], selected);
      if HasId(selected, catalogue[0].id) then
        assert ([catalogue[0]] + rest)[1..] == rest;
        [catalogue[0]] + rest
      else
        rest
  }
}
