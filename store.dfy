/** A collection of records keyed by an integer `id`, as both simulated back-end
    modules keep it: the id rule for new records, lookup by id, removal by id. */
module Store {
  import opened Common

  /** A stored record: its `id` and the rest of its fields. */
  datatype Keyed<T> = Keyed(id: int, fields: T)

  /** `Math.max(...s.map(r => r.id), floor)`. */
  function MaxId<T>(s: seq<Keyed<T>>, floor: int): (m: int)
    ensures floor <= m
    ensures forall k :: 0 <= k < |s| ==> s[k].id <= m
    ensures m == floor || exists k :: 0 <= k < |s| && s[k].id == m
  {
    if s == [] then floor
    else
      var rest := MaxId(s[1..], floor);
      assert forall k :: 1 <= k < |s| ==> s[k] == s[1..][k - 1];
      if s[0].id > rest then s[0].id else rest
  }

  /** The id a new record receives: one more than the largest id, and 1 for an empty collection. */
  function NextId<T>(s: seq<Keyed<T>>): (id: int)
    ensures 1 <= id
    ensures forall k :: 0 <= k < |s| ==> s[k].id < id
    ensures s == [] ==> id == 1
  {
    MaxId(s, 0) + 1
  }

  /** `s.findIndex(r => r.id === id)`: the first position holding `id`, if any. */
  function FindIndex<T>(s: seq<Keyed<T>>, id: int): (r: Option<nat>)
    ensures r.Some? ==> r.value < |s| && s[r.value].id == id
    ensures r.Some? ==> forall k :: 0 <= k < r.value ==> s[k].id != id
    ensures r.None? <==> forall k :: 0 <= k < |s| ==> s[k].id != id
  {
    if s == [] then None
    else if s[0].id == id then Some(0)
    else
      match FindIndex(s[1..], id)
      case None =>
        assert forall k :: 1 <= k < |s| ==> s[k] == s[1..][k - 1];
        None
      case Some(i) => Some(i + 1)
  }

  /** `s.filter(r => r.id !== id)`. */
  function WithoutId<T>(s: seq<Keyed<T>>, id: int): (r: seq<Keyed<T>>)
    ensures |r| <= |s|
  {
    if s == [] then []
    else if s[0].id == id then WithoutId(s[1..], id)
    else [s[0]] + WithoutId(s[1..], id)
  }

  /** The filter keeps exactly the records whose id differs. */
  lemma {:induction false} WithoutIdKeepsExactlyOthers<T>(s: seq<Keyed<T>>, id: int)
    ensures forall k :: 0 <= k < |WithoutId(s, id)| ==> WithoutId(s, id)[k] in s && WithoutId(s, id)[k].id != id
    ensures forall k :: 0 <= k < |s| && s[k].id != id ==> s[k] in WithoutId(s, id)
  {
    if s != [] {
      WithoutIdKeepsExactlyOthers(s[1..], id);
      assert forall k :: 1 <= k < |s| ==> s[k] == s[1..][k - 1];
    }
  }

  /** `a` is `b` with some elements left out and the others in their order. */
  predicate IsSubsequence<T(==)>(a: seq<T>, b: seq<T>)
    decreases |b|
  {
    a == [] || (b != [] && if a[0] == b[0] then IsSubsequence(a[1..], b[1..]) else IsSubsequence(a, b[1..]))
  }

  lemma {:induction false} WithoutIdKeepsOrder<T>(s: seq<Keyed<T>>, id: int)
    ensures IsSubsequence(WithoutId(s, id), s)
  {
    if s != [] {
      WithoutIdKeepsOrder(s[1..], id);
      var r := WithoutId(s, id);
      if s[0].id != id {
        assert r[0] == s[0] && r[1..] == WithoutId(s[1..], id);
      } else if r != [] {
        WithoutIdKeepsExactlyOthers(s[1..], id);
        assert r[0] in r;
      }
    }
  }

  /** Removing an id that is present makes the collection shorter. */
  lemma {:induction false} WithoutPresentIdShrinks<T>(s: seq<Keyed<T>>, id: int, k: nat)
    requires k < |s| && s[k].id == id
    ensures |WithoutId(s, id)| < |s|
  {
    if k > 0 {
      WithoutPresentIdShrinks(s[1..], id, k - 1);
    }
  }

  /** Removing an id that is absent changes nothing. */
  lemma {:induction false} WithoutAbsentIdIsIdentity<T>(s: seq<Keyed<T>>, id: int)
    requires forall k :: 0 <= k < |s| ==> s[k].id != id
    ensures WithoutId(s, id) == s
  {
    if s != [] {
      WithoutAbsentIdIsIdentity(s[1..], id);
    }
  }

  /** No two records share an id. */
  predicate UniqueIds<T>(s: seq<Keyed<T>>) {
    forall i, j :: 0 <= i < j < |s| ==> s[i].id != s[j].id
  }

  lemma {:induction false} AppendFreshKeepsUnique<T>(s: seq<Keyed<T>>, x: Keyed<T>)
    requires UniqueIds(s)
    requires forall k :: 0 <= k < |s| ==> s[k].id < x.id
    ensures UniqueIds(s + [x])
  {
  }

  lemma {:induction false} WithoutIdKeepsUnique<T>(s: seq<Keyed<T>>, id: int)
    requires UniqueIds(s)
    ensures UniqueIds(WithoutId(s, id))
  {
    if s != [] {
      WithoutIdKeepsUnique(s[1..], id);
      if s[0].id != id {
        var r := WithoutId(s[1..], id);
        WithoutIdKeepsExactlyOthers(s[1..], id);
        forall j | 0 <= j < |r| ensures r[j].id != s[0].id {
          assert r[j] in r;
        }
      }
    }
  }

  /** Removing an id held by one record `x` and by nothing around it removes `x` alone. */
  lemma {:induction false} WithoutSoleIdRemovesOne<T>(a: seq<Keyed<T>>, x: Keyed<T>, b: seq<Keyed<T>>)
    requires forall m :: 0 <= m < |a| ==> a[m].id != x.id
    requires forall m :: 0 <= m < |b| ==> b[m].id != x.id
    ensures WithoutId(a + [x] + b, x.id) == a + b
    decreases |a|
  {
    if a == [] {
      assert a + [x] + b == [x] + b;
      WithoutAbsentIdIsIdentity(b, x.id);
    } else {
      var s := a + [x] + b;
      assert s[0] == a[0] && s[1..] == a[1..] + [x] + b;
      assert a[0].id != x.id;
      assert WithoutId(s, x.id) == [a[0]] + WithoutId(a[1..] + [x] + b, x.id);
      WithoutSoleIdRemovesOne(a[1..], x, b);
      assert a + b == [a[0]] + (a[1..] + b);
    }
  }

  /** In a collection with unique ids, removing an id removes exactly one record. */
  lemma {:induction false} WithoutUniqueIdRemovesOne<T>(s: seq<Keyed<T>>, id: int, k: nat)
    requires UniqueIds(s) && k < |s| && s[k].id == id
    ensures WithoutId(s, id) == s[..k] + s[k + 1..]
  {
    var a, b := s[..k], s[k + 1..];
    forall m | 0 <= m < |a| ensures a[m].id != id {
      assert a[m] == s[m] && s[m].id != s[k].id;
    }
    forall m | 0 <= m < |b| ensures b[m].id != id {
      assert b[m] == s[k + 1 + m] && s[k].id != s[k + 1 + m].id;
    }
    assert s == a + [s[k]] + b;
    WithoutSoleIdRemovesOne(a, s[k], b);
  }
}
