/** Distances, the selection of the nearest vectors, and the index as an object that changes in place. */
module FlatIndex {
  import opened Messages
  import opened VectorIndex

  // ---------------------------------------------------------------- distances

  datatype Distance = L2 | Cosine

  function Product(x: real, y: real): real {
    x * y
  }

  /** Coordinates are paired as far as both vectors reach. */
  function SquaredL2(a: seq<real>, b: seq<real>): real {
    if |a| == 0 || |b| == 0 then 0.0
    else Product(a[0] - b[0], a[0] - b[0]) + SquaredL2(a[1..], b[1..])
  }

  function Dot(a: seq<real>, b: seq<real>): real {
    if |a| == 0 || |b| == 0 then 0.0 else Product(a[0], b[0]) + Dot(a[1..], b[1..])
  }

  function Dist(df: Distance, a: seq<real>, b: seq<real>): real {
    match df
    case L2 => SquaredL2(a, b)
    case Cosine => -Dot(a, b)
  }

  lemma ProductSigns(x: real, y: real)
    ensures x > 0.0 && y > 0.0 ==> Product(x, y) > 0.0
    ensures Product(x, y) == Product(-x, -y)
    ensures x == 0.0 ==> Product(x, y) == 0.0
  {
  }

  lemma SquareIsPositive(x: real)
    ensures if x == 0.0 then Product(x, x) == 0.0 else Product(x, x) > 0.0
  {
    hide Product;
    ProductSigns(x, x);
    ProductSigns(-x, -x);
  }

  /** Only an exact match is at distance zero, and nothing is nearer. */
  lemma {:induction false} ExactMatchIsNearest(a: seq<real>, b: seq<real>)
    requires |a| == |b|
    ensures SquaredL2(a, b) >= 0.0 && (SquaredL2(a, b) == 0.0 <==> a == b)
  {
    hide Product;
    if |a| > 0 {
      ExactMatchIsNearest(a[1..], b[1..]);
      var d, rest := a[0] - b[0], SquaredL2(a[1..], b[1..]);
      SquareIsPositive(d);
      assert SquaredL2(a, b) == Product(d, d) + rest;
      assert a == b <==> a[0] == b[0] && a[1..] == b[1..] by {
        assert a == [a[0]] + a[1..] && b == [b[0]] + b[1..];
      }
    } else {
      assert a == b;
    }
  }

  lemma SquareOfDifference(x: real, y: real)
    ensures Product(x - y, x - y) == Product(x, x) - 2.0 * Product(x, y) + Product(y, y)
  {
  }

  /** The squared distance of vectors of one size, by their products. */
  lemma {:induction false} DistanceByProducts(a: seq<real>, b: seq<real>)
    requires |a| == |b|
    ensures SquaredL2(a, b) == Dot(a, a) - 2.0 * Dot(a, b) + Dot(b, b)
  {
    hide Product;
    if |a| > 0 {
      DistanceByProducts(a[1..], b[1..]);
      SquareOfDifference(a[0], b[0]);
    }
  }

  /** Among vectors of equal norm both distances put the same one nearer to the query. */
  lemma SameOrderOfEqualNorms(x: seq<real>, y: seq<real>, query: seq<real>)
    requires |x| == |y| == |query| && Dot(x, x) == Dot(y, y)
    ensures Dist(Cosine, x, query) <= Dist(Cosine, y, query) <==> Dist(L2, x, query) <= Dist(L2, y, query)
  {
    DistanceByProducts(x, query);
    DistanceByProducts(y, query);
    hide Dot, SquaredL2;
  }

  /** Coordinates beyond the shorter vector count for nothing. */
  lemma {:induction false} ShorterDecides(df: Distance, a: seq<real>, b: seq<real>, m: nat)
    requires m == if |a| < |b| then |a| else |b|
    ensures Dist(df, a, b) == Dist(df, a[..m], b[..m])
    decreases m
  {
    hide Product;
    if m > 0 {
      ShorterDecides(df, a[1..], b[1..], m - 1);
      assert a[..m][1..] == a[1..][..m - 1] && b[..m][1..] == b[1..][..m - 1];
    }
  }

  // ---------------------------------------------------------------- sorting everything

  datatype Hit = Hit(id: nat, dist: real)

  predicate Sorted(hs: seq<Hit>) {
    forall i, j :: 0 <= i < j < |hs| ==> hs[i].dist <= hs[j].dist
  }

  /** Puts `h` before the first hit that is not nearer. */
  function Place(h: Hit, hs: seq<Hit>): seq<Hit> {
    if |hs| == 0 then [h]
    else if h.dist <= hs[0].dist then [h] + hs
    else [hs[0]] + Place(h, hs[1..])
  }

  lemma {:induction false} PlaceKeepsHits(h: Hit, hs: seq<Hit>)
    ensures multiset(Place(h, hs)) == multiset(hs) + multiset{h} && |Place(h, hs)| == |hs| + 1
    ensures forall x :: x in Place(h, hs) ==> x == h || x in hs
  {
    if |hs| > 0 {
      PlaceKeepsHits(h, hs[1..]);
      assert hs == [hs[0]] + hs[1..];
    }
  }

  lemma ConsSorted(h: Hit, hs: seq<Hit>)
    requires Sorted(hs) && forall x :: x in hs ==> h.dist <= x.dist
    ensures Sorted([h] + hs)
  {
  }

  lemma {:induction false} PlaceSorted(h: Hit, hs: seq<Hit>)
    requires Sorted(hs)
    ensures Sorted(Place(h, hs))
  {
    if |hs| > 0 {
      PlaceSorted(h, hs[1..]);
      PlaceKeepsHits(h, hs[1..]);
      if h.dist <= hs[0].dist {
        ConsSorted(h, hs);
      } else {
        ConsSorted(hs[0], Place(h, hs[1..]));
      }
    }
  }

  function SortAll(hs: seq<Hit>): (r: seq<Hit>)
    ensures Sorted(r) && multiset(r) == multiset(hs) && |r| == |hs|
  {
    hide Sorted, Place;
    if |hs| == 0 then NothingSorted(); []
    else
      assert hs == [hs[0]] + hs[1..];
      PlaceKeepsHits(hs[0], SortAll(hs[1..]));
      PlaceSorted(hs[0], SortAll(hs[1..]));
      Place(hs[0], SortAll(hs[1..]))
  }

  lemma NothingSorted()
    ensures Sorted([])
  {
  }

  function Dists(hs: seq<Hit>): (r: seq<real>)
    ensures |r| == |hs| && forall i :: 0 <= i < |hs| ==> r[i] == hs[i].dist
  {
    seq(|hs|, i requires 0 <= i < |hs| => hs[i].dist)
  }

  function Without<T>(xs: seq<T>, i: nat): seq<T>
    requires i < |xs|
  {
    xs[..i] + xs[i + 1..]
  }

  lemma WithoutOne<T>(xs: seq<T>, i: nat)
    requires i < |xs|
    ensures multiset(Without(xs, i)) == multiset(xs) - multiset{xs[i]}
  {
    assert xs == xs[..i] + ([xs[i]] + xs[i + 1..]);
  }

  /** Two sorted arrangements of the same hits start at the same distance. */
  lemma HeadsTie(a: seq<Hit>, b: seq<Hit>) returns (j: nat)
    requires Sorted(a) && Sorted(b) && multiset(a) == multiset(b) && |a| > 0
    ensures |a| == |b| && j < |b| && b[j] == a[0] && b[j].dist == b[0].dist
  {
    assert |a| == |multiset(a)| == |multiset(b)| == |b|;
    assert a[0] in multiset(b) && b[0] in multiset(a);
    j :| 0 <= j < |b| && b[j] == a[0];
    var i :| 0 <= i < |a| && a[i] == b[0];
  }

  lemma TailSorted(a: seq<Hit>)
    requires Sorted(a) && |a| > 0
    ensures Sorted(a[1..]) && Dists(a) == [a[0].dist] + Dists(a[1..]) && Without(a, 0) == a[1..]
  {
  }

  /** Two sorted arrangements of the same hits show the same distances. */
  lemma {:induction false} SortedDistsUnique(a: seq<Hit>, b: seq<Hit>)
    requires Sorted(a) && Sorted(b) && multiset(a) == multiset(b)
    ensures Dists(a) == Dists(b)
    decreases |a|
  {
    hide Sorted, Dists, Without;
    if |a| > 0 {
      var j := HeadsTie(a, b);
      TailSorted(a);
      TailSorted(b);
      ShiftedDists(b, j);
      WithoutOne(a, 0);
      WithoutOne(b, j);
      SortedDistsUnique(a[1..], Without(b, j));
    } else {
      assert |multiset(a)| == |multiset(b)| == |b|;
    }
  }

  /** Taking out a hit that ties with the first leaves the distances of the tail. */
  lemma ShiftedDists(b: seq<Hit>, j: nat)
    requires Sorted(b) && j < |b| && b[j].dist == b[0].dist
    ensures Sorted(Without(b, j)) && Dists(Without(b, j)) == Dists(b[1..])
  {
    var w := Without(b, j);
    assert forall k :: 0 <= k < |w| ==> w[k] == if k < j then b[k] else b[k + 1];
  }

  // ---------------------------------------------------------------- selecting the nearest

  /** Position `n` holds what a full sort would put there, smaller before it and larger after. */
  predicate Partitioned(hs: seq<Hit>, n: nat) {
    && n < |hs|
    && (forall i :: 0 <= i <= n ==> hs[i].dist <= hs[n].dist)
    && (forall j :: n <= j < |hs| ==> hs[n].dist <= hs[j].dist)
  }

  method SelectNth(hs: seq<Hit>, n: nat) returns (r: seq<Hit>)
    requires n < |hs|
    ensures multiset(r) == multiset(hs) && |r| == |hs| && Partitioned(r, n)
  {
    r := SortAll(hs);
  }

  method SortHits(hs: seq<Hit>) returns (r: seq<Hit>)
    ensures multiset(r) == multiset(hs) && |r| == |hs| && Sorted(r)
  {
    r := SortAll(hs);
  }

  predicate DistinctIds(hs: seq<Hit>) {
    forall i, j :: 0 <= i < j < |hs| ==> hs[i].id != hs[j].id
  }

  /**
   `r` holds the `k` nearest of `hits`, or all of them if there are fewer: distinct ids, nearest
   first, nothing left out that is nearer, and the distances of a full sort.
   */
  ghost predicate Nearest(hits: seq<Hit>, k: nat, r: seq<Hit>) {
    && |r| == (if k < |hits| then k else |hits|)
    && Sorted(r) && DistinctIds(r)
    && (forall h :: h in r ==> h in hits)
    && (forall h, g :: h in hits && h !in r && g in r ==> g.dist <= h.dist)
    && Dists(r) == Dists(SortAll(hits))[..|r|]
  }

  lemma {:induction false} OnceEach(hs: seq<Hit>, h: Hit)
    requires DistinctIds(hs)
    ensures multiset(hs)[h] <= 1
  {
    if |hs| > 0 {
      OnceEach(hs[1..], h);
      assert hs == [hs[0]] + hs[1..];
      if hs[0] == h {
        assert h !in hs[1..];
      }
    }
  }

  /** No arrangement of part of the hits repeats an id. */
  lemma PartIsDistinct(hits: seq<Hit>, r: seq<Hit>, rest: seq<Hit>)
    requires DistinctIds(hits) && multiset(hits) == multiset(r) + multiset(rest)
    ensures DistinctIds(r) && forall h :: h in r ==> h in hits
  {
    assert forall h :: h in r ==> h in multiset(r);
    assert forall h :: h in multiset(hits) ==> h in hits;
    forall i, j | 0 <= i < j < |r|
      ensures r[i].id != r[j].id
    {
      if r[i].id == r[j].id {
        assert r[i] in hits && r[j] in hits;
        assert r[i] == r[j];
        assert r == r[..j] + r[j..] && r[i] in r[..j] && r[j] in r[j..];
        OnceEach(hits, r[i]);
        assert false;
      }
    }
  }

  lemma LowBeforeHigh(ys: seq<Hit>, k: nat, r: seq<Hit>, rest: seq<Hit>)
    requires 0 < k <= |ys| && Partitioned(ys, k - 1)
    requires multiset(r) == multiset(ys[..k]) && multiset(rest) == multiset(ys[k..])
    ensures forall g, h :: g in r && h in rest ==> g.dist <= h.dist
  {
    forall g, h | g in r && h in rest
      ensures g.dist <= h.dist
    {
      assert g in multiset(r) && h in multiset(rest);
      var i :| 0 <= i < k && ys[..k][i] == g;
      var j :| 0 <= j < |ys| - k && ys[k..][j] == h;
      assert ys[i] == g && ys[k + j] == h;
    }
  }

  /** Selecting, truncating and sorting what remains gives the nearest hits. */
  lemma SelectionIsNearest(hits: seq<Hit>, ys: seq<Hit>, k: nat, r: seq<Hit>)
    requires DistinctIds(hits) && 0 < k <= |hits| == |ys| && multiset(ys) == multiset(hits) && Partitioned(ys, k - 1)
    requires multiset(r) == multiset(ys[..k]) && |r| == k && Sorted(r)
    ensures Nearest(hits, k, r)
  {
    hide Partitioned, Dists, Sorted, DistinctIds, SortAll;
    var rest := SortAll(ys[k..]);
    assert ys == ys[..k] + ys[k..];
    assert multiset(hits) == multiset(r) + multiset(rest);
    PartIsDistinct(hits, r, rest);
    LowBeforeHigh(ys, k, r, rest);
    WholeIsSorted(hits, r, rest);
    forall h, g | h in hits && h !in r && g in r
      ensures g.dist <= h.dist
    {
      assert h in multiset(hits) && h !in multiset(r);
      assert h in multiset(rest) && h in rest;
    }
  }

  lemma ConcatSorted(r: seq<Hit>, rest: seq<Hit>)
    requires Sorted(r) && Sorted(rest)
    requires forall g, h :: g in r && h in rest ==> g.dist <= h.dist
    ensures Sorted(r + rest) && Dists(r + rest)[..|r|] == Dists(r)
  {
  }

  lemma WholeIsSorted(hits: seq<Hit>, r: seq<Hit>, rest: seq<Hit>)
    requires Sorted(r) && Sorted(rest) && multiset(hits) == multiset(r) + multiset(rest)
    requires forall g, h :: g in r && h in rest ==> g.dist <= h.dist
    ensures |r| <= |hits| && Dists(r) == Dists(SortAll(hits))[..|r|]
  {
    hide Sorted, SortAll;
    var whole := r + rest;
    ConcatSorted(r, rest);
    SortedDistsUnique(whole, SortAll(hits));
    assert |multiset(hits)| == |hits| && |multiset(whole)| == |whole|;
  }

  // ---------------------------------------------------------------- the object

  function Hits(ix: Index, query: seq<real>, df: Distance): (hs: seq<Hit>)
    requires Shaped(ix)
    ensures |hs| == |ix.ids|
    ensures forall i :: 0 <= i < |hs| ==> hs[i] == Hit(ix.ids[i], Dist(df, Row(ix, i), query))
  {
    seq(|ix.ids|, i requires 0 <= i < |ix.ids| => Hit(ix.ids[i], Dist(df, Row(ix, i), query)))
  }

  /** The id is among the hits. */
  ghost predicate Returned(r: seq<Hit>, id: nat) {
    exists h :: h in r && h.id == id
  }

  /** No stored vector that was left out is more similar to the query than one that was returned. */
  ghost predicate NoneMoreSimilar(ix: Index, query: seq<real>, r: seq<Hit>)
    requires Shaped(ix)
  {
    forall i, j :: 0 <= i < |ix.ids| && 0 <= j < |ix.ids| && Returned(r, ix.ids[i]) && !Returned(r, ix.ids[j]) ==>
      Dot(Row(ix, j), query) <= Dot(Row(ix, i), query)
  }

  /** No stored vector that was left out lies closer to the query than one that was returned. */
  ghost predicate NoneCloser(ix: Index, query: seq<real>, r: seq<Hit>)
    requires Shaped(ix)
  {
    forall i, j :: 0 <= i < |ix.ids| && 0 <= j < |ix.ids| && Returned(r, ix.ids[i]) && !Returned(r, ix.ids[j]) ==>
      SquaredL2(Row(ix, i), query) <= SquaredL2(Row(ix, j), query)
  }

  /** The hit of a returned id is the one that was measured for it. */
  lemma ReturnedHit(ix: Index, query: seq<real>, df: Distance, r: seq<Hit>, i: nat)
    requires Shaped(ix) && i < |ix.ids| && forall h :: h in r ==> h in Hits(ix, query, df)
    ensures Returned(r, ix.ids[i]) <==> Hits(ix, query, df)[i] in r
  {
    hide Row, Dist, Start;
    var hits := Hits(ix, query, df);
    if Returned(r, ix.ids[i]) {
      var h :| h in r && h.id == ix.ids[i];
      var j :| 0 <= j < |hits| && hits[j] == h;
      assert ix.ids[j] == ix.ids[i];
    }
  }

  /** The nearest hits, in terms of the stored vectors. */
  lemma NearestRows(ix: Index, query: seq<real>, df: Distance, k: nat, r: seq<Hit>)
    requires Shaped(ix) && Nearest(Hits(ix, query, df), k, r)
    ensures df == Cosine ==> NoneMoreSimilar(ix, query, r)
    ensures df == L2 ==> NoneCloser(ix, query, r)
  {
    hide Row, Start, Dot, SquaredL2, Dists, SortAll;
    var hits := Hits(ix, query, df);
    forall i, j | 0 <= i < |ix.ids| && 0 <= j < |ix.ids| && Returned(r, ix.ids[i]) && !Returned(r, ix.ids[j])
      ensures Dist(df, Row(ix, i), query) <= Dist(df, Row(ix, j), query)
    {
      ReturnedHit(ix, query, df, r, i);
      ReturnedHit(ix, query, df, r, j);
      assert hits[i].dist <= hits[j].dist;
    }
  }

  /** Rows of no coordinates cannot be walked, and the nearest of none cannot be selected. */
  predicate SearchDefined(ix: Index, k: nat) {
    k == 0 || (ix.dim > 0 && |ix.ids| > 0)
  }

  /** An empty index answers only a search for nothing. */
  lemma EmptyIndexAborts(dim: nat, k: nat)
    ensures SearchDefined(New(dim), k) <==> k == 0
  {
  }

  class VectorStore {
    const dim: nat
    var vecs: seq<real>
    var ids: seq<nat>
    var idset: map<nat, nat>

    ghost function State(): Index
      reads this
    {
      Index(dim, vecs, ids, idset)
    }

    ghost predicate Valid()
      reads this
    {
      Shaped(State())
    }

    constructor (n: nat)
      ensures State() == New(n) && Valid()
    {
      dim, vecs, ids, idset := n, [], [], map[];
    }

    method Insert(id: nat, v: seq<real>) returns (ok: bool)
      requires Valid() && InsertDefined(State(), id, v)
      modifies this
      ensures Valid() && State() == VectorIndex.Insert(old(State()), id, v) && ok == (|v| == dim)
      ensures Agrees(old(State())) ==>
        Agrees(State()) && Contents(State()) == if ok then old(Contents(State()))[id := v] else old(Contents(State()))
    {
      hide Shaped, Agrees, Contents, Start;
      ghost var ix := State();
      InsertKeepsShape(ix, id, v);
      if Agrees(ix) {
        InsertIsUpdate(ix, id, v);
      }
      if |v| != dim {
        return false;
      }
      if id in idset {
        var start := Start(dim, idset[id]);
        WriteRow(start, v);
      } else {
        vecs := vecs + v;
        idset := idset[id := |ids|];
        ids := ids + [id];
      }
      ok := true;
    }

    /** Copies `v` coordinate by coordinate. */
    method WriteRow(start: nat, v: seq<real>)
      requires start + |v| <= |vecs|
      modifies this`vecs
      ensures vecs == Overwrite(old(vecs), start, v)
    {
      ghost var was := vecs;
      for j := start to start + |v|
        invariant |vecs| == |was|
        invariant forall i :: start <= i < j ==> vecs[i] == v[i - start]
        invariant forall i :: 0 <= i < start || j <= i < |was| ==> vecs[i] == was[i]
      {
        vecs := vecs[j := v[j - start]];
      }
    }

    /** Moves the last row over the deleted one, coordinate by coordinate. */
    method MoveLastRow(start: nat)
      requires start + dim <= |vecs| && (start + dim <= |vecs| - dim || start == |vecs| - dim)
      modifies this`vecs
      ensures vecs == Overwrite(old(vecs), start, old(vecs)[|old(vecs)| - dim..])
    {
      var newLen := |vecs| - dim;
      ghost var was := vecs;
      for i := start to start + dim
        invariant |vecs| == |was|
        invariant forall j :: start <= j < i ==> vecs[j] == was[newLen + j - start]
        invariant forall j :: 0 <= j < start || i <= j < |was| ==> vecs[j] == was[j]
      {
        vecs := vecs[i := vecs[newLen + i - start]];
      }
    }

    method FindRow(id: nat) returns (index: Option<nat>)
      ensures index == Position(ids, id)
    {
      for i := 0 to |ids|
        invariant id !in ids[..i]
      {
        assert ids[..i + 1] == ids[..i] + [ids[i]];
        if ids[i] == id {
          FirstPosition(ids, id, i);
          return Some(i);
        }
      }
      assert ids[..|ids|] == ids;
      index := None;
    }

    method Delete(id: nat)
      requires Valid()
      modifies this
      ensures Valid() && State() == VectorIndex.Delete(old(State()), id)
      ensures Contents(State()) == old(Contents(State())) - {id}
      ensures Agrees(old(State())) ==> (Agrees(State()) <==> id !in old(ids) || old(ids)[|old(ids)| - 1] == id)
    {
      hide Agrees, Contents, Start, Overwrite, DeleteRow, Shaped;
      ghost var ix := State();
      DeleteIsRemoval(ix, id);
      if Agrees(ix) {
        DeleteAgreesIff(ix, id);
      }
      var index := FindRow(id);
      if index.Some? {
        var i := index.value;
        RowFits(ix, i);
        DeleteRowIs(ix, i);
        var start, newLen := Start(dim, i), |vecs| - dim;
        MoveLastRow(start);
        vecs := vecs[..newLen];
        ids := SwapRemove(ids, i);
        idset := idset - {id};
      }
    }

    /** The nearest stored vectors. */
    method Search(query: seq<real>, k: nat, df: Distance) returns (r: seq<Hit>)
      requires Valid() && SearchDefined(State(), k)
      ensures Nearest(Hits(State(), query, df), k, r)
      ensures df == Cosine ==> NoneMoreSimilar(State(), query, r)
      ensures df == L2 ==> NoneCloser(State(), query, r)
    {
      hide NoneMoreSimilar, NoneCloser;
      if k == 0 {
        NearestNone(Hits(State(), query, df));
        NearestRows(State(), query, df, 0, []);
        return [];
      }
      hide Row, Dist, Nearest, Partitioned, Sorted, Start, Hits;
      var distances := Measure(query, df);
      HitsDistinct(State(), query, df);
      var m := if k < |distances| then k else |distances|;
      var selected := SelectNth(distances, m - 1);
      r := SortHits(selected[..m]);
      SelectionIsNearest(distances, selected, m, r);
      NearestOfAll(distances, k, r);
      NearestRows(State(), query, df, k, r);
    }

    /** One distance per row, in row order. */
    method Measure(query: seq<real>, df: Distance) returns (distances: seq<Hit>)
      requires Valid()
      ensures distances == Hits(State(), query, df) && |distances| == |ids|
    {
      hide Row, Dist, Start;
      distances := [];
      for i := 0 to |ids|
        invariant |distances| == i && distances == Hits(State(), query, df)[..i]
      {
        RowIs(State(), i);
        var chunk := vecs[Start(dim, i)..Start(dim, i) + dim];
        distances := distances + [Hit(ids[i], Dist(df, chunk, query))];
      }
    }
  }

  lemma FirstPosition(ids: seq<nat>, id: nat, i: nat)
    requires i < |ids| && ids[i] == id && id !in ids[..i]
    ensures Position(ids, id) == Some(i)
  {
  }

  lemma RowIs(ix: Index, i: nat)
    requires Shaped(ix) && i < |ix.ids|
    ensures Start(ix.dim, i) + ix.dim <= |ix.vecs| && Row(ix, i) == ix.vecs[Start(ix.dim, i)..Start(ix.dim, i) + ix.dim]
  {
    hide Start;
    RowsFit(ix.dim, i, |ix.ids|);
  }

  /** The last row is the deleted one or lies behind it. */
  lemma RowFits(ix: Index, i: nat)
    requires Shaped(ix) && i < |ix.ids|
    ensures Start(ix.dim, i) + ix.dim <= |ix.vecs| - ix.dim || Start(ix.dim, i) == |ix.vecs| - ix.dim
  {
    hide Start;
    RowsFit(ix.dim, |ix.ids| - 1, |ix.ids|);
    if i < |ix.ids| - 1 {
      RowsFit(ix.dim, i, |ix.ids| - 1);
    }
  }

  lemma DeleteRowIs(ix: Index, i: nat)
    requires Shaped(ix) && i < |ix.ids|
    ensures ix.dim <= |ix.vecs| && Start(ix.dim, i) + ix.dim <= |ix.vecs|
    ensures DeleteRow(ix, i)
         == Index(ix.dim,
                  Overwrite(ix.vecs, Start(ix.dim, i), ix.vecs[|ix.vecs| - ix.dim..])[..|ix.vecs| - ix.dim],
                  SwapRemove(ix.ids, i),
                  ix.idset - {ix.ids[i]})
  {
    hide Start, Overwrite, Distinct;
    RowsFit(ix.dim, i, |ix.ids|);
    RowsFit(ix.dim, |ix.ids| - 1, |ix.ids|);
    assert Row(ix, |ix.ids| - 1) == ix.vecs[|ix.vecs| - ix.dim..];
  }

  lemma HitsDistinct(ix: Index, query: seq<real>, df: Distance)
    requires Shaped(ix)
    ensures DistinctIds(Hits(ix, query, df))
  {
    hide Row, Dist, Start;
  }

  lemma NearestNone(hits: seq<Hit>)
    ensures Nearest(hits, 0, [])
  {
  }

  /** Asking for more than there is gets everything. */
  lemma NearestOfAll(hits: seq<Hit>, k: nat, r: seq<Hit>)
    requires Nearest(hits, if k < |hits| then k else |hits|, r)
    ensures Nearest(hits, k, r)
  {
  }
}
