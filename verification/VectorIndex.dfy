/**
 The flat vector index as a value: one long array of coordinates, the ids of its rows in order, and
 a table from id to row. Its meaning is a map from id to vector.
 */
module VectorIndex {
  import opened Messages

  datatype Index = Index(dim: nat, vecs: seq<real>, ids: seq<nat>, idset: map<nat, nat>)

  predicate Distinct(ids: seq<nat>) {
    forall i, j :: 0 <= i < j < |ids| ==> ids[i] != ids[j]
  }

  /** Where row `i` starts. */
  function Start(dim: nat, i: nat): nat {
    dim * i
  }

  /** What every index keeps: whole rows, one per id, and a table entry for exactly the stored ids. */
  predicate Shaped(ix: Index) {
    && |ix.vecs| == Start(ix.dim, |ix.ids|)
    && Distinct(ix.ids)
    && (forall id :: id in ix.idset ==> id in ix.ids)
    && (forall id :: id in ix.ids ==> id in ix.idset)
  }

  /** The table gives the row of every id. */
  predicate Agrees(ix: Index) {
    forall i :: 0 <= i < |ix.ids| ==> ix.ids[i] in ix.idset && ix.idset[ix.ids[i]] == i
  }

  lemma StartStep(dim: nat, i: nat)
    ensures Start(dim, i + 1) == Start(dim, i) + dim
  {
  }

  lemma {:induction false} RowsFit(dim: nat, i: nat, n: nat)
    requires i < n
    ensures Start(dim, i) + dim <= Start(dim, n)
    ensures i + 1 == n ==> Start(dim, i) + dim == Start(dim, n)
    decreases n
  {
    hide Start;
    StartStep(dim, n - 1);
    if i + 1 < n {
      RowsFit(dim, i, n - 1);
    }
  }

  function Row(ix: Index, i: nat): (row: seq<real>)
    requires Shaped(ix) && i < |ix.ids|
    ensures |row| == ix.dim
  {
    hide Start;
    RowsFit(ix.dim, i, |ix.ids|);
    ix.vecs[Start(ix.dim, i)..Start(ix.dim, i) + ix.dim]
  }

  ghost function Contents(ix: Index): map<nat, seq<real>>
    requires Shaped(ix)
  {
    map i | 0 <= i < |ix.ids| :: ix.ids[i] := Row(ix, i)
  }

  function New(dim: nat): (ix: Index)
    ensures Shaped(ix) && Agrees(ix) && Contents(ix) == map[]
  {
    Index(dim, [], [], map[])
  }

  /** `vecs` with `v` laid over it from `start`. */
  function Overwrite(vecs: seq<real>, start: nat, v: seq<real>): (r: seq<real>)
    requires start + |v| <= |vecs|
    ensures |r| == |vecs|
  {
    vecs[..start] + v + vecs[start + |v|..]
  }

  // ---------------------------------------------------------------- insert

  /** The row the table names must exist; otherwise the write is out of bounds and aborts. */
  predicate InsertDefined(ix: Index, id: nat, v: seq<real>) {
    |v| == ix.dim && id in ix.idset ==> Start(ix.dim, ix.idset[id]) + ix.dim <= |ix.vecs|
  }

  /** A vector of the wrong size is refused. */
  predicate Fits(ix: Index, v: seq<real>) {
    |v| == ix.dim
  }

  function Insert(ix: Index, id: nat, v: seq<real>): Index
    requires InsertDefined(ix, id, v)
  {
    if !Fits(ix, v) then ix
    else if id in ix.idset then ix.(vecs := Overwrite(ix.vecs, Start(ix.dim, ix.idset[id]), v))
    else Index(ix.dim, ix.vecs + v, ix.ids + [id], ix.idset[id := |ix.ids|])
  }

  lemma {:induction false} RowsApart(dim: nat, i: nat, j: nat)
    requires i != j
    ensures Start(dim, i) + dim <= Start(dim, j) || Start(dim, j) + dim <= Start(dim, i)
  {
    hide Start;
    if i < j {
      RowsFit(dim, i, j);
    } else {
      RowsFit(dim, j, i);
    }
  }

  lemma OverwriteSlices(vecs: seq<real>, start: nat, v: seq<real>, lo: nat, hi: nat)
    requires start + |v| <= |vecs| && lo <= hi <= |vecs|
    ensures hi <= start || start + |v| <= lo ==> Overwrite(vecs, start, v)[lo..hi] == vecs[lo..hi]
    ensures Overwrite(vecs, start, v)[start..start + |v|] == v
  {
    hide Start;
    var r := Overwrite(vecs, start, v);
    assert r[start..start + |v|] == v;
    if hi <= start {
      assert r[..start] == vecs[..start];
      assert r[lo..hi] == r[..start][lo..hi] == vecs[..start][lo..hi] == vecs[lo..hi];
    } else if start + |v| <= lo {
      var end := start + |v|;
      assert r[end..] == vecs[end..];
      assert r[lo..hi] == r[end..][lo - end..hi - end] == vecs[end..][lo - end..hi - end] == vecs[lo..hi];
    }
  }

  lemma UpdateRow(ix: Index, i: nat, v: seq<real>)
    requires Shaped(ix) && i < |ix.ids| && |v| == ix.dim
    ensures Start(ix.dim, i) + ix.dim <= |ix.vecs|
    ensures var ix' := ix.(vecs := Overwrite(ix.vecs, Start(ix.dim, i), v));
            Shaped(ix') && forall j :: 0 <= j < |ix.ids| ==> Row(ix', j) == if j == i then v else Row(ix, j)
  {
    hide Start;
    RowsFit(ix.dim, i, |ix.ids|);
    var ix' := ix.(vecs := Overwrite(ix.vecs, Start(ix.dim, i), v));
    forall j | 0 <= j < |ix.ids|
      ensures Row(ix', j) == if j == i then v else Row(ix, j)
    {
      RowsFit(ix.dim, j, |ix.ids|);
      OverwriteSlices(ix.vecs, Start(ix.dim, i), v, Start(ix.dim, j), Start(ix.dim, j) + ix.dim);
      if j != i {
        RowsApart(ix.dim, i, j);
      }
    }
  }

  lemma PushRow(ix: Index, id: nat, v: seq<real>)
    requires Shaped(ix) && id !in ix.ids && |v| == ix.dim
    ensures var ix' := Index(ix.dim, ix.vecs + v, ix.ids + [id], ix.idset[id := |ix.ids|]);
            Shaped(ix') && forall j :: 0 <= j <= |ix.ids| ==> Row(ix', j) == if j == |ix.ids| then v else Row(ix, j)
  {
    hide Start;
    var n := |ix.ids|;
    var ix' := Index(ix.dim, ix.vecs + v, ix.ids + [id], ix.idset[id := n]);
    RowsFit(ix.dim, n, n + 1);
    PushShaped(ix, id, v);
    hide Shaped;
    forall j | 0 <= j <= n
      ensures Row(ix', j) == if j == n then v else Row(ix, j)
    {
      if j < n {
        RowOfPrefix(ix, ix', j);
      } else {
        LastRowPushed(ix, id, v);
      }
    }
  }

  lemma PushShaped(ix: Index, id: nat, v: seq<real>)
    requires Shaped(ix) && id !in ix.ids && |v| == ix.dim
    ensures Shaped(Index(ix.dim, ix.vecs + v, ix.ids + [id], ix.idset[id := |ix.ids|]))
  {
    hide Start;
    RowsFit(ix.dim, |ix.ids|, |ix.ids| + 1);
  }

  lemma LastRowPushed(ix: Index, id: nat, v: seq<real>)
    requires Shaped(ix) && |v| == ix.dim
    requires Shaped(Index(ix.dim, ix.vecs + v, ix.ids + [id], ix.idset[id := |ix.ids|]))
    ensures Row(Index(ix.dim, ix.vecs + v, ix.ids + [id], ix.idset[id := |ix.ids|]), |ix.ids|) == v
  {
    hide Start;
    RowsFit(ix.dim, |ix.ids|, |ix.ids| + 1);
    var vecs := ix.vecs + v;
    assert vecs[|ix.vecs|..|ix.vecs| + |v|] == v;
  }

  lemma ContentsFacts(ix: Index)
    requires Shaped(ix)
    ensures forall id :: id in Contents(ix) <==> id in ix.ids
    ensures forall i :: 0 <= i < |ix.ids| ==> ix.ids[i] in Contents(ix) && Contents(ix)[ix.ids[i]] == Row(ix, i)
  {
    hide Start, Row;
  }

  lemma ContentsAre(ix: Index, m: map<nat, seq<real>>)
    requires Shaped(ix)
    requires forall id :: id in m <==> id in ix.ids
    requires forall i :: 0 <= i < |ix.ids| ==> ix.ids[i] in m && m[ix.ids[i]] == Row(ix, i)
    ensures Contents(ix) == m
  {
    hide Start, Row;
    ContentsFacts(ix);
    forall id | id in m
      ensures id in Contents(ix) && Contents(ix)[id] == m[id]
    {
      var i :| 0 <= i < |ix.ids| && ix.ids[i] == id;
    }
  }

  lemma UpdateContents(ix: Index, i: nat, v: seq<real>)
    requires Shaped(ix) && i < |ix.ids| && |v| == ix.dim
    ensures Start(ix.dim, i) + ix.dim <= |ix.vecs|
    ensures var ix' := ix.(vecs := Overwrite(ix.vecs, Start(ix.dim, i), v));
            Shaped(ix') && Contents(ix') == Contents(ix)[ix.ids[i] := v]
  {
    hide Start, Row, Contents, Overwrite;
    UpdateRow(ix, i, v);
    ContentsFacts(ix);
    ContentsAre(ix.(vecs := Overwrite(ix.vecs, Start(ix.dim, i), v)), Contents(ix)[ix.ids[i] := v]);
  }

  lemma PushContents(ix: Index, id: nat, v: seq<real>)
    requires Shaped(ix) && id !in ix.ids && |v| == ix.dim
    ensures var ix' := Index(ix.dim, ix.vecs + v, ix.ids + [id], ix.idset[id := |ix.ids|]);
            Shaped(ix') && Contents(ix') == Contents(ix)[id := v]
  {
    hide Start, Row, Contents;
    PushRow(ix, id, v);
    ContentsFacts(ix);
    ContentsAre(Index(ix.dim, ix.vecs + v, ix.ids + [id], ix.idset[id := |ix.ids|]), Contents(ix)[id := v]);
  }

  /** With an agreeing table, an insert is a map update, and the table goes on agreeing. */
  lemma InsertIsUpdate(ix: Index, id: nat, v: seq<real>)
    requires Shaped(ix) && Agrees(ix)
    ensures InsertDefined(ix, id, v)
    ensures Shaped(Insert(ix, id, v)) && Agrees(Insert(ix, id, v))
    ensures Contents(Insert(ix, id, v)) == if Fits(ix, v) then Contents(ix)[id := v] else Contents(ix)
  {
    hide Start, Row, Contents, Overwrite;
    if Fits(ix, v) {
      if id in ix.idset {
        var i :| 0 <= i < |ix.ids| && ix.ids[i] == id;
        UpdateContents(ix, i, v);
      } else {
        PushContents(ix, id, v);
      }
    }
  }

  /** Without it, an insert that does not abort still keeps the shape, but may write another id's row. */
  lemma InsertKeepsShape(ix: Index, id: nat, v: seq<real>)
    requires Shaped(ix) && InsertDefined(ix, id, v)
    ensures Shaped(Insert(ix, id, v))
  {
    hide Start;
    if Fits(ix, v) && id !in ix.idset {
      PushRow(ix, id, v);
    }
  }

  // ---------------------------------------------------------------- delete

  function Position(ids: seq<nat>, id: nat): (i: Option<nat>)
    ensures i.Some? <==> id in ids
    ensures i.Some? ==> i.value < |ids| && ids[i.value] == id && id !in ids[..i.value]
  {
    if |ids| == 0 then None
    else if ids[0] == id then Some(0)
    else
      match Position(ids[1..], id)
      case None => None
      case Some(k) =>
        assert ids[..k + 1] == [ids[0]] + ids[1..][..k];
        Some(k + 1)
  }

  /** The last element moves into the gap. */
  function SwapRemove<T>(xs: seq<T>, i: nat): seq<T>
    requires i < |xs|
  {
    xs[i := xs[|xs| - 1]][..|xs| - 1]
  }

  function DeleteRow(ix: Index, i: nat): Index
    requires Shaped(ix) && i < |ix.ids|
  {
    hide Start, Distinct;
    var last := Row(ix, |ix.ids| - 1);
    RowsFit(ix.dim, i, |ix.ids|);
    RowsFit(ix.dim, |ix.ids| - 1, |ix.ids|);
    Index(ix.dim,
          Overwrite(ix.vecs, Start(ix.dim, i), last)[..|ix.vecs| - ix.dim],
          SwapRemove(ix.ids, i),
          ix.idset - {ix.ids[i]})
  }

  function Delete(ix: Index, id: nat): Index
    requires Shaped(ix)
  {
    match Position(ix.ids, id)
    case None => ix
    case Some(i) => DeleteRow(ix, i)
  }

  lemma SwapRemoveDistinct(ids: seq<nat>, i: nat)
    requires Distinct(ids) && i < |ids|
    ensures Distinct(SwapRemove(ids, i))
    ensures forall id :: id in SwapRemove(ids, i) <==> id in ids && id != ids[i]
  {
    hide Start;
    var r, n := SwapRemove(ids, i), |ids| - 1;
    assert forall j :: 0 <= j < n ==> r[j] == if j == i then ids[n] else ids[j];
    forall id | id in ids && id != ids[i]
      ensures id in r
    {
      var j :| 0 <= j < |ids| && ids[j] == id;
      assert r[if j == n then i else j] == id;
    }
  }

  lemma RowOfPrefix(a: Index, b: Index, j: nat)
    requires Shaped(a) && Shaped(b) && a.dim == b.dim && a.vecs <= b.vecs && j < |a.ids| && j < |b.ids|
    ensures Row(a, j) == Row(b, j)
  {
    hide Start;
    RowsFit(a.dim, j, |a.ids|);
    assert a.vecs == b.vecs[..|a.vecs|];
  }

  lemma DeleteRowShaped(ix: Index, i: nat)
    requires Shaped(ix) && i < |ix.ids|
    ensures Shaped(DeleteRow(ix, i)) && |DeleteRow(ix, i).ids| == |ix.ids| - 1
  {
    hide Start, Distinct, Row, Overwrite;
    SwapRemoveDistinct(ix.ids, i);
    var n := |ix.ids| - 1;
    RowsFit(ix.dim, n, n + 1);
  }

  lemma DeleteRowRows(ix: Index, i: nat)
    requires Shaped(ix) && i < |ix.ids|
    ensures var ix', n := DeleteRow(ix, i), |ix.ids| - 1;
            Shaped(ix') && |ix'.ids| == n && forall j :: 0 <= j < n ==> Row(ix', j) == Row(ix, if j == i then n else j)
  {
    hide Start, Distinct, Row, Overwrite, Shaped;
    var ix', n := DeleteRow(ix, i), |ix.ids| - 1;
    DeleteRowShaped(ix, i);
    var last := Row(ix, n);
    UpdateRow(ix, i, last);
    var mid := ix.(vecs := Overwrite(ix.vecs, Start(ix.dim, i), last));
    assert ix'.vecs <= mid.vecs;
    forall j | 0 <= j < n
      ensures Row(ix', j) == Row(mid, j)
    {
      RowOfPrefix(ix', mid, j);
    }
  }

  lemma RemovedContents(ix: Index, i: nat)
    requires Shaped(ix) && i < |ix.ids|
    ensures Shaped(DeleteRow(ix, i)) && Contents(DeleteRow(ix, i)) == Contents(ix) - {ix.ids[i]}
  {
    hide Start, Row, Contents, DeleteRow, Distinct, SwapRemove;
    ContentsFacts(ix);
    DeleteRowRows(ix, i);
    DeleteRowIds(ix, i);
    SwapRemoveDistinct(ix.ids, i);
    SwapRemoveAt(ix.ids, i);
    hide Shaped;
    ContentsAre(DeleteRow(ix, i), Contents(ix) - {ix.ids[i]});
  }

  lemma SwapRemoveAt<T>(xs: seq<T>, i: nat)
    requires i < |xs|
    ensures |SwapRemove(xs, i)| == |xs| - 1
    ensures forall j :: 0 <= j < |xs| - 1 ==> SwapRemove(xs, i)[j] == xs[if j == i then |xs| - 1 else j]
  {
  }

  /** Deleting removes exactly that id's pair, in every index, although another row moves. */
  lemma DeleteIsRemoval(ix: Index, id: nat)
    requires Shaped(ix)
    ensures Shaped(Delete(ix, id)) && Contents(Delete(ix, id)) == Contents(ix) - {id}
  {
    hide Start, Row, Contents, DeleteRow;
    match Position(ix.ids, id)
    case None =>
      ContentsFacts(ix);
      assert Contents(ix) - {id} == Contents(ix);
    case Some(i) => RemovedContents(ix, i);
  }

  lemma DeleteRowIds(ix: Index, i: nat)
    requires Shaped(ix) && i < |ix.ids|
    ensures DeleteRow(ix, i).ids == SwapRemove(ix.ids, i) && DeleteRow(ix, i).idset == ix.idset - {ix.ids[i]}
    ensures DeleteRow(ix, i).dim == ix.dim
  {
    hide Start;
  }

  /** The table survives a delete exactly when nothing moved: the id was absent, or last. */
  lemma DeleteAgreesIff(ix: Index, id: nat)
    requires Shaped(ix) && Agrees(ix)
    ensures Agrees(Delete(ix, id)) <==> id !in ix.ids || ix.ids[|ix.ids| - 1] == id
  {
    hide Start, DeleteRow;
    match Position(ix.ids, id)
    case None =>
    case Some(i) =>
      DeleteRowIds(ix, i);
      var r, n := SwapRemove(ix.ids, i), |ix.ids| - 1;
      assert forall j :: 0 <= j < n ==> r[j] == if j == i then ix.ids[n] else ix.ids[j];
      if i < n {
        assert r[i] == ix.ids[n] && ix.idset[ix.ids[n]] == n;
      }
  }

  // ---------------------------------------------------------------- runs

  datatype Op = Put(id: nat, v: seq<real>) | Drop(id: nat)

  predicate Defined(ix: Index, op: Op) {
    op.Put? ==> InsertDefined(ix, op.id, op.v)
  }

  function Apply(ix: Index, op: Op): (ix': Index)
    requires Shaped(ix) && Defined(ix, op)
    ensures Shaped(ix')
  {
    match op
    case Put(id, v) => InsertKeepsShape(ix, id, v); Insert(ix, id, v)
    case Drop(id) => DeleteIsRemoval(ix, id); Delete(ix, id)
  }

  /** The run does not abort. */
  predicate Runs(ix: Index, ops: seq<Op>)
    requires Shaped(ix)
    decreases |ops|
  {
    |ops| == 0 || (Defined(ix, ops[0]) && Runs(Apply(ix, ops[0]), ops[1..]))
  }

  function Result(ix: Index, ops: seq<Op>): (ix': Index)
    requires Shaped(ix) && Runs(ix, ops)
    ensures Shaped(ix')
    decreases |ops|
  {
    if |ops| == 0 then ix else Result(Apply(ix, ops[0]), ops[1..])
  }

  /** The same run on a plain map. */
  function MapAfter(dim: nat, m: map<nat, seq<real>>, ops: seq<Op>): map<nat, seq<real>>
    decreases |ops|
  {
    if |ops| == 0 then m
    else
      match ops[0]
      case Put(id, v) => MapAfter(dim, if |v| == dim then m[id := v] else m, ops[1..])
      case Drop(id) => MapAfter(dim, m - {id}, ops[1..])
  }

  /** Every id that is dropped is absent or in the last row at that time; runs of inserts are tidy. */
  predicate Tidy(ix: Index, ops: seq<Op>)
    requires Shaped(ix)
    decreases |ops|
  {
    |ops| == 0 || (
      && Defined(ix, ops[0])
      && (ops[0].Drop? ==> ops[0].id !in ix.ids || ix.ids[|ix.ids| - 1] == ops[0].id)
      && Tidy(Apply(ix, ops[0]), ops[1..]))
  }

  lemma {:induction false} InsertsAreTidy(ix: Index, ops: seq<Op>)
    requires Shaped(ix) && Agrees(ix) && forall i :: 0 <= i < |ops| ==> ops[i].Put?
    ensures Tidy(ix, ops)
    decreases |ops|
  {
    hide Start, Shaped, Agrees, Insert;
    if |ops| > 0 {
      InsertIsUpdate(ix, ops[0].id, ops[0].v);
      InsertsAreTidy(Apply(ix, ops[0]), ops[1..]);
    }
  }

  lemma DimStays(ix: Index, op: Op)
    requires Shaped(ix) && Defined(ix, op)
    ensures Apply(ix, op).dim == ix.dim
  {
  }

  /** A tidy run never aborts and does to the index what the same run does to a map. */
  lemma {:induction false} RunRefinesMap(ix: Index, ops: seq<Op>)
    requires Shaped(ix) && Agrees(ix) && Tidy(ix, ops)
    ensures Runs(ix, ops) && Agrees(Result(ix, ops))
    ensures Contents(Result(ix, ops)) == MapAfter(ix.dim, Contents(ix), ops)
    decreases |ops|
  {
    hide Start, Shaped, Agrees, Insert, Delete, Contents;
    if |ops| > 0 {
      var op := ops[0];
      if op.Put? {
        InsertIsUpdate(ix, op.id, op.v);
      } else {
        DeleteIsRemoval(ix, op.id);
        DeleteAgreesIff(ix, op.id);
      }
      DimStays(ix, op);
      RunRefinesMap(Apply(ix, op), ops[1..]);
    }
  }

  // ---------------------------------------------------------------- what a stale table does

  /** After `id`, not in the last row, is deleted: the last row's id is still listed at its old place. */
  lemma MovedIdIsStale(ix: Index, i: nat)
    requires Shaped(ix) && Agrees(ix) && i < |ix.ids| - 1
    ensures var ix', n := Delete(ix, ix.ids[i]), |ix.ids| - 1;
            && Shaped(ix') && ix'.dim == ix.dim && |ix'.ids| == n && |ix'.vecs| == Start(ix.dim, n)
            && ix.ids[n] in ix'.idset && ix'.idset[ix.ids[n]] == n
  {
    hide Start, DeleteRow, Row;
    DeleteRowShaped(ix, i);
    DeleteRowIds(ix, i);
    assert Position(ix.ids, ix.ids[i]) == Some(i);
  }

  /** Updating the moved id then writes past the end, and aborts. */
  lemma StaleInsertAborts(ix: Index, i: nat, v: seq<real>)
    requires Shaped(ix) && Agrees(ix) && i < |ix.ids| - 1 && |v| == ix.dim
    ensures InsertDefined(Delete(ix, ix.ids[i]), ix.ids[|ix.ids| - 1], v) <==> ix.dim == 0
  {
    hide Start, Delete;
    MovedIdIsStale(ix, i);
  }

  /** If a new id has taken that place in between, the update lands on the new id's vector. */
  lemma StaleInsertHitsAnother(ix: Index, i: nat, newId: nat, u: seq<real>, v: seq<real>)
    requires Shaped(ix) && Agrees(ix) && i < |ix.ids| - 1 && |u| == |v| == ix.dim
    requires newId !in ix.ids
    ensures var moved := ix.ids[|ix.ids| - 1];
            var ops := [Drop(ix.ids[i]), Put(newId, u), Put(moved, v)];
            Runs(ix, ops) && Contents(Result(ix, ops)) == (Contents(ix) - {ix.ids[i]})[newId := v]
  {
    hide Start, Shaped, Agrees, Delete, Contents, Overwrite;
    var id, n := ix.ids[i], |ix.ids| - 1;
    var moved := ix.ids[n];
    var ops := [Drop(id), Put(newId, u), Put(moved, v)];
    MovedIdIsStale(ix, i);
    DeleteIsRemoval(ix, id);
    var a := Delete(ix, id);
    FreshStays(ix, id, newId);
    PushContents(a, newId, u);
    var b := Index(a.dim, a.vecs + u, a.ids + [newId], a.idset[newId := n]);
    assert Apply(ix, ops[0]) == a && Apply(a, ops[1]) == b;
    assert b.ids[n] == newId && b.idset[moved] == n;
    UpdateContents(b, n, v);
    assert ops[1..][1..] == ops[2..] && ops[2..][1..] == [];
    assert Runs(b, ops[2..]);
    var after := b.(vecs := Overwrite(b.vecs, Start(b.dim, n), v));
    assert Apply(b, ops[2]) == after;
    assert Result(b, ops[2..]) == after;
    assert Contents(a)[newId := u][newId := v] == Contents(a)[newId := v];
  }

  lemma FreshStays(ix: Index, id: nat, newId: nat)
    requires Shaped(ix) && newId !in ix.ids
    ensures newId !in Delete(ix, id).ids && newId !in Delete(ix, id).idset
  {
    hide Start, DeleteRow, Row;
    if id in ix.ids {
      var i := Position(ix.ids, id).value;
      DeleteRowIds(ix, i);
      SwapRemoveDistinct(ix.ids, i);
    }
  }
}
