/** Records as lists of cells: what a field is called, what it holds, and what that takes on the wire. */
module WireRecords {
  import opened Messages
  import opened Text
  import opened Wire
  import opened WireRoundTrip

  datatype Cell =
    | Words(name: string, s: string)
    | Num(name: string, n: nat)
    | Int(name: string, i: int)
    | Flag(name: string, b: bool)
    | Opt(name: string, o: Option<nat>)
    | Items(name: string, xs: seq<string>)
    | Vecs(name: string, vs: seq<VecReq>)
    | Nested(name: string, ty: Ty, v: Val)

  function StrVals(xs: seq<string>): seq<Val> {
    seq(|xs|, i requires 0 <= i < |xs| => VStr(xs[i]))
  }

  function FloatVals(fs: seq<Float>): seq<Val> {
    seq(|fs|, i requires 0 <= i < |fs| => VFloat(fs[i].text))
  }

  function VecReqTy(): Ty {
    TRecord([Field("id", TNat), Field("vec", TVec(TFloat))])
  }

  function VecReqVal(v: VecReq): Val {
    VRecord([FieldVal("id", VNat(v.id)), FieldVal("vec", VVec(FloatVals(v.vec)))])
  }

  function VecReqVals(vs: seq<VecReq>): seq<Val> {
    seq(|vs|, i requires 0 <= i < |vs| => VecReqVal(vs[i]))
  }

  function CellTy(cell: Cell): Ty {
    match cell
    case Words(_, _) => TStr
    case Num(_, _) => TNat
    case Int(_, _) => TInt
    case Flag(_, _) => TBool
    case Opt(_, _) => TOpt(TNat)
    case Items(_, _) => TVec(TStr)
    case Vecs(_, _) => TVec(VecReqTy())
    case Nested(_, ty, _) => ty
  }

  function CellVal(cell: Cell): Val {
    match cell
    case Words(_, s) => VStr(s)
    case Num(_, n) => VNat(n)
    case Int(_, i) => VInt(i)
    case Flag(_, b) => VBool(b)
    case Opt(_, o) => if o.Some? then VSome(VNat(o.value)) else VNone
    case Items(_, xs) => VVec(StrVals(xs))
    case Vecs(_, vs) => VVec(VecReqVals(vs))
    case Nested(_, _, v) => v
  }

  // ---------------------------------------------------------------- what can be carried, and told apart

  predicate ItemsCarriable(xs: seq<string>) {
    forall s :: s in xs ==> SafeString(s) && (',' !in s || ' ' in s)
  }

  predicate EndsEmpty(xs: seq<string>) {
    |xs| > 0 && xs[|xs| - 1] == ""
  }

  predicate VecCarriable(v: VecReq) {
    v.id <= MAX_U64 && forall f :: f in v.vec ==> FloatText(f.text)
  }

  /** Strings are safe, numbers in range, and items of a list free of bare commas. */
  predicate Carriable(cell: Cell) {
    match cell
    case Words(_, s) => SafeString(s)
    case Num(_, n) => n <= MAX_U64
    case Int(_, i) => MIN_I64 <= i <= MAX_I64
    case Flag(_, _) => true
    case Opt(_, o) => o.Some? ==> o.value <= MAX_U64
    case Items(_, xs) => ItemsCarriable(xs)
    case Vecs(_, vs) => forall v :: v in vs ==> VecCarriable(v)
    case Nested(_, ty, v) => Typed(ty, v) && !v.VStr?
  }

  /** A string is not spelled None, and a list does not end in an empty item. */
  predicate Definite(cell: Cell) {
    match cell
    case Words(_, s) => s != "None"
    case Items(_, xs) => !EndsEmpty(xs)
    case Nested(_, _, v) => Lossless(v)
    case _ => true
  }

  // ---------------------------------------------------------------- one cell

  /** A list is typed when its elements are. */
  lemma VecTyped(e: Ty, es: seq<Val>)
    requires WellFormed(e) && !e.TVec? && !e.TOpt?
    requires forall i :: 0 <= i < |es| ==> Typed(e, es[i]) && NoBareComma(es[i])
    ensures Typed(TVec(e), VVec(es))
  {
    hide Typed;
    forall x | x in es
      ensures HasType(e, x) && Safe(x) && NoBareComma(x)
    {
      var i :| 0 <= i < |es| && es[i] == x;
      TypedFacts(e, es[i]);
    }
    IsTyped(TVec(e), VVec(es));
  }

  lemma TypedFacts(ty: Ty, v: Val)
    ensures Typed(ty, v) <==> WellFormed(ty) && HasType(ty, v) && Safe(v)
  {
  }

  lemma IsTyped(ty: Ty, v: Val)
    requires WellFormed(ty) && HasType(ty, v) && Safe(v)
    ensures Typed(ty, v)
  {
  }

  lemma VecLossless(es: seq<Val>)
    requires |es| > 0 ==> !es[|es| - 1].VStr?
    ensures Lossless(VVec(es)) <==> forall i :: 0 <= i < |es| ==> Lossless(es[i])
  {
    assert forall i :: 0 <= i < |es| ==> es[i] in es;
  }

  lemma ItemsFacts(xs: seq<string>)
    requires ItemsCarriable(xs)
    ensures Typed(TVec(TStr), VVec(StrVals(xs))) && (Lossless(VVec(StrVals(xs))) <==> !EndsEmpty(xs))
  {
    hide SafeString;
    VecTyped(TStr, StrVals(xs));
  }

  lemma FloatsFacts(fs: seq<Float>)
    requires forall f :: f in fs ==> FloatText(f.text)
    ensures Typed(TVec(TFloat), VVec(FloatVals(fs))) && Lossless(VVec(FloatVals(fs)))
  {
    hide FloatText;
    VecTyped(TFloat, FloatVals(fs));
    VecLossless(FloatVals(fs));
  }

  lemma {:induction false} DigitsAreNotNone(s: string)
    requires AllDigits(s)
    ensures !Contains(s, "None")
  {
    if s != "" {
      assert IsDigit(s[0]);
      DigitsAreNotNone(s[1..]);
    }
  }

  /** A present number is never printed as an absent one. */
  lemma PresentIsLossless(n: nat)
    ensures Lossless(VSome(VNat(n)))
  {
    NatTextValue(n);
    DigitsAreNotNone(NatText(n));
    assert Print(VNat(n)) == NatText(n);
  }

  lemma VecReqTyFacts()
    ensures VecReqTy().TRecord? && WellFormed(VecReqTy())
  {
    hide WellFormed, FieldGood;
    GoodField("id", TNat);
    GoodField("vec", TVec(TFloat));
    RecordTyGood(VecReqTy().fields);
  }

  lemma VecReqFacts(v: VecReq)
    requires VecCarriable(v)
    ensures Typed(VecReqTy(), VecReqVal(v)) && Lossless(VecReqVal(v)) && VecReqVal(v).VRecord?
  {
    hide Typed, Lossless, WellFormed, FieldOk, FieldKept, FloatVals, FloatText;
    VecReqTyFacts();
    NumberField("id", v.id);
    FloatsFacts(v.vec);
    ListField("vec", TVec(TFloat), VVec(FloatVals(v.vec)));
    TypedRecord(VecReqTy().fields, VecReqVal(v).members);
  }

  lemma VecsFacts(vs: seq<VecReq>)
    requires forall v :: v in vs ==> VecCarriable(v)
    ensures Typed(TVec(VecReqTy()), VVec(VecReqVals(vs))) && Lossless(VVec(VecReqVals(vs)))
  {
    hide VecCarriable, VecReqTy, VecReqVal, Typed, Lossless, WellFormed;
    VecReqTyFacts();
    forall i | 0 <= i < |vs|
      ensures Typed(VecReqTy(), VecReqVal(vs[i])) && Lossless(VecReqVal(vs[i])) && VecReqVal(vs[i]).VRecord?
    {
      VecReqFacts(vs[i]);
    }
    VecTyped(VecReqTy(), VecReqVals(vs));
    VecLossless(VecReqVals(vs));
  }

  /** A carriable cell is typed, and survives as a field exactly when it is definite. */
  lemma CellFacts(cell: Cell)
    requires Carriable(cell)
    ensures Typed(CellTy(cell), CellVal(cell))
    ensures FieldKept(FieldVal(cell.name, CellVal(cell))) <==> Definite(cell)
  {
    hide SafeString, StrVals, VecReqVals, VecReqTy;
    match cell
    case Items(_, xs) => ItemsFacts(xs);
    case Vecs(_, vs) => VecsFacts(vs);
    case Opt(_, o) => if o.Some? { PresentIsLossless(o.value); }
    case _ =>
  }

  // ---------------------------------------------------------------- fields and records

  predicate FieldGood(f: Field) {
    Plain(f.name) && WellFormed(f.ty)
  }

  predicate FieldOk(field: Field, f: FieldVal) {
    field.name == f.name && HasType(field.ty, f.val) && Safe(f.val)
  }

  lemma GoodField(name: string, ty: Ty)
    requires Plain(name) && (ty.TNat? || ty == TVec(TFloat) || WellFormed(ty))
    ensures FieldGood(Field(name, ty))
  {
  }

  lemma NumberField(name: string, n: nat)
    requires n <= MAX_U64
    ensures FieldOk(Field(name, TNat), FieldVal(name, VNat(n))) && FieldKept(FieldVal(name, VNat(n)))
  {
  }

  lemma ListField(name: string, ty: Ty, v: Val)
    requires Typed(ty, v) && v.VVec?
    ensures FieldOk(Field(name, ty), FieldVal(name, v)) && (FieldKept(FieldVal(name, v)) <==> Lossless(v))
  {
  }

  /** Names that differ in length or in their first letter. */
  predicate Apart(a: string, b: string) {
    |a| != |b| || (|a| > 0 && a[0] != b[0])
  }

  lemma RecordTyGood(fields: seq<Field>)
    requires forall i :: 0 <= i < |fields| ==> FieldGood(fields[i])
    requires forall i, j :: 0 <= i < j < |fields| ==> Apart(fields[i].name, fields[j].name)
    ensures WellFormed(TRecord(fields))
  {
  }

  /** A record is typed and lossless when its fields are, one by one. */
  lemma TypedRecord(fields: seq<Field>, fs: seq<FieldVal>)
    requires WellFormed(TRecord(fields)) && |fields| == |fs|
    requires forall i :: 0 <= i < |fs| ==> FieldOk(fields[i], fs[i])
    ensures Typed(TRecord(fields), VRecord(fs))
    ensures Lossless(VRecord(fs)) <==> forall i :: 0 <= i < |fs| ==> FieldKept(fs[i])
  {
    FieldsTyped(fields, fs);
    assert forall i :: 0 <= i < |fs| ==> fs[i] in fs;
  }

  lemma {:induction false} FieldsTyped(fields: seq<Field>, fs: seq<FieldVal>)
    requires |fields| == |fs|
    requires forall i :: 0 <= i < |fs| ==> FieldOk(fields[i], fs[i])
    ensures FieldsHaveType(fields, fs)
  {
    hide HasType, Safe;
    if |fs| > 0 {
      FieldsTyped(fields[1..], fs[1..]);
    }
  }

  function FieldsOf(cells: seq<Cell>): (fields: seq<Field>)
    ensures |fields| == |cells|
    ensures forall i :: 0 <= i < |cells| ==> fields[i] == Field(cells[i].name, CellTy(cells[i]))
  {
    seq(|cells|, i requires 0 <= i < |cells| => Field(cells[i].name, CellTy(cells[i])))
  }

  function MembersOf(cells: seq<Cell>): (fs: seq<FieldVal>)
    ensures |fs| == |cells|
    ensures forall i :: 0 <= i < |cells| ==> fs[i] == FieldVal(cells[i].name, CellVal(cells[i]))
  {
    seq(|cells|, i requires 0 <= i < |cells| => FieldVal(cells[i].name, CellVal(cells[i])))
  }

  /** The names are identifiers, told apart by length or first letter. */
  predicate Named(cells: seq<Cell>) {
    && (forall i :: 0 <= i < |cells| ==> Plain(cells[i].name))
    && forall i, j :: 0 <= i < j < |cells| ==> Apart(cells[i].name, cells[j].name)
  }

  predicate AllCarriable(cells: seq<Cell>) {
    forall i :: 0 <= i < |cells| ==> Carriable(cells[i])
  }

  predicate AllDefinite(cells: seq<Cell>) {
    forall i :: 0 <= i < |cells| ==> Definite(cells[i])
  }

  /** One fact for every record: carriable cells make a typed record, lossless exactly when all are definite. */
  lemma RecordFacts(cells: seq<Cell>)
    requires Named(cells) && AllCarriable(cells)
    ensures Typed(TRecord(FieldsOf(cells)), VRecord(MembersOf(cells)))
    ensures Lossless(VRecord(MembersOf(cells))) <==> AllDefinite(cells)
  {
    hide CellTy, CellVal, Carriable, Definite, FieldKept, FieldOk, FieldGood, WellFormed, Plain, Apart, Typed, Lossless;
    var fields, fs := FieldsOf(cells), MembersOf(cells);
    forall i | 0 <= i < |cells|
      ensures FieldGood(fields[i]) && FieldOk(fields[i], fs[i]) && (FieldKept(fs[i]) <==> Definite(cells[i]))
    {
      CellFacts(cells[i]);
      TypedField(cells[i].name, CellTy(cells[i]), CellVal(cells[i]));
    }
    RecordTyGood(fields);
    TypedRecord(fields, fs);
  }

  lemma TypedField(name: string, ty: Ty, v: Val)
    requires Plain(name) && Typed(ty, v)
    ensures FieldGood(Field(name, ty)) && FieldOk(Field(name, ty), FieldVal(name, v))
  {
  }

  // ---------------------------------------------------------------- reading cells back

  function At(v: Val, i: nat): Val {
    if v.VRecord? && i < |v.members| then v.members[i].val else VNone
  }

  function ElemsOf(v: Val): seq<Val> {
    if v.VVec? then v.elems else []
  }

  function NatOf(v: Val): nat { if v.VNat? then v.n else 0 }
  function IntOf(v: Val): int { if v.VInt? then v.i else 0 }
  function BoolOf(v: Val): bool { v.VBool? && v.b }
  function StrOf(v: Val): string { if v.VStr? then v.s else "" }
  function OptOf(v: Val): Option<nat> { if v.VSome? then Some(NatOf(v.val)) else None }

  function StrsOf(v: Val): seq<string> {
    seq(|ElemsOf(v)|, i requires 0 <= i < |ElemsOf(v)| => StrOf(ElemsOf(v)[i]))
  }

  function FloatsOf(v: Val): seq<Float> {
    var es := ElemsOf(v);
    seq(|es|, i requires 0 <= i < |es| => Float(if es[i].VFloat? then es[i].text else ""))
  }

  function VecReqsOf(v: Val): seq<VecReq> {
    var es := ElemsOf(v);
    seq(|es|, i requires 0 <= i < |es| => VecReq(NatOf(At(es[i], 0)), FloatsOf(At(es[i], 1))))
  }

  /** What a cell holds is what its value reads back as. */
  lemma CellReadBack(cell: Cell)
    ensures match cell
            case Words(_, s) => StrOf(CellVal(cell)) == s
            case Num(_, n) => NatOf(CellVal(cell)) == n
            case Int(_, i) => IntOf(CellVal(cell)) == i
            case Flag(_, b) => BoolOf(CellVal(cell)) == b
            case Opt(_, o) => OptOf(CellVal(cell)) == o
            case Items(_, xs) => StrsOf(CellVal(cell)) == xs
            case Vecs(_, vs) => VecReqsOf(CellVal(cell)) == vs
            case Nested(_, _, _) => true
  {
    if cell.Vecs? {
      forall i | 0 <= i < |cell.vs|
        ensures VecReqsOf(CellVal(cell))[i] == cell.vs[i]
      {
        assert FloatsOf(VVec(FloatVals(cell.vs[i].vec))) == cell.vs[i].vec;
      }
    }
  }
}
