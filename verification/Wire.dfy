/**
 The printers and readers of the wire format, for every type the derive macro can build: numbers,
 booleans, strings, options, lists, records with named fields, and enums with payloads.
 */
module Wire {
  import opened Text
  import opened Scanners

  datatype Ty =
    | TNat
    | TInt
    | TFloat
    | TBool
    | TStr
    | TOpt(elem: Ty)
    | TVec(elem: Ty)
    | TRecord(fields: seq<Field>)
    | TEnum(cases: seq<Field>)

  datatype Field = Field(name: string, ty: Ty)

  datatype Val =
    | VNat(n: nat)
    | VInt(i: int)
    | VFloat(text: string)
    | VBool(b: bool)
    | VStr(s: string)
    | VNone
    | VSome(val: Val)
    | VVec(elems: seq<Val>)
    | VRecord(members: seq<FieldVal>)
    | VCase(name: string, payload: Val)
    | VUnknown

  datatype FieldVal = FieldVal(name: string, val: Val)

  const MAX_U64: nat := 0xFFFF_FFFF_FFFF_FFFF
  const MIN_I64: int := -0x8000_0000_0000_0000
  const MAX_I64: int := 0x7FFF_FFFF_FFFF_FFFF

  predicate IsFloatChar(c: char) {
    IsDigit(c) || c == '.' || c == '-' || c == 'N' || c == 'a' || c == 'i' || c == 'n' || c == 'f'
  }

  /** The alphabet of printed floats: decimal numbers without exponent, `NaN` and `inf`. */
  predicate FloatText(s: string) {
    s != "" && forall i :: 0 <= i < |s| ==> IsFloatChar(s[i])
  }

  // ---------------------------------------------------------------- printing

  function Print(v: Val): string {
    match v
    case VNat(n) => NatText(n)
    case VInt(i) => IntText(i)
    case VFloat(t) => t
    case VBool(b) => if b then "true" else "false"
    case VStr(s) => PrintString(s)
    case VNone => "None"
    case VSome(x) => Print(x)
    case VVec(es) => "[" + Join(PrintAll(es), ",") + "]"
    case VRecord(fs) => "{" + Join(ShownAll(Pairs(fs)), " ") + "}"
    case VCase(name, p) => name + "(" + Print(p) + ")"
    case VUnknown => "Unknown"
  }

  function PrintAll(es: seq<Val>): (r: seq<string>)
    ensures |r| == |es|
    ensures forall i :: 0 <= i < |es| ==> r[i] == Print(es[i])
  {
    if |es| == 0 then [] else [Print(es[0])] + PrintAll(es[1..])
  }

  /** The fields that are printed: those whose own text is not `None`. */
  function Pairs(fs: seq<FieldVal>): seq<Pair> {
    if |fs| == 0 then []
    else
      var text := Print(fs[0].val);
      (if text != "None" then [Pair(fs[0].name, text)] else []) + Pairs(fs[1..])
  }

  lemma PartsStep(fs: seq<FieldVal>)
    requires |fs| > 0
    ensures var text := Print(fs[0].val);
            ShownAll(Pairs(fs)) == (if text != "None" then [fs[0].name + "=" + text] else []) + ShownAll(Pairs(fs[1..]))
  {
    var rest := Pairs(fs[1..]);
    if Print(fs[0].val) != "None" {
      assert ([Pair(fs[0].name, Print(fs[0].val))] + rest)[1..] == rest;
    } else {
      assert [] + rest == rest;
    }
  }

  /** The generated record printer: one conditional push after another. */
  method PrintRecord(fs: seq<FieldVal>) returns (text: string)
    ensures text == Print(VRecord(fs))
  {
    hide Pairs, ShownAll;
    var parts: seq<string> := [];
    assert fs[0..] == fs;
    for i := 0 to |fs|
      invariant parts + ShownAll(Pairs(fs[i..])) == ShownAll(Pairs(fs))
    {
      PartsStep(fs[i..]);
      assert fs[i..][1..] == fs[i + 1..];
      var serialized := Print(fs[i].val);
      if serialized != "None" {
        parts := parts + [fs[i].name + "=" + serialized];
      }
    }
    assert fs[|fs|..] == [];
    NoParts();
    assert parts + [] == parts;
    text := "{" + Join(parts, " ") + "}";
  }

  lemma NoParts()
    ensures ShownAll(Pairs([])) == []
  {
  }

  // ---------------------------------------------------------------- reading

  function Braceless(text: string): string {
    var s := Trim(text);
    if s != "" && s[0] == '{' && s[|s| - 1] == '}' then s[1..|s| - 1] else s
  }

  predicate HasCase(cases: seq<Field>, name: string) {
    |cases| > 0 && (cases[0].name == name || HasCase(cases[1..], name))
  }

  /** The position of the first opening parenthesis. */
  function FindOpen(s: string): (i: nat)
    requires '(' in s
    ensures i < |s| && s[i] == '(' && '(' !in s[..i]
  {
    if s[0] == '(' then 0 else
      assert s == [s[0]] + s[1..];
      var k := FindOpen(s[1..]);
      assert s[..k + 1] == [s[0]] + s[1..][..k];
      k + 1
  }

  function Read(ty: Ty, s: string): Parsed<Val>
    decreases ty, 0
  {
    match ty
    case TNat => (match ReadNat(s, MAX_U64) case Ok(n) => Ok(VNat(n)) case Err(e) => Err(e) case Panic => Panic)
    case TInt =>
      (match ReadInt(s, MIN_I64, MAX_I64) case Ok(i) => Ok(VInt(i)) case Err(e) => Err(e) case Panic => Panic)
    case TFloat => if FloatText(s) then Ok(VFloat(s)) else Err(BadNumber)
    case TBool => if s == "true" then Ok(VBool(true)) else if s == "false" then Ok(VBool(false)) else Err(BadBool)
    case TStr => (match ReadString(s) case Ok(x) => Ok(VStr(x)) case Err(e) => Err(e) case Panic => Panic)
    case TOpt(e) =>
      // an error below an option is unwrapped, which aborts
      if Contains(s, "None") || s == "" then Ok(VNone)
      else (match Read(e, s) case Ok(x) => Ok(VSome(x)) case Err(_) => Panic case Panic => Panic)
    case TVec(e) =>
      var inner := StripEnd(']', StripStart('[', Trim(s)));
      if inner == "" then Ok(VVec([]))
      else (match ReadAll(e, Pieces(inner)) case Ok(es) => Ok(VVec(es)) case Err(r) => Err(r) case Panic => Panic)
    case TRecord(fields) =>
      var found := KeyValues(Braceless(s));
      (match ReadFields(fields, found) case Ok(fs) => Ok(VRecord(fs)) case Err(r) => Err(r) case Panic => Panic)
    case TEnum(cases) =>
      var t := Trim(s);
      if '(' !in t then
        if HasCase(cases, t) then Err(NeedsPayload(t)) else Ok(VUnknown)
      else
        var start := FindOpen(t);
        var payload := t[start + 1..];
        match CloseFrom(payload, 0, 1)
        case None => Err(UnmatchedParenthesis)
        case Some(end) => ReadCase(cases, Trim(t[..start]), payload[..end])
  }

  /** The first failing element decides. */
  function ReadAll(ty: Ty, pieces: seq<string>): Parsed<seq<Val>>
    decreases ty, 1, |pieces|
  {
    if |pieces| == 0 then Ok([])
    else
      match Read(ty, pieces[0])
      case Err(r) => Err(r)
      case Panic => Panic
      case Ok(x) =>
        match ReadAll(ty, pieces[1..])
        case Ok(xs) => Ok([x] + xs)
        case Err(r) => Err(r)
        case Panic => Panic
  }

  function ReadField(f: Field, found: map<string, string>): Parsed<Val>
    decreases f, 1
  {
    if f.name in found then Read(f.ty, found[f.name])
    else if f.ty.TOpt? then Ok(VNone)
    else Err(MissingField(f.name))
  }

  function ReadFields(fields: seq<Field>, found: map<string, string>): Parsed<seq<FieldVal>>
    decreases fields, 0
  {
    if |fields| == 0 then Ok([])
    else
      match ReadField(fields[0], found)
      case Err(r) => Err(r)
      case Panic => Panic
      case Ok(x) =>
        match ReadFields(fields[1..], found)
        case Ok(xs) => Ok([FieldVal(fields[0].name, x)] + xs)
        case Err(r) => Err(r)
        case Panic => Panic
  }

  /** A variant that is not listed reads as the unit variant, whatever its payload. */
  function ReadCase(cases: seq<Field>, name: string, inner: string): Parsed<Val>
    decreases cases, 0
  {
    if |cases| == 0 then Ok(VUnknown)
    else if cases[0].name != name then ReadCase(cases[1..], name, inner)
    else (match Read(cases[0].ty, inner) case Ok(p) => Ok(VCase(name, p)) case Err(r) => Err(r) case Panic => Panic)
  }

  // ---------------------------------------------------------------- types

  predicate PlainChar(c: char) {
    IsDigit(c) || 'a' <= c <= 'z' || 'A' <= c <= 'Z' || c == '_' || c == '-' || c == '.'
  }

  predicate Plain(t: string) {
    t != "" && forall i :: 0 <= i < |t| ==> PlainChar(t[i])
  }

  predicate DistinctNames(fields: seq<Field>) {
    forall i, j :: 0 <= i < j < |fields| ==> fields[i].name != fields[j].name
  }

  /**
   Names are identifiers, record fields have different names, enum payloads are records, and list
   elements are not themselves lists or options, whose brackets the list reader would strip.
   */
  predicate WellFormed(ty: Ty) {
    match ty
    case TOpt(e) => WellFormed(e)
    case TVec(e) => !e.TVec? && !e.TOpt? && WellFormed(e)
    case TRecord(fields) => DistinctNames(fields) && forall f :: f in fields ==> Plain(f.name) && WellFormed(f.ty)
    case TEnum(cases) => forall f :: f in cases ==>
      Plain(f.name) && f.name != "Unknown" && f.ty.TRecord? && WellFormed(f.ty)
    case _ => true
  }

  predicate HasType(ty: Ty, v: Val)
    decreases ty, 0
  {
    match ty
    case TNat => v.VNat? && v.n <= MAX_U64
    case TInt => v.VInt? && MIN_I64 <= v.i <= MAX_I64
    case TFloat => v.VFloat? && FloatText(v.text)
    case TBool => v.VBool?
    case TStr => v.VStr?
    case TOpt(e) => v.VNone? || (v.VSome? && HasType(e, v.val))
    case TVec(e) => v.VVec? && forall x :: x in v.elems ==> HasType(e, x)
    case TRecord(fields) => v.VRecord? && FieldsHaveType(fields, v.members)
    case TEnum(cases) => v.VUnknown? || (v.VCase? && CaseHasType(cases, v.name, v.payload))
  }

  predicate FieldsHaveType(fields: seq<Field>, fs: seq<FieldVal>)
    decreases fields, 0
  {
    |fields| == |fs|
    && (|fields| > 0 ==>
    && fields[0].name == fs[0].name
    && HasType(fields[0].ty, fs[0].val)
    && FieldsHaveType(fields[1..], fs[1..]))
  }

  predicate CaseHasType(cases: seq<Field>, name: string, payload: Val)
    decreases cases, 0
  {
    |cases| > 0 && (if cases[0].name == name then HasType(cases[0].ty, payload)
      else CaseHasType(cases[1..], name, payload))
  }
}
