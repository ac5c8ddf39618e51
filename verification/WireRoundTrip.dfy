/** Reading what was printed gives the value back: exactly when, for every type and every safe value. */
module WireRoundTrip {
  import opened Messages
  import opened Text
  import opened Scanners
  import opened Wire

  /**
   Strings the scanners can carry: no quote, parentheses that match, and, unless a space makes
   the printer quote the string, no bracket or brace and no white space at the ends.
   */
  predicate SafeString(s: string) {
    && '"' !in s
    && Closed(s)
    && (' ' in s || (Tight(s) && Unstructured(s)))
  }

  /** Every string is safe, and a string in a list has no comma unless it is quoted. */
  predicate Safe(v: Val) {
    match v
    case VStr(s) => SafeString(s)
    case VSome(x) => Safe(x)
    case VVec(es) => forall x :: x in es ==> Safe(x) && NoBareComma(x)
    case VRecord(fs) => forall f :: f in fs ==> Safe(f.val)
    case VCase(_, p) => Safe(p)
    case _ => true
  }

  predicate NoBareComma(v: Val) {
    v.VStr? ==> ',' !in v.s || ' ' in v.s
  }

  /**
   The values the format can tell apart: no record field is the string `None`, which is printed as an
   absent field; no list ends in the empty string, which the list reader drops; and no present option
   prints as an absent one.
   */
  predicate Lossless(v: Val) {
    match v
    case VSome(x) => Lossless(x) && Print(x) != "" && !Contains(Print(x), "None")
    case VVec(es) => (forall x :: x in es ==> Lossless(x)) && (|es| > 0 ==> es[|es| - 1] != VStr(""))
    case VRecord(fs) => forall f :: f in fs ==> Lossless(f.val) && f.val != VStr("None")
    case VCase(_, p) => Lossless(p)
    case _ => true
  }

  // ---------------------------------------------------------------- the shape of printed text

  /** What a record scanner needs of a field's text, and an enum reader of a payload. */
  predicate Carried(t: string) {
    Neutral(t, Some(' ')) && Tight(t) && Closed(t)
  }

  /** What a list reader needs of an element's text besides. */
  predicate Listed(t: string) {
    Neutral(t, Some(',')) && (t != "" ==> t[0] != '[' && t[|t| - 1] != ']')
  }

  lemma PlainIsCarried(t: string)
    requires Plain(t)
    ensures Carried(t) && Listed(t) && IsName(t) && '(' !in t
  {
    NeutralAtom(t, Some(' '));
    NeutralAtom(t, Some(','));
    ClosedPlain(t);
  }

  lemma NumberIsPlain(n: int)
    ensures Plain(IntText(n)) && IntText(n) != "None"
    ensures n >= 0 ==> IntText(n) == NatText(n)
  {
    NatTextValue(if n < 0 then -n else n);
    assert IsDigit(NatText(if n < 0 then -n else n)[0]);
  }

  lemma FloatIsPlain(t: string)
    requires FloatText(t)
    ensures Plain(t) && t != "None"
  {
    if |t| == 4 {
      assert IsFloatChar(t[1]);
    }
  }

  lemma {:induction false} EscapeIdle(s: string)
    requires '"' !in s
    ensures Escape(s) == s
  {
    if s != "" {
      EscapeIdle(s[1..]);
    }
  }

  lemma StringIsCarried(s: string)
    requires SafeString(s)
    ensures Carried(PrintString(s))
    ensures (',' !in s || ' ' in s) ==> Listed(PrintString(s))
    ensures PrintString(s) == "" ==> s == ""
    ensures PrintString(s) == "None" ==> s == "None"
  {
    hide Neutral, Closed;
    if ' ' in s {
      EscapeIdle(s);
      var p := "\"" + s + "\"";
      NeutralQuoted(s, Some(' '));
      NeutralQuoted(s, Some(','));
      ClosedPlain("\"");
      ClosedConcat("\"", s);
      ClosedConcat("\"" + s, "\"");
      assert Tight(p) && p[0] == '"' && p[|p| - 1] == '"';
    } else {
      NeutralAtom(s, Some(' '));
      if ',' !in s {
        NeutralAtom(s, Some(','));
      }
    }
  }

  lemma {:induction false} JoinedNeutral(parts: seq<string>, sep: string, watch: Option<char>)
    requires forall i :: 0 <= i < |parts| ==> Neutral(parts[i], watch)
    requires Neutral(sep, watch)
    ensures Neutral(Join(parts, sep), watch)
    decreases |parts|
  {
    hide Neutral;
    if |parts| == 0 {
      NothingIsNeutral(watch);
    } else if |parts| > 1 {
      JoinedNeutral(parts[1..], sep, watch);
      NeutralConcat(parts[0], sep, watch);
      NeutralConcat(parts[0] + sep, Join(parts[1..], sep), watch);
    }
  }

  lemma NothingIsNeutral(watch: Option<char>)
    ensures Neutral("", watch) && Closed("")
  {
  }

  lemma {:induction false} JoinedClosed(parts: seq<string>, sep: string)
    requires forall i :: 0 <= i < |parts| ==> Closed(parts[i])
    requires Closed(sep)
    ensures Closed(Join(parts, sep))
    decreases |parts|
  {
    hide Closed;
    if |parts| == 0 {
      NothingIsNeutral(None);
    } else if |parts| > 1 {
      JoinedClosed(parts[1..], sep);
      ClosedConcat(parts[0], sep);
      ClosedConcat(parts[0] + sep, Join(parts[1..], sep));
    }
  }

  lemma BracketsAreCarried(t: string)
    requires Neutral(t, None) && Closed(t)
    ensures Carried("[" + t + "]")
    ensures Carried("{" + t + "}") && Listed("{" + t + "}")
  {
    hide Neutral, Closed;
    NeutralSquare(t, None, Some(' '));
    NeutralCurly(t, None, Some(' '));
    NeutralCurly(t, None, Some(','));
    SurroundClosed("[", t, "]");
    SurroundClosed("{", t, "}");
  }

  lemma SurroundClosed(open: string, t: string, close: string)
    requires '(' !in open && ')' !in open && '(' !in close && ')' !in close && Closed(t)
    ensures Closed(open + t + close)
  {
    hide Closed;
    ClosedPlain(open);
    ClosedPlain(close);
    ClosedConcat(open, t);
    ClosedConcat(open + t, close);
  }

  lemma PayloadIsCarried(name: string, t: string)
    requires Plain(name) && Carried(t)
    ensures Carried(name + "(" + t + ")")
    ensures Neutral(t, None) && (Neutral(t, Some(',')) ==> Listed(name + "(" + t + ")"))
  {
    hide Neutral, Closed;
    PlainIsCarried(name);
    NeutralAnyway(t, Some(' '));
    NeutralAtom("(", Some(' '));
    NeutralAtom(")", Some(' '));
    NeutralAtom("(", Some(','));
    NeutralAtom(")", Some(','));
    Wrapped(name, t, Some(' '));
    if Neutral(t, Some(',')) {
      Wrapped(name, t, Some(','));
    }
    ClosedParens(t);
    ClosedConcat(name, "(" + t + ")");
    assert name + ("(" + t + ")") == name + "(" + t + ")";
  }

  lemma Wrapped(name: string, t: string, watch: Option<char>)
    requires Neutral(name, watch) && Neutral("(", watch) && Neutral(t, watch) && Neutral(")", watch)
    ensures Neutral(name + "(" + t + ")", watch)
  {
    hide Neutral;
    NeutralConcat(name, "(", watch);
    NeutralConcat(name + "(", t, watch);
    NeutralConcat(name + "(" + t, ")", watch);
  }

  // ---------------------------------------------------------------- every printed value has that shape

  predicate Typed(ty: Ty, v: Val) {
    WellFormed(ty) && HasType(ty, v) && Safe(v)
  }

  /** A value's text is carried whole by the record scanner, and by the list splitter where lists allow it. */
  lemma {:induction false} PrintIsCarried(ty: Ty, v: Val)
    requires Typed(ty, v)
    ensures Carried(Print(v))
    ensures !ty.TVec? && !ty.TOpt? && NoBareComma(v) ==> Listed(Print(v)) && (Print(v) == "" ==> v == VStr(""))
    ensures Print(v) == "None" ==> v == VNone || v == VStr("None") || v.VSome?
    decreases ty, 0
  {
    hide Neutral, Closed, Carried, Listed;
    match ty
    case TNat => NumberIsPlain(v.n); PlainIsCarried(Print(v));
    case TInt => NumberIsPlain(v.i); PlainIsCarried(Print(v));
    case TFloat => FloatIsPlain(v.text); PlainIsCarried(Print(v));
    case TBool => PlainIsCarried("true"); PlainIsCarried("false");
    case TStr => StringIsCarried(v.s);
    case TOpt(e) =>
      if v.VSome? {
        PrintIsCarried(e, v.val);
      } else {
        PlainIsCarried("None");
      }
    case TVec(e) =>
      ListIsCarried(e, v.elems);
      assert Print(v)[0] == '[';
    case TRecord(fields) =>
      RecordIsCarried(fields, v.members);
      assert Print(v)[0] == '{';
    case TEnum(cases) =>
      if v.VCase? {
        CaseIsCarried(cases, v.name, v.payload);
        assert Print(v)[|Print(v)| - 1] == ')';
      } else {
        PlainIsCarried("Unknown");
      }
  }

  lemma CarriedFacts(t: string)
    requires Carried(t)
    ensures Neutral(t, Some(' ')) && Neutral(t, None) && Tight(t) && Closed(t)
  {
    NeutralAnyway(t, Some(' '));
  }

  lemma {:induction false} ListIsCarried(e: Ty, es: seq<Val>)
    requires WellFormed(e)
    requires forall x :: x in es ==> HasType(e, x) && Safe(x)
    ensures Carried(Print(VVec(es)))
    decreases e, 1
  {
    hide Neutral, Closed, Carried, Listed;
    var parts := PrintAll(es);
    forall i | 0 <= i < |parts|
      ensures Neutral(parts[i], None) && Closed(parts[i])
    {
      PrintIsCarried(e, es[i]);
      CarriedFacts(parts[i]);
    }
    NeutralAtom(",", None);
    ClosedPlain(",");
    JoinedNeutral(parts, ",", None);
    JoinedClosed(parts, ",");
    BracketsAreCarried(Join(parts, ","));
  }

  predicate GoodFields(fields: seq<Field>) {
    forall f :: f in fields ==> Plain(f.name) && WellFormed(f.ty)
  }

  lemma {:induction false} PairsAreGood(fields: seq<Field>, fs: seq<FieldVal>)
    requires GoodFields(fields) && FieldsHaveType(fields, fs)
    requires forall f :: f in fs ==> Safe(f.val)
    ensures forall p :: p in Pairs(fs) ==> GoodPair(p) && Plain(p.name) && Carried(p.text)
    decreases fields, 0
  {
    hide Neutral, Closed, Carried, Listed, Plain;
    if |fields| > 0 {
      assert fields[0] in fields && fs[0] in fs;
      PairsAreGood(fields[1..], fs[1..]);
      PrintIsCarried(fields[0].ty, fs[0].val);
      GoodFromCarried(Pair(fs[0].name, Print(fs[0].val)));
    }
  }

  lemma GoodFromCarried(p: Pair)
    requires Plain(p.name) && Carried(p.text)
    ensures GoodPair(p)
  {
    PlainIsCarried(p.name);
  }

  lemma ShownIsBalanced(p: Pair)
    requires Plain(p.name) && Carried(p.text)
    ensures Neutral(Shown(p), None) && Closed(Shown(p))
  {
    hide Neutral, Closed;
    PlainIsCarried(p.name);
    CarriedFacts(p.text);
    CarriedFacts(p.name);
    NeutralAtom("=", None);
    ClosedPlain("=");
    NeutralConcat(p.name, "=", None);
    NeutralConcat(p.name + "=", p.text, None);
    ClosedConcat(p.name, "=");
    ClosedConcat(p.name + "=", p.text);
  }

  lemma {:induction false} AllShownBalanced(ps: seq<Pair>)
    requires forall p :: p in ps ==> Plain(p.name) && Carried(p.text)
    ensures forall i :: 0 <= i < |ps| ==> Neutral(ShownAll(ps)[i], None) && Closed(ShownAll(ps)[i])
  {
    hide Neutral, Closed, Carried, Plain;
    if |ps| > 0 {
      ShownIsBalanced(ps[0]);
      AllShownBalanced(ps[1..]);
    }
  }

  lemma {:induction false} RecordIsCarried(fields: seq<Field>, fs: seq<FieldVal>)
    requires GoodFields(fields) && FieldsHaveType(fields, fs)
    requires forall f :: f in fs ==> Safe(f.val)
    ensures Carried(Print(VRecord(fs))) && Listed(Print(VRecord(fs)))
    decreases fields, 1
  {
    hide Neutral, Closed, Carried, Listed, Plain;
    PairsAreGood(fields, fs);
    var parts := ShownAll(Pairs(fs));
    AllShownBalanced(Pairs(fs));
    NeutralAtom(" ", None);
    ClosedPlain(" ");
    JoinedNeutral(parts, " ", None);
    JoinedClosed(parts, " ");
    BracketsAreCarried(Join(parts, " "));
  }

  predicate GoodCases(cases: seq<Field>) {
    forall f :: f in cases ==> Plain(f.name) && f.name != "Unknown" && f.ty.TRecord? && WellFormed(f.ty)
  }

  lemma {:induction false} CaseIsCarried(cases: seq<Field>, name: string, payload: Val)
    requires GoodCases(cases)
    requires CaseHasType(cases, name, payload) && Safe(payload)
    ensures Plain(name) && Carried(Print(payload)) && payload.VRecord?
    ensures Carried(Print(VCase(name, payload))) && Listed(Print(VCase(name, payload)))
    decreases cases, 0
  {
    hide Neutral, Closed, Carried, Listed, Plain;
    if cases[0].name == name {
      assert cases[0] in cases;
      PrintIsCarried(cases[0].ty, payload);
      CaseText(name, Print(payload));
    } else {
      CaseIsCarried(cases[1..], name, payload);
    }
  }

  lemma CaseText(name: string, t: string)
    requires Plain(name) && Carried(t) && Listed(t)
    ensures Carried(name + "(" + t + ")") && Listed(name + "(" + t + ")")
  {
    hide Neutral, Closed;
    PayloadIsCarried(name, t);
  }

  // ---------------------------------------------------------------- what the record scanner finds

  /** `found` holds the text of every field that was printed, and nothing for the others. */
  predicate Finds(fs: seq<FieldVal>, found: map<string, string>) {
    forall f :: f in fs ==>
      if Print(f.val) != "None" then f.name in found && found[f.name] == Print(f.val) else f.name !in found
  }

  predicate DifferentNames(fs: seq<FieldVal>) {
    forall i, j :: 0 <= i < j < |fs| ==> fs[i].name != fs[j].name
  }

  lemma GatheredStep(m: map<string, string>, fs: seq<FieldVal>)
    requires |fs| > 0
    ensures Gathered(m, Pairs(fs))
         == Gathered(if Print(fs[0].val) != "None" then m[fs[0].name := Print(fs[0].val)] else m, Pairs(fs[1..]))
  {
    hide Print;
    var text, rest := Print(fs[0].val), Pairs(fs[1..]);
    if text != "None" {
      assert ([Pair(fs[0].name, text)] + rest)[1..] == rest;
    } else {
      assert [] + rest == rest;
    }
  }

  lemma {:induction false} GatheredKeeps(m: map<string, string>, fs: seq<FieldVal>)
    ensures var found := Gathered(m, Pairs(fs));
            && (forall k :: k in m && (forall f :: f in fs ==> f.name != k) ==> k in found && found[k] == m[k])
            && (forall k :: k in found ==> k in m || exists f :: f in fs && f.name == k)
    decreases |fs|
  {
    hide Print, Pairs, Gathered;
    if |fs| > 0 {
      GatheredStep(m, fs);
      assert forall f :: f in fs <==> f == fs[0] || f in fs[1..];
      GatheredKeeps(if Print(fs[0].val) != "None" then m[fs[0].name := Print(fs[0].val)] else m, fs[1..]);
    } else {
      NothingGathered(m);
    }
  }

  lemma NothingGathered(m: map<string, string>)
    ensures Gathered(m, Pairs([])) == m
  {
  }

  lemma {:induction false} GatheredFinds(m: map<string, string>, fs: seq<FieldVal>)
    requires DifferentNames(fs) && forall f :: f in fs ==> f.name !in m
    ensures Finds(fs, Gathered(m, Pairs(fs)))
    decreases |fs|
  {
    hide Print, Pairs, Gathered;
    if |fs| > 0 {
      var first, rest := fs[0], fs[1..];
      var m' := if Print(first.val) != "None" then m[first.name := Print(first.val)] else m;
      GatheredStep(m, fs);
      assert forall f :: f in fs <==> f == first || f in rest;
      assert forall f :: f in rest ==> f.name != first.name;
      GatheredFinds(m', rest);
      GatheredKeeps(m', rest);
    }
  }

  lemma {:induction false} NamesAgree(fields: seq<Field>, fs: seq<FieldVal>)
    requires FieldsHaveType(fields, fs)
    ensures |fields| == |fs| && forall i :: 0 <= i < |fs| ==> fields[i].name == fs[i].name
  {
    if |fields| > 0 {
      NamesAgree(fields[1..], fs[1..]);
      forall i | 0 <= i < |fs|
        ensures fields[i].name == fs[i].name
      {
        if i > 0 {
          assert fields[i] == fields[1..][i - 1] && fs[i] == fs[1..][i - 1];
        }
      }
    }
  }

  /** Scanning a printed record yields exactly its fields that are not absent, with their printed texts. */
  lemma RecordScan(fields: seq<Field>, fs: seq<FieldVal>)
    requires Typed(TRecord(fields), VRecord(fs))
    ensures var found := KeyValues(Braceless(Print(VRecord(fs))));
            && Finds(fs, found)
            && forall k :: k in found ==> exists f :: f in fs && f.name == k
  {
    hide Neutral, Closed, Carried, Listed, Pairs, ShownAll, Gathered;
    hide GoodPair, FieldsFrom, Braceless, Print, Finds, Safe, Join;
    hide Plain, FieldsHaveType, Stored, Typed, GoodFields;
    var inner := Join(ShownAll(Pairs(fs)), " ");
    RecordInner(fields, fs);
    RecordParts(fields, fs);
    PairsAreGood(fields, fs);
    KeyValuesOfShown(map[], Pairs(fs));
    assert FRESH.(found := map[]) == FRESH;
    assert KeyValues(inner) == Gathered(map[], Pairs(fs));
    NamesAgree(fields, fs);
    GatheredFinds(map[], fs);
    GatheredKeeps(map[], fs);
  }

  lemma RecordParts(fields: seq<Field>, fs: seq<FieldVal>)
    requires Typed(TRecord(fields), VRecord(fs))
    ensures GoodFields(fields) && DistinctNames(fields) && FieldsHaveType(fields, fs) && forall f :: f in fs ==>
      Safe(f.val)
  {
  }

  /** The record reader takes off exactly the braces that the printer added. */
  lemma RecordInner(fields: seq<Field>, fs: seq<FieldVal>)
    requires Typed(TRecord(fields), VRecord(fs))
    ensures Braceless(Print(VRecord(fs))) == Join(ShownAll(Pairs(fs)), " ")
  {
    hide Neutral, Closed, Listed, Pairs, ShownAll, Trim, Join, Safe, FieldsHaveType, Plain, Typed, GoodFields;
    RecordParts(fields, fs);
    RecordIsCarried(fields, fs);
    BracesOff(Join(ShownAll(Pairs(fs)), " "));
  }

  lemma BracesOff(inner: string)
    requires Tight("{" + inner + "}")
    ensures Braceless("{" + inner + "}") == inner
  {
    hide Trim;
    var text := "{" + inner + "}";
    TrimIffTight(text);
    assert text[1..|text| - 1] == inner;
  }

  // ---------------------------------------------------------------- the round trip

  /** A safe value of any type is read back from its own text if and only if it is lossless. */
  lemma {:induction false} RoundTrip(ty: Ty, v: Val)
    requires Typed(ty, v)
    ensures Read(ty, Print(v)) == Ok(v) <==> Lossless(v)
    decreases ty, 0
  {
    hide Read, Print, Lossless;
    match ty
    case TOpt(e) =>
      if v.VSome? {
        RoundTrip(e, v.val);
      }
      OptRoundTrip(e, v);
    case TVec(e) => ListRoundTrip(e, v.elems);
    case TRecord(fields) => RecordRoundTrip(fields, v.members);
    case TEnum(cases) =>
      if v.VCase? {
        CaseRoundTrip(cases, v.name, v.payload);
        CaseLossless(cases, v.name, v.payload);
      } else {
        UnknownRoundTrip(cases);
      }
    case _ => ScalarRoundTrip(ty, v);
  }

  lemma ScalarRoundTrip(ty: Ty, v: Val)
    requires Typed(ty, v) && (ty.TNat? || ty.TInt? || ty.TFloat? || ty.TBool? || ty.TStr?)
    ensures Read(ty, Print(v)) == Ok(v) && Lossless(v)
  {
    hide ReadNat, ReadInt, ReadString, NatText, IntText, PrintString, SafeString;
    match ty
    case TNat => NatRoundTrip(v.n, MAX_U64);
    case TInt => IntRoundTrip(v.i, MIN_I64, MAX_I64);
    case TStr => SafeStringRoundTrip(v.s);
    case _ =>
  }

  lemma OptRoundTrip(e: Ty, v: Val)
    requires v.VNone? || v.VSome?
    requires v.VSome? ==> (Read(e, Print(v.val)) == Ok(v.val) <==> Lossless(v.val))
    ensures Read(TOpt(e), Print(v)) == Ok(v) <==> Lossless(v)
  {
  }

  lemma {:induction false} RecordRoundTrip(fields: seq<Field>, fs: seq<FieldVal>)
    requires Typed(TRecord(fields), VRecord(fs))
    ensures Read(TRecord(fields), Print(VRecord(fs))) == Ok(VRecord(fs)) <==> Lossless(VRecord(fs))
    decreases fields, 2
  {
    hide Print, Finds, KeyValues, Braceless, FieldKept;
    RecordScan(fields, fs);
    FieldsRoundTrip(fields, fs, KeyValues(Braceless(Print(VRecord(fs)))));
    RecordLossless(fs);
    hide Lossless, ReadFields;
  }

  lemma RecordLossless(fs: seq<FieldVal>)
    ensures Lossless(VRecord(fs)) <==> forall f :: f in fs ==> FieldKept(f)
  {
  }

  lemma CaseLossless(cases: seq<Field>, name: string, payload: Val)
    requires GoodCases(cases) && CaseHasType(cases, name, payload) && Safe(payload)
    requires ReadCase(cases, name, Print(payload)) == Ok(VCase(name, payload)) <==> Lossless(payload)
    ensures Read(TEnum(cases), Print(VCase(name, payload))) == Ok(VCase(name, payload)) <==>
      Lossless(VCase(name, payload))
  {
    hide Read, ReadCase, Print, GoodCases, CaseHasType, Safe;
    CaseScan(cases, name, payload);
  }

  lemma SafeStringRoundTrip(s: string)
    requires SafeString(s)
    ensures ReadString(PrintString(s)) == Ok(s)
  {
    StringRoundTrip(s);
  }

  lemma {:induction false} AllRoundTrip(e: Ty, es: seq<Val>)
    requires WellFormed(e)
    requires forall x :: x in es ==> HasType(e, x) && Safe(x)
    ensures ReadAll(e, PrintAll(es)) == Ok(es) <==> forall x :: x in es ==> Lossless(x)
    decreases e, 1, |es|
  {
    hide Print, Safe, HasType, WellFormed, Lossless, Read;
    if |es| > 0 {
      RoundTrip(e, es[0]);
      AllRoundTrip(e, es[1..]);
      assert PrintAll(es)[1..] == PrintAll(es[1..]);
      assert es == [es[0]] + es[1..];
    }
  }

  lemma {:induction false} ReadAllLength(e: Ty, pieces: seq<string>)
    ensures ReadAll(e, pieces).Ok? ==> |ReadAll(e, pieces).value| == |pieces|
    decreases |pieces|
  {
    if |pieces| > 0 {
      ReadAllLength(e, pieces[1..]);
    }
  }

  lemma {:induction false} JoinedEnds(parts: seq<string>)
    requires forall i :: 0 <= i < |parts| ==> Listed(parts[i])
    ensures var t := Join(parts, ","); t != "" ==> t[0] != '[' && t[|t| - 1] != ']'
    ensures |parts| > 1 ==> Join(parts, ",") != ""
    decreases |parts|
  {
    hide Neutral;
    if |parts| > 1 {
      JoinedEnds(parts[1..]);
      var rest := Join(parts[1..], ",");
      var t := parts[0] + "," + rest;
      assert t[0] == if parts[0] == "" then ',' else parts[0][0];
      assert t[|t| - 1] == if rest == "" then ',' else rest[|rest| - 1];
    }
  }

  /** The list reader strips exactly the brackets that the printer added. */
  lemma ListInner(e: Ty, es: seq<Val>)
    requires Typed(TVec(e), VVec(es))
    ensures var inner := Join(PrintAll(es), ",");
            StripEnd(']', StripStart('[', Trim("[" + inner + "]"))) == inner
  {
    hide Neutral, Closed, Listed, Trim, Join, PrintAll, StripEnd, StripStart, Typed;
    var parts := PrintAll(es);
    var inner := Join(parts, ",");
    ElementsListed(e, es);
    JoinedEnds(parts);
    VecIsCarried(e, es);
    TrimIffTight("[" + inner + "]");
    StripBrackets(inner);
  }

  lemma ListEmpty(e: Ty, es: seq<Val>)
    requires Typed(TVec(e), VVec(es))
    ensures Join(PrintAll(es), ",") == "" <==> es == [] || es == [VStr("")]
  {
    hide Neutral, Closed, Listed, Join, PrintAll, Typed;
    ElementsListed(e, es);
    JoinedEnds(PrintAll(es));
    JoinedFew(PrintAll(es));
    if |es| == 1 {
      assert es == [es[0]];
    }
  }

  /** What the list reader makes of a printed list: its elements, without an empty last one. */
  lemma ListScan(e: Ty, es: seq<Val>)
    requires Typed(TVec(e), VVec(es)) && |es| > 0
    ensures Pieces(Join(PrintAll(es), ","))
         == if es[|es| - 1] != VStr("") then PrintAll(es) else PrintAll(es)[..|es| - 1]
  {
    hide Elements, Listed, Join, PrintAll, Pieces, Typed;
    ElementsListed(e, es);
    PiecesOfJoined(PrintAll(es));
  }

  lemma VecIsCarried(e: Ty, es: seq<Val>)
    requires Typed(TVec(e), VVec(es))
    ensures Carried("[" + Join(PrintAll(es), ",") + "]")
  {
    hide Carried;
    ListIsCarried(e, es);
  }

  lemma {:induction false} ListRoundTrip(e: Ty, es: seq<Val>)
    requires Typed(TVec(e), VVec(es))
    ensures Read(TVec(e), Print(VVec(es))) == Ok(VVec(es)) <==> Lossless(VVec(es))
    decreases e, 2
  {
    hide Neutral, Closed, Trim, Pieces, Join, ReadAll, PrintAll, StripEnd, StripStart;
    ListInner(e, es);
    ListEmpty(e, es);
    var inner := Join(PrintAll(es), ",");
    if inner != "" {
      ListScan(e, es);
      ReadAllLength(e, Pieces(inner));
      AllRoundTrip(e, es);
    }
  }

  lemma JoinedFew(parts: seq<string>)
    ensures |parts| == 0 ==> Join(parts, ",") == ""
    ensures |parts| == 1 ==> Join(parts, ",") == parts[0]
  {
  }

  lemma {:induction false} ElementsListed(e: Ty, es: seq<Val>)
    requires Typed(TVec(e), VVec(es))
    ensures Elements(PrintAll(es)) && forall i :: 0 <= i < |es| ==> Listed(PrintAll(es)[i])
    ensures forall i :: 0 <= i < |es| ==> (PrintAll(es)[i] == "" <==> es[i] == VStr(""))
  {
    hide Neutral, Closed, PrintAll, Safe, HasType, WellFormed;
    forall i | 0 <= i < |es|
      ensures Listed(PrintAll(es)[i]) && Neutral(PrintAll(es)[i], Some(',')) && Tight(PrintAll(es)[i])
      ensures PrintAll(es)[i] == "" <==> es[i] == VStr("")
    {
      ElementTyped(e, es, i);
      PrintIsCarried(e, es[i]);
    }
  }

  lemma ElementTyped(e: Ty, es: seq<Val>, i: nat)
    requires Typed(TVec(e), VVec(es)) && i < |es|
    ensures Typed(e, es[i]) && NoBareComma(es[i]) && !e.TVec? && !e.TOpt?
  {
    assert es[i] in es;
  }

  predicate FieldKept(f: FieldVal) {
    Lossless(f.val) && f.val != VStr("None")
  }

  lemma ReadFieldsStep(fields: seq<Field>, fs: seq<FieldVal>, found: map<string, string>)
    requires |fields| == |fs| > 0 && fields[0].name == fs[0].name
    ensures ReadFields(fields, found) == Ok(fs)
       <==> ReadField(fields[0], found) == Ok(fs[0].val) && ReadFields(fields[1..], found) == Ok(fs[1..])
  {
    hide ReadField;
    assert fs == [fs[0]] + fs[1..];
    if ReadFields(fields[1..], found).Ok? && ReadField(fields[0], found).Ok? {
      var x, xs := ReadField(fields[0], found).value, ReadFields(fields[1..], found).value;
      assert ([FieldVal(fields[0].name, x)] + xs)[1..] == xs;
    }
  }

  lemma {:induction false} FieldsRoundTrip(fields: seq<Field>, fs: seq<FieldVal>, found: map<string, string>)
    requires GoodFields(fields) && FieldsHaveType(fields, fs) && Finds(fs, found)
    requires forall f :: f in fs ==> Safe(f.val)
    ensures ReadFields(fields, found) == Ok(fs) <==> forall f :: f in fs ==> FieldKept(f)
    decreases fields, 1
  {
    hide Print, Safe, HasType, WellFormed, FieldKept, Carried, Listed, Plain, ReadField, ReadFields;
    if |fields| > 0 {
      var f := fs[0];
      assert fields[0] in fields && f in fs;
      PrintIsCarried(fields[0].ty, f.val);
      RoundTrip(fields[0].ty, f.val);
      FieldRoundTrip(fields[0], f, found);
      FieldsRoundTrip(fields[1..], fs[1..], found);
      ReadFieldsStep(fields, fs, found);
      assert forall g :: g in fs <==> g == f || g in fs[1..];
    } else {
      NothingToRead(found);
    }
  }

  lemma NothingToRead(found: map<string, string>)
    ensures ReadFields([], found) == Ok([])
  {
  }

  lemma FieldRoundTrip(field: Field, f: FieldVal, found: map<string, string>)
    requires field.name == f.name && HasType(field.ty, f.val) && Finds([f], found)
    requires Print(f.val) == "None" ==> f.val == VNone || f.val == VStr("None") || f.val.VSome?
    requires Read(field.ty, Print(f.val)) == Ok(f.val) <==> Lossless(f.val)
    ensures ReadField(field, found) == Ok(f.val) <==> FieldKept(f)
  {
    assert f in [f];
  }

  lemma UnknownRoundTrip(cases: seq<Field>)
    requires GoodCases(cases)
    ensures Read(TEnum(cases), Print(VUnknown)) == Ok(VUnknown) && Lossless(VUnknown)
  {
    TrimIffTight("Unknown");
    NoUnknownCase(cases);
  }

  lemma {:induction false} NoUnknownCase(cases: seq<Field>)
    requires GoodCases(cases)
    ensures !HasCase(cases, "Unknown")
  {
    if |cases| > 0 {
      assert cases[0] in cases;
      NoUnknownCase(cases[1..]);
    }
  }

  /** The enum reader hands the payload's text, and nothing else, to the payload's reader. */
  lemma CaseScan(cases: seq<Field>, name: string, payload: Val)
    requires GoodCases(cases) && CaseHasType(cases, name, payload) && Safe(payload)
    ensures Read(TEnum(cases), Print(VCase(name, payload))) == ReadCase(cases, name, Print(payload))
  {
    hide Neutral, Closed, Listed, Carried, Trim, Plain, Read, ReadCase, CaseHasType, Safe, GoodCases;
    CaseIsCarried(cases, name, payload);
    PlainIsCarried(name);
    CarriedFacts(Print(payload));
    CarriedFacts(Print(VCase(name, payload)));
    CaseTextScan(cases, name, Print(payload));
  }

  lemma CaseTextScan(cases: seq<Field>, name: string, inner: string)
    requires Tight(name) && '(' !in name && Closed(inner) && Tight(name + "(" + inner + ")")
    ensures Read(TEnum(cases), name + "(" + inner + ")") == ReadCase(cases, name, inner)
  {
    hide Trim, Closed, ReadCase, CloseFrom;
    var t := name + "(" + inner + ")";
    TrimIffTight(t);
    TrimIffTight(name);
    CloseAfter(inner);
    assert t[|name|] == '(' && t[..|name|] == name;
    var i := FindOpen(t);
    assert i == |name|;
    assert t[i + 1..] == inner + ")";
    assert (inner + ")")[..|inner|] == inner;
  }

  lemma {:induction false} CaseRoundTrip(cases: seq<Field>, name: string, payload: Val)
    requires GoodCases(cases) && CaseHasType(cases, name, payload) && Safe(payload)
    ensures ReadCase(cases, name, Print(payload)) == Ok(VCase(name, payload)) <==> Lossless(payload)
    decreases cases, 0
  {
    if cases[0].name == name {
      assert cases[0] in cases;
      RoundTrip(cases[0].ty, payload);
    } else {
      CaseRoundTrip(cases[1..], name, payload);
    }
  }
}
