/**
 The character scanners of the wire format: the list splitter, the record scanner and the search
 for the parenthesis that closes an enum payload. Each loop is proved equal to a fold over the
 text, and each fold is proved to pass over balanced text without seeing a separator.
 */
module Scanners {
  import opened Messages
  import opened Text

  // ---------------------------------------------------------------- how deep a position lies

  /** Inside quotes or not, and how many square and curly brackets are open. */
  datatype Level = Level(quoted: bool, square: int, curly: int)

  const GROUND: Level := Level(false, 0, 0)

  function Move(w: Level, c: char): Level {
    if c == '"' then w.(quoted := !w.quoted)
    else if w.quoted then w
    else if c == '[' then w.(square := w.square + 1)
    else if c == ']' then w.(square := w.square - 1)
    else if c == '{' then w.(curly := w.curly + 1)
    else if c == '}' then w.(curly := w.curly - 1)
    else w
  }

  function Walk(w: Level, t: string): Level
    decreases |t|
  {
    if t == "" then w else Walk(Move(w, t[0]), t[1..])
  }

  predicate Exposed(w: Level) {
    !w.quoted && w.square == 0 && w.curly == 0
  }

  /** Walking `t` from `w` never closes a bracket it did not open and never meets `sep`, if given, in the open. */
  predicate Quiet(w: Level, t: string, sep: Option<char>)
    decreases |t|
  {
    && w.square >= 0 && w.curly >= 0
    && (t != "" ==> !(Exposed(w) && sep == Some(t[0])) && Quiet(Move(w, t[0]), t[1..], sep))
  }

  /** Text that every scanner passes over whole: it ends at the level where it began. */
  predicate Neutral(t: string, sep: Option<char>) {
    Walk(GROUND, t) == GROUND && Quiet(GROUND, t, sep)
  }

  predicate Structural(c: char) {
    c == '"' || c == '[' || c == ']' || c == '{' || c == '}'
  }

  predicate Unstructured(t: string) {
    forall i :: 0 <= i < |t| ==> !Structural(t[i])
  }

  lemma {:induction false} WalkConcat(w: Level, a: string, b: string, sep: Option<char>)
    ensures Walk(w, a + b) == Walk(Walk(w, a), b)
    ensures Quiet(w, a, sep) && Quiet(Walk(w, a), b, sep) ==> Quiet(w, a + b, sep)
    decreases |a|
  {
    if a == "" {
      assert a + b == b;
    } else {
      assert (a + b)[1..] == a[1..] + b;
      WalkConcat(Move(w, a[0]), a[1..], b, sep);
    }
  }

  lemma NeutralConcat(a: string, b: string, sep: Option<char>)
    requires Neutral(a, sep) && Neutral(b, sep)
    ensures Neutral(a + b, sep)
  {
    WalkConcat(GROUND, a, b, sep);
  }

  /** Neutral text stays neutral when nothing is looked for. */
  lemma {:induction false} QuietAnyway(w: Level, t: string, sep: Option<char>)
    requires Quiet(w, t, sep)
    ensures Quiet(w, t, None)
    decreases |t|
  {
    if t != "" {
      QuietAnyway(Move(w, t[0]), t[1..], sep);
    }
  }

  lemma NeutralAnyway(t: string, sep: Option<char>)
    requires Neutral(t, sep)
    ensures Neutral(t, None)
  {
    QuietAnyway(GROUND, t, sep);
  }

  function Raised(w: Level, square: nat, curly: nat): Level {
    w.(square := w.square + square, curly := w.curly + curly)
  }

  /** Under at least one more open bracket, no separator is in the open. */
  lemma {:induction false} WalkDeeper(w: Level, t: string, square: nat, curly: nat, any: Option<char>,
    sep: Option<char>)
    requires Quiet(w, t, any) && square + curly > 0
    ensures Walk(Raised(w, square, curly), t) == Raised(Walk(w, t), square, curly)
    ensures Quiet(Raised(w, square, curly), t, sep)
    decreases |t|
  {
    if t != "" {
      WalkDeeper(Move(w, t[0]), t[1..], square, curly, any, sep);
    }
  }

  lemma Inside(w: Level, t: string, any: Option<char>, sep: Option<char>)
    requires Neutral(t, any) && !w.quoted && w.square >= 0 && w.curly >= 0 && w.square + w.curly > 0
    ensures Quiet(w, t, sep) && Walk(w, t) == w
  {
    hide Walk, Quiet;
    WalkDeeper(GROUND, t, w.square, w.curly, any, sep);
    assert Raised(GROUND, w.square, w.curly) == w;
  }

  lemma NeutralSquare(t: string, any: Option<char>, sep: Option<char>)
    requires Neutral(t, any) && sep != Some('[')
    ensures Neutral("[" + t + "]", sep)
  {
    hide Walk, Quiet, Neutral;
    Inside(Level(false, 1, 0), t, any, sep);
    Bracketed('[', t, ']', Level(false, 1, 0), sep);
  }

  lemma NeutralCurly(t: string, any: Option<char>, sep: Option<char>)
    requires Neutral(t, any) && sep != Some('{')
    ensures Neutral("{" + t + "}", sep)
  {
    hide Walk, Quiet, Neutral;
    Inside(Level(false, 0, 1), t, any, sep);
    Bracketed('{', t, '}', Level(false, 0, 1), sep);
  }

  lemma Bracketed(open: char, t: string, close: char, w: Level, sep: Option<char>)
    requires sep != Some(open) && Move(GROUND, open) == w && Move(w, close) == GROUND && !Exposed(w)
    requires Quiet(w, t, sep) && Walk(w, t) == w
    ensures Neutral([open] + t + [close], sep)
  {
    hide Walk, Quiet, Move;
    WalkConcat(w, t, [close], sep);
    WalkCons(w, close, "", sep);
    WalkNil(GROUND, sep);
    assert [close] + "" == [close];
    WalkNonNegative(w, t, sep);
    WalkCons(GROUND, open, t + [close], sep);
    assert [open] + t + [close] == [open] + (t + [close]);
  }

  lemma WalkNil(w: Level, sep: Option<char>)
    ensures Walk(w, "") == w && (w.square >= 0 && w.curly >= 0 ==> Quiet(w, "", sep))
  {
  }

  lemma WalkNonNegative(w: Level, t: string, sep: Option<char>)
    requires Quiet(w, t, sep)
    ensures w.square >= 0 && w.curly >= 0
  {
  }

  lemma WalkCons(w: Level, c: char, t: string, sep: Option<char>)
    ensures Walk(w, [c] + t) == Walk(Move(w, c), t)
    ensures w.square >= 0 && w.curly >= 0 && !(Exposed(w) && sep == Some(c)) && Quiet(Move(w, c), t, sep) ==>
      Quiet(w, [c] + t, sep)
  {
    assert ([c] + t)[1..] == t;
  }

  lemma {:induction false} QuotedInside(w: Level, t: string, sep: Option<char>)
    requires w.quoted && w.square >= 0 && w.curly >= 0 && '"' !in t
    ensures Walk(w, t) == w && Quiet(w, t, sep)
  {
    if t != "" {
      QuotedInside(w, t[1..], sep);
    }
  }

  lemma NeutralQuoted(t: string, sep: Option<char>)
    requires '"' !in t && sep != Some('"')
    ensures Neutral("\"" + t + "\"", sep)
  {
    QuotedInside(Move(GROUND, '"'), t, sep);
    Bracketed('"', t, '"', Level(true, 0, 0), sep);
  }

  lemma {:induction false} NeutralAtom(t: string, sep: Option<char>)
    requires Unstructured(t) && (sep.Some? ==> sep.value !in t)
    ensures Neutral(t, sep)
  {
    if t != "" {
      NeutralAtom(t[1..], sep);
    }
  }

  // ---------------------------------------------------------------- splitting a list

  /** The pieces cut so far, the piece being read, and the bracket depth and quoting before the next character. */
  datatype Splitter = Splitter(pieces: seq<string>, current: string, depth: int, quoted: bool)

  function SplitStep(st: Splitter, c: char): Splitter {
    if c == '"' then st.(quoted := !st.quoted, current := st.current + [c])
    else if (c == '[' || c == '{') && !st.quoted then st.(depth := st.depth + 1, current := st.current + [c])
    else if (c == ']' || c == '}') && !st.quoted then st.(depth := st.depth - 1, current := st.current + [c])
    else if c == ',' && st.depth == 0 && !st.quoted then st.(pieces := st.pieces + [Trim(st.current)], current := "")
    else st.(current := st.current + [c])
  }

  function SplitFrom(st: Splitter, s: string): Splitter
    decreases |s|
  {
    if s == "" then st else SplitFrom(SplitStep(st, s[0]), s[1..])
  }

  /** An empty last piece is dropped. */
  function Pieces(inner: string): seq<string> {
    var st := SplitFrom(Splitter([], "", 0, false), inner);
    if Trim(st.current) != "" then st.pieces + [Trim(st.current)] else st.pieces
  }

  method SplitList(inner: string) returns (result: seq<string>)
    ensures result == Pieces(inner)
  {
    result := [];
    var current, depth, inQuotes := "", 0, false;
    for i := 0 to |inner|
      invariant SplitFrom(Splitter(result, current, depth, inQuotes), inner[i..])
             == SplitFrom(Splitter([], "", 0, false), inner)
    {
      var c := inner[i];
      assert inner[i..][1..] == inner[i + 1..];
      if c == '"' {
        inQuotes := !inQuotes;
        current := current + [c];
      } else if (c == '[' || c == '{') && !inQuotes {
        depth := depth + 1;
        current := current + [c];
      } else if (c == ']' || c == '}') && !inQuotes {
        depth := depth - 1;
        current := current + [c];
      } else if c == ',' && depth == 0 && !inQuotes {
        result := result + [Trim(current)];
        current := "";
      } else {
        current := current + [c];
      }
    }
    if Trim(current) != "" {
      result := result + [Trim(current)];
    }
  }

  lemma {:induction false} SplitConcat(st: Splitter, a: string, b: string)
    ensures SplitFrom(st, a + b) == SplitFrom(SplitFrom(st, a), b)
    decreases |a|
  {
    if a == "" {
      assert a + b == b;
    } else {
      assert (a + b)[1..] == a[1..] + b;
      SplitConcat(SplitStep(st, a[0]), a[1..], b);
    }
  }

  /** The splitter's one depth is the sum of the two bracket depths. */
  lemma {:induction false} SplitPasses(st: Splitter, w: Level, t: string)
    requires st.quoted == w.quoted && st.depth == w.square + w.curly && Quiet(w, t, Some(','))
    ensures var v := Walk(w, t);
            SplitFrom(st, t) == Splitter(st.pieces, st.current + t, v.square + v.curly, v.quoted)
    decreases |t|
  {
    if t != "" {
      SplitPasses(SplitStep(st, t[0]), Move(w, t[0]), t[1..]);
      assert st.current + [t[0]] + t[1..] == st.current + t;
    } else {
      assert st.current + t == st.current;
    }
  }

  predicate Elements(parts: seq<string>) {
    forall i :: 0 <= i < |parts| ==> Neutral(parts[i], Some(',')) && Tight(parts[i])
  }

  lemma {:induction false} SplitJoined(done: seq<string>, parts: seq<string>)
    requires |parts| > 0 && Elements(parts)
    ensures SplitFrom(Splitter(done, "", 0, false), Join(parts, ","))
         == Splitter(done + parts[..|parts| - 1], parts[|parts| - 1], 0, false)
    decreases |parts|
  {
    hide SplitStep, Neutral, Trim, Tight;
    var first := parts[0];
    SplitOne(done, first);
    if |parts| == 1 {
      assert done + parts[..0] == done;
    } else {
      var rest := Join(parts[1..], ",");
      assert first + "," + rest == first + ("," + rest);
      SplitConcat(Splitter(done, "", 0, false), first, "," + rest);
      SplitCut(Splitter(done, first, 0, false), rest);
      SplitJoined(done + [first], parts[1..]);
      assert done + [first] + parts[1..][..|parts| - 2] == done + parts[..|parts| - 1];
    }
  }

  lemma SplitOne(done: seq<string>, part: string)
    requires Neutral(part, Some(',')) && Tight(part)
    ensures SplitFrom(Splitter(done, "", 0, false), part) == Splitter(done, part, 0, false)
    ensures Trim(part) == part
  {
    SplitPasses(Splitter(done, "", 0, false), GROUND, part);
    assert "" + part == part;
    TrimIffTight(part);
  }

  lemma SplitCut(st: Splitter, rest: string)
    requires st.depth == 0 && !st.quoted
    ensures SplitFrom(st, "," + rest) == SplitFrom(Splitter(st.pieces + [Trim(st.current)], "", 0, false), rest)
  {
    assert ("," + rest)[1..] == rest;
  }

  lemma PiecesFrom(inner: string, init: seq<string>, last: string)
    requires SplitFrom(Splitter([], "", 0, false), inner) == Splitter(init, last, 0, false) && Tight(last)
    ensures Pieces(inner) == if last != "" then init + [last] else init
  {
    hide SplitFrom, Trim;
    TrimIffTight(last);
  }

  /** Neutral, trimmed elements come back one for one, except that an empty last element is lost. */
  lemma PiecesOfJoined(parts: seq<string>)
    requires Elements(parts) && |parts| > 0
    ensures Pieces(Join(parts, ",")) == if parts[|parts| - 1] != "" then parts else parts[..|parts| - 1]
  {
    hide SplitFrom, Join, Neutral, Tight, Pieces;
    var init, last := parts[..|parts| - 1], parts[|parts| - 1];
    SplitJoined([], parts);
    assert [] + init == init && init + [last] == parts;
    PiecesFrom(Join(parts, ","), init, last);
  }

  // ---------------------------------------------------------------- reading a record

  datatype Fields = Fields(found: map<string, string>, key: string, value: string, inKey: bool, level: Level)

  const FRESH: Fields := Fields(map[], "", "", true, GROUND)

  function Stored(st: Fields): map<string, string> {
    if st.key != "" then st.found[Trim(st.key) := Trim(st.value)] else st.found
  }

  /** Quotes and brackets always go to the value, even while the key is being read. */
  function FieldStep(st: Fields, c: char): Fields {
    if c == '=' && st.inKey then st.(inKey := false)
    else if c == '"' || (!st.level.quoted && Structural(c)) then
      st.(level := Move(st.level, c), value := st.value + [c])
    else if c == ' ' && Exposed(st.level) then
      if st.key != "" then Fields(Stored(st), "", "", true, st.level) else st
    else if st.inKey then st.(key := st.key + [c])
    else st.(value := st.value + [c])
  }

  function FieldsFrom(st: Fields, s: string): Fields
    decreases |s|
  {
    if s == "" then st else FieldsFrom(FieldStep(st, s[0]), s[1..])
  }

  function KeyValues(s: string): map<string, string> {
    Stored(FieldsFrom(FRESH, s))
  }

  method ParseKeyValues(s: string) returns (found: map<string, string>)
    ensures found == KeyValues(s)
  {
    found := map[];
    var key, value, inKey, inQuotes, square, curly := "", "", true, false, 0, 0;
    for i := 0 to |s|
      invariant FieldsFrom(Fields(found, key, value, inKey, Level(inQuotes, square, curly)), s[i..]) ==
        FieldsFrom(FRESH, s)
    {
      var c := s[i];
      assert s[i..][1..] == s[i + 1..];
      if c == '=' && inKey {
        inKey := false;
      } else if c == '"' {
        inQuotes := !inQuotes;
        value := value + [c];
      } else if c == '[' && !inQuotes {
        square := square + 1;
        value := value + [c];
      } else if c == ']' && !inQuotes {
        square := square - 1;
        value := value + [c];
      } else if c == '{' && !inQuotes {
        curly := curly + 1;
        value := value + [c];
      } else if c == '}' && !inQuotes {
        curly := curly - 1;
        value := value + [c];
      } else if c == ' ' && !inQuotes && square == 0 && curly == 0 {
        if key != "" {
          found := found[Trim(key) := Trim(value)];
          key, value, inKey := "", "", true;
        }
      } else if inKey {
        key := key + [c];
      } else {
        value := value + [c];
      }
    }
    if key != "" {
      found := found[Trim(key) := Trim(value)];
    }
  }

  lemma {:induction false} FieldsConcat(st: Fields, a: string, b: string)
    ensures FieldsFrom(st, a + b) == FieldsFrom(FieldsFrom(st, a), b)
    decreases |a|
  {
    if a == "" {
      assert a + b == b;
    } else {
      assert (a + b)[1..] == a[1..] + b;
      FieldsConcat(FieldStep(st, a[0]), a[1..], b);
    }
  }

  lemma {:induction false} ValuePasses(st: Fields, t: string)
    requires !st.inKey && Quiet(st.level, t, Some(' '))
    ensures FieldsFrom(st, t) == st.(value := st.value + t, level := Walk(st.level, t))
    decreases |t|
  {
    if t != "" {
      ValuePasses(FieldStep(st, t[0]), t[1..]);
      assert st.value + [t[0]] + t[1..] == st.value + t;
    } else {
      assert st.value + t == st.value;
    }
  }

  /** A field name: at least one character, none of them special to the scanner. */
  predicate IsName(name: string) {
    && name != "" && Tight(name)
    && Unstructured(name) && '=' !in name && ' ' !in name
  }

  lemma {:induction false} KeyPasses(st: Fields, name: string)
    requires st.inKey && st.level == GROUND
    requires Unstructured(name) && '=' !in name && ' ' !in name
    ensures FieldsFrom(st, name) == st.(key := st.key + name)
    decreases |name|
  {
    if name != "" {
      KeyPasses(FieldStep(st, name[0]), name[1..]);
      assert st.key + [name[0]] + name[1..] == st.key + name;
    } else {
      assert st.key + name == st.key;
    }
  }

  datatype Pair = Pair(name: string, text: string)

  predicate GoodPair(p: Pair) {
    IsName(p.name) && Neutral(p.text, Some(' ')) && Tight(p.text)
  }

  function Shown(p: Pair): string {
    p.name + "=" + p.text
  }

  function ShownAll(ps: seq<Pair>): (r: seq<string>)
    ensures |r| == |ps|
  {
    if |ps| == 0 then [] else [Shown(ps[0])] + ShownAll(ps[1..])
  }

  function Gathered(m: map<string, string>, ps: seq<Pair>): map<string, string>
    decreases |ps|
  {
    if |ps| == 0 then m else Gathered(m[ps[0].name := ps[0].text], ps[1..])
  }

  lemma FieldPasses(m: map<string, string>, p: Pair)
    requires GoodPair(p)
    ensures FieldsFrom(FRESH.(found := m), Shown(p)) == Fields(m, p.name, p.text, false, GROUND)
    ensures Trim(p.name) == p.name && Trim(p.text) == p.text
  {
    var st := FRESH.(found := m);
    assert Shown(p) == p.name + ("=" + p.text);
    FieldsConcat(st, p.name, "=" + p.text);
    KeyPasses(st, p.name);
    assert "" + p.name == p.name && "" + p.text == p.text;
    var st1 := st.(key := p.name);
    assert ("=" + p.text)[1..] == p.text;
    ValuePasses(st1.(inKey := false), p.text);
    TrimIffTight(p.name);
    TrimIffTight(p.text);
  }

  lemma FieldCut(m: map<string, string>, p: Pair, rest: string)
    requires GoodPair(p)
    ensures FieldsFrom(FRESH.(found := m), Shown(p) + " " + rest) ==
      FieldsFrom(FRESH.(found := m[p.name := p.text]), rest)
  {
    assert Shown(p) + " " + rest == Shown(p) + (" " + rest);
    FieldsConcat(FRESH.(found := m), Shown(p), " " + rest);
    FieldPasses(m, p);
    assert (" " + rest)[1..] == rest;
  }

  /** The record scanner finds exactly the printed fields with their printed texts. */
  lemma {:induction false} KeyValuesOfShown(m: map<string, string>, ps: seq<Pair>)
    requires forall i :: 0 <= i < |ps| ==> GoodPair(ps[i])
    ensures Stored(FieldsFrom(FRESH.(found := m), Join(ShownAll(ps), " "))) == Gathered(m, ps)
    decreases |ps|
  {
    hide GoodPair, Shown, Trim;
    if |ps| == 1 {
      FieldPasses(m, ps[0]);
      NameNotEmpty(ps[0]);
      assert ShownAll(ps) == [Shown(ps[0])];
    } else if |ps| > 1 {
      assert ShownAll(ps)[1..] == ShownAll(ps[1..]);
      FieldCut(m, ps[0], Join(ShownAll(ps[1..]), " "));
      KeyValuesOfShown(m[ps[0].name := ps[0].text], ps[1..]);
    }
  }

  lemma NameNotEmpty(p: Pair)
    requires GoodPair(p)
    ensures p.name != ""
  {
  }

  // ---------------------------------------------------------------- closing a parenthesis

  /** The position at or after `i` where `depth` open parentheses are closed; quotes are not looked at. */
  function CloseFrom(s: string, i: nat, depth: nat): (end: Option<nat>)
    requires i <= |s|
    ensures end.Some? ==> i <= end.value < |s| && s[end.value] == ')'
    decreases |s| - i
  {
    if i == |s| then None
    else if s[i] == '(' then CloseFrom(s, i + 1, depth + 1)
    else if s[i] == ')' then if depth <= 1 then Some(i) else CloseFrom(s, i + 1, depth - 1)
    else CloseFrom(s, i + 1, depth)
  }

  method FindClose(payload: string) returns (end: Option<nat>)
    ensures end == CloseFrom(payload, 0, 1)
  {
    var depth := 1;
    for i := 0 to |payload|
      invariant depth >= 1
      invariant CloseFrom(payload, i, depth) == CloseFrom(payload, 0, 1)
    {
      if payload[i] == '(' {
        depth := depth + 1;
      } else if payload[i] == ')' {
        depth := depth - 1;
        if depth == 0 {
          return Some(i);
        }
      }
    }
    end := None;
  }

  /** How many parentheses are open after `t`, unless it closes the last one. */
  function ParenDepth(depth: nat, t: string): Option<nat>
    decreases |t|
  {
    if t == "" then Some(depth)
    else if t[0] == '(' then ParenDepth(depth + 1, t[1..])
    else if t[0] == ')' then if depth <= 1 then None else ParenDepth(depth - 1, t[1..])
    else ParenDepth(depth, t[1..])
  }

  /** Inside one open parenthesis, `t` closes exactly what it opens. */
  predicate Closed(t: string) {
    ParenDepth(1, t) == Some(1)
  }

  lemma {:induction false} ParenConcat(depth: nat, a: string, b: string)
    requires ParenDepth(depth, a).Some?
    ensures ParenDepth(depth, a + b) == ParenDepth(ParenDepth(depth, a).value, b)
    decreases |a|
  {
    if a == "" {
      assert a + b == b;
    } else {
      assert (a + b)[1..] == a[1..] + b;
      ParenConcat(if a[0] == '(' then depth + 1 else if a[0] == ')' then depth - 1 else depth, a[1..], b);
    }
  }

  lemma ClosedConcat(a: string, b: string)
    requires Closed(a) && Closed(b)
    ensures Closed(a + b)
  {
    ParenConcat(1, a, b);
  }

  lemma {:induction false} ParenDeeper(depth: nat, t: string)
    requires ParenDepth(depth, t).Some?
    ensures ParenDepth(depth + 1, t) == Some(ParenDepth(depth, t).value + 1)
    decreases |t|
  {
    if t != "" {
      ParenDeeper(if t[0] == '(' then depth + 1 else if t[0] == ')' then depth - 1 else depth, t[1..]);
    }
  }

  lemma ClosedParens(t: string)
    requires Closed(t)
    ensures Closed("(" + t + ")")
  {
    ParenDeeper(1, t);
    ParenConcat(2, t, ")");
    assert ("(" + t + ")")[1..] == t + ")";
  }

  lemma {:induction false} ClosedPlain(t: string)
    requires '(' !in t && ')' !in t
    ensures Closed(t)
  {
    if t != "" {
      ClosedPlain(t[1..]);
    }
  }

  /** The search for the closing parenthesis goes over `t` to the depth that `t` leaves. */
  lemma {:induction false} ClosePasses(s: string, i: nat, depth: nat, t: string)
    requires i + |t| <= |s| && s[i..i + |t|] == t && ParenDepth(depth, t).Some?
    ensures CloseFrom(s, i, depth) == CloseFrom(s, i + |t|, ParenDepth(depth, t).value)
    decreases |t|
  {
    if t != "" {
      assert s[i] == t[0];
      assert s[i + 1..i + 1 + |t[1..]|] == t[1..];
      ClosePasses(s, i + 1, if t[0] == '(' then depth + 1 else if t[0] == ')' then depth - 1 else depth, t[1..]);
    }
  }

  /** The payload ends at the parenthesis that was opened before it. */
  lemma CloseAfter(t: string)
    requires Closed(t)
    ensures CloseFrom(t + ")", 0, 1) == Some(|t|)
  {
    var s := t + ")";
    assert s[0..0 + |t|] == t;
    ClosePasses(s, 0, 1, t);
  }
}
