/**
 The words on the wire: how every command and message is written, with the names spelled out, and what the readers make
 of text that no printer writes.
 */
module WireText {
  import opened Messages
  import opened Text
  import opened Scanners
  import opened Wire
  import opened WireRoundTrip
  import opened WireRecords
  import opened WireMessages

  // ---------------------------------------------------------------- numbers

  /** Numbers are written in decimal: ten digits, and one digit appended for every further power of ten. */
  lemma Decimal(n: nat, d: nat)
    requires n > 0 && d < 10
    ensures NatText(10 * n + d) == NatText(n) + NatText(d)
    ensures NatText(d) == ["0", "1", "2", "3", "4", "5", "6", "7", "8", "9"][d]
  {
    assert (10 * n + d) / 10 == n && (10 * n + d) % 10 == d;
  }

  // ---------------------------------------------------------------- fields

  function Eq(name: string, text: string): string {
    name + "=" + text
  }

  /** An absent option is not written at all. */
  function OptPart(name: string, o: Option<nat>): seq<string> {
    if o.None? then [] else [Eq(name, NatText(o.value))]
  }

  /** A string spelled None is taken for an absent one. */
  function WordPart(name: string, s: string): seq<string> {
    if s == "None" then [] else [Eq(name, PrintString(s))]
  }

  function Strings(xs: seq<string>): seq<string> {
    seq(|xs|, i requires 0 <= i < |xs| => PrintString(xs[i]))
  }

  function ListText(parts: seq<string>): string {
    "[" + Join(parts, ",") + "]"
  }

  function RecordText(parts: seq<string>): string {
    "{" + Join(parts, " ") + "}"
  }

  function FloatTexts(fs: seq<Float>): seq<string> {
    seq(|fs|, i requires 0 <= i < |fs| => fs[i].text)
  }

  function VecText(v: VecReq): string {
    RecordText([Eq("id", NatText(v.id)), Eq("vec", ListText(FloatTexts(v.vec)))])
  }

  function VecTexts(vs: seq<VecReq>): seq<string> {
    seq(|vs|, i requires 0 <= i < |vs| => VecText(vs[i]))
  }

  /** What a cell is written as, if it is written. */
  function CellText(cell: Cell): string {
    match cell
    case Words(_, s) => PrintString(s)
    case Num(_, n) => NatText(n)
    case Int(_, i) => IntText(i)
    case Flag(_, b) => if b then "true" else "false"
    case Opt(_, o) => if o.Some? then NatText(o.value) else "None"
    case Items(_, xs) => ListText(Strings(xs))
    case Vecs(_, vs) => ListText(VecTexts(vs))
    case Nested(_, _, v) => Print(v)
  }

  predicate LeftOut(cell: Cell) {
    (cell.Opt? && cell.o.None?) || (cell.Words? && cell.s == "None")
  }

  function Part(cell: Cell): seq<string> {
    if LeftOut(cell) then [] else [Eq(cell.name, CellText(cell))]
  }

  function Parts(cells: seq<Cell>): seq<string> {
    if |cells| == 0 then [] else Part(cells[0]) + Parts(cells[1..])
  }

  lemma PairsPrint(fs: seq<FieldVal>)
    requires |fs| > 0 && Print(fs[0].val) != "None"
    ensures ShownAll(Pairs(fs)) == [Eq(fs[0].name, Print(fs[0].val))] + ShownAll(Pairs(fs[1..]))
  {
    PartsStep(fs);
  }

  lemma FloatsText(fs: seq<Float>)
    ensures Print(VVec(FloatVals(fs))) == ListText(FloatTexts(fs))
  {
    assert PrintAll(FloatVals(fs)) == FloatTexts(fs);
  }

  lemma VecReqText(v: VecReq)
    ensures Print(VecReqVal(v)) == VecText(v)
  {
    hide Join, FloatVals;
    var fs := VecReqVal(v).members;
    NumberIsPlain(v.id);
    FloatsText(v.vec);
    assert Print(fs[1].val)[0] == '[';
    PairsPrint(fs);
    PairsPrint(fs[1..]);
    NoParts();
    assert fs[1..][1..] == [];
    assert ShownAll(Pairs(fs)) == [Eq("id", NatText(v.id)), Eq("vec", ListText(FloatTexts(v.vec)))];
  }

  lemma VecsText(vs: seq<VecReq>)
    ensures Print(VVec(VecReqVals(vs))) == ListText(VecTexts(vs))
  {
    hide VecReqVal, VecText, Join;
    forall i | 0 <= i < |vs| ensures Print(VecReqVal(vs[i])) == VecText(vs[i]) { VecReqText(vs[i]); }
    assert PrintAll(VecReqVals(vs)) == VecTexts(vs);
  }

  lemma CellPrints(cell: Cell)
    ensures Print(CellVal(cell)) == CellText(cell)
  {
    hide Join, VecReqVals, VecTexts;
    match cell
    case Items(_, xs) => assert PrintAll(StrVals(xs)) == Strings(xs);
    case Vecs(_, vs) => VecsText(vs);
    case _ =>
  }

  /** A field is left out exactly when it is an absent option or a string spelled None. */
  lemma WhenLeftOut(cell: Cell)
    requires cell.Nested? ==> Print(cell.v) != "None"
    ensures Print(CellVal(cell)) == "None" <==> LeftOut(cell)
  {
    hide Join;
    match cell
    case Words(_, s) => WordsPrint(s);
    case Num(_, n) => NumberIsPlain(n);
    case Int(_, i) => NumberIsPlain(i);
    case Opt(_, o) => if o.Some? { NumberIsPlain(o.value); }
    case Items(_, xs) => assert Print(CellVal(cell))[0] == '[';
    case Vecs(_, vs) => assert Print(CellVal(cell))[0] == '[';
    case _ =>
  }

  lemma WordsPrint(s: string)
    ensures PrintString(s) == "None" ==> s == "None"
    ensures ' ' !in s ==> PrintString(s) == s
    ensures ' ' in s && '"' !in s ==> PrintString(s) == "\"" + s + "\""
  {
    if ' ' in s {
      assert PrintString(s)[0] == '"';
      if '"' !in s { EscapeIdle(s); }
    }
  }

  lemma {:induction false} EscapeConcat(a: string, b: string)
    ensures Escape(a + b) == Escape(a) + Escape(b)
  {
    if a == "" {
      assert a + b == b;
    } else {
      assert (a + b)[0] == a[0] && (a + b)[1..] == a[1..] + b;
      EscapeConcat(a[1..], b);
    }
  }

  /** A quote inside a quoted string is written behind a backslash; everything else is written as it is. */
  lemma QuoteEscaped(a: string, b: string)
    ensures Escape(a + "\"" + b) == Escape(a) + "\\\"" + Escape(b)
    ensures '"' !in a ==> Escape(a) == a
  {
    EscapeConcat(a + "\"", b);
    EscapeConcat(a, "\"");
    assert Escape("\"") == "\\\"";
    hide Escape;
    if '"' !in a { EscapeIdle(a); }
  }

  /** The text of a record: its cells under their names, in order, without those that are left out. */
  lemma {:induction false} CellsText(cells: seq<Cell>)
    requires forall i :: 0 <= i < |cells| && cells[i].Nested? ==> Print(cells[i].v) != "None"
    ensures ShownAll(Pairs(MembersOf(cells))) == Parts(cells)
  {
    hide Print, CellVal, CellText, LeftOut, Pairs, ShownAll;
    if |cells| == 0 {
      NoParts();
      assert MembersOf(cells) == [];
    } else {
      var fs := MembersOf(cells);
      assert fs[1..] == MembersOf(cells[1..]);
      CellsText(cells[1..]);
      WhenLeftOut(cells[0]);
      CellPrints(cells[0]);
      PartsStep(fs);
    }
  }

  lemma RecordPrints(cells: seq<Cell>)
    requires forall i :: 0 <= i < |cells| && cells[i].Nested? ==> Print(cells[i].v) != "None"
    ensures Print(VRecord(MembersOf(cells))) == RecordText(Parts(cells))
  {
    hide Print, Parts, Pairs, ShownAll, RecordText;
    CellsText(cells);
    BracedPrint(MembersOf(cells));
  }

  lemma BracedPrint(fs: seq<FieldVal>)
    ensures Print(VRecord(fs)) == RecordText(ShownAll(Pairs(fs)))
  {
    hide Pairs, ShownAll, Join;
  }

  // ---------------------------------------------------------------- commands

  /** The word each variant is written as. */
  function Word(c: Command): string {
    match c
    case Set(_) => "Set"
    case Delete(_) => "Delete"
    case Increment(_) => "Increment"
    case Decrement(_) => "Decrement"
    case Expire(_) => "Expire"
    case Lpush(_) => "Lpush"
    case Lpop(_) => "Lpop"
    case Rpush(_) => "Rpush"
    case Rpop(_) => "Rpop"
    case Sadd(_) => "Sadd"
    case Zadd(_) => "Zadd"
    case Publish(_) => "Publish"
    case VSet(_) => "VSet"
    case VDel(_) => "VDel"
    case Unknown => "Unknown"
  }

  function ListParts(r: ListReq): seq<string> {
    WordPart("key", r.key) + [Eq("values", ListText(Strings(r.values)))]
  }

  /** The fields of each payload, under the source's names and in its order. */
  function PayloadParts(c: Command): seq<string> {
    match c
    case Set(r) => WordPart("key", r.key) + WordPart("value", r.value) + OptPart("exp", r.exp)
    case Delete(r) => WordPart("key", r.key)
    case Increment(r) => WordPart("key", r.key)
    case Decrement(r) => WordPart("key", r.key)
    case Expire(r) => WordPart("key", r.key) + [Eq("duration", NatText(r.duration))]
    case Lpush(r) => ListParts(r)
    case Lpop(r) => WordPart("key", r.key)
    case Rpush(r) => ListParts(r)
    case Rpop(r) => WordPart("key", r.key)
    case Sadd(r) => ListParts(r)
    case Zadd(r) => WordPart("key", r.key) + [Eq("score", IntText(r.score))] + WordPart("value", r.value)
    case Publish(r) => WordPart("chan", r.chan) + WordPart("value", r.value)
    case VSet(r) => WordPart("key", r.key) + [Eq("vecs", ListText(VecTexts(r.vecs)))]
    case VDel(r) => WordPart("key", r.key) + WordPart("id", r.id)
    case Unknown => []
  }

  function CommandText(c: Command): string {
    if c.Unknown? then "Unknown" else Word(c) + "(" + RecordText(PayloadParts(c)) + ")"
  }

  lemma PartsOfCons(a: Cell, rest: seq<Cell>)
    ensures Parts([a] + rest) == Part(a) + Parts(rest)
  {
    hide Part;
    assert ([a] + rest)[1..] == rest;
  }

  lemma PartsOfOne(a: Cell)
    ensures Parts([a]) == Part(a)
  {
    hide Part;
    PartsOfCons(a, []);
    assert [a] + [] == [a];
  }

  lemma PartsOfTwo(a: Cell, b: Cell)
    ensures Parts([a, b]) == Part(a) + Part(b)
  {
    hide Parts, Part;
    PartsOfOne(b);
    PartsOfCons(a, [b]);
    assert [a] + [b] == [a, b];
  }

  lemma PartsOfThree(a: Cell, b: Cell, d: Cell)
    ensures Parts([a, b, d]) == Part(a) + Part(b) + Part(d)
  {
    hide Parts, Part;
    PartsOfTwo(b, d);
    PartsOfCons(a, [b, d]);
    assert [a] + [b, d] == [a, b, d];
  }

  lemma KeySpelled(r: GetReq)
    ensures Parts([Words("key", r.key)]) == WordPart("key", r.key)
  {
    hide Parts, Eq, PrintString;
    PartsOfOne(Words("key", r.key));
  }

  lemma ListSpelled(r: ListReq)
    ensures Parts([Words("key", r.key), Items("values", r.values)]) == ListParts(r)
  {
    hide Parts, Eq, PrintString, ListText, Strings;
    PartsOfTwo(Words("key", r.key), Items("values", r.values));
  }

  lemma SetSpelled(c: Command)
    requires c.Set? || c.Zadd?
    ensures Parts(CommandCells(c)) == PayloadParts(c)
  {
    hide Parts, Eq, PrintString, NatText, IntText;
    var cells := CommandCells(c);
    PartsOfThree(cells[0], cells[1], cells[2]);
  }

  lemma PairSpelled(c: Command)
    requires c.Expire? || c.Publish? || c.VSet? || c.VDel?
    ensures Parts(CommandCells(c)) == PayloadParts(c)
  {
    hide Parts, Eq, PrintString, NatText, ListText, VecTexts;
    var cells := CommandCells(c);
    PartsOfTwo(cells[0], cells[1]);
  }

  lemma PayloadSpelled(c: Command)
    ensures Parts(CommandCells(c)) == PayloadParts(c)
  {
    hide Parts, CommandCells, PayloadParts;
    if c.Set? || c.Zadd? {
      SetSpelled(c);
    } else if c.Expire? || c.Publish? || c.VSet? || c.VDel? {
      PairSpelled(c);
    } else {
      SharedSpelled(c);
    }
  }

  lemma SharedSpelled(c: Command)
    requires !(c.Set? || c.Zadd? || c.Expire? || c.Publish? || c.VSet? || c.VDel?)
    ensures Parts(CommandCells(c)) == PayloadParts(c)
  {
    hide Parts, WordPart, ListParts;
    match c
    case Delete(r) => KeySpelled(r);
    case Increment(r) => KeySpelled(r);
    case Decrement(r) => KeySpelled(r);
    case Lpop(r) => KeySpelled(r);
    case Rpop(r) => KeySpelled(r);
    case Lpush(r) => ListSpelled(r);
    case Rpush(r) => ListSpelled(r);
    case Sadd(r) => ListSpelled(r);
    case Unknown => NothingSpelled();
  }

  lemma NothingSpelled()
    ensures Parts([]) == []
  {
  }

  lemma NamesSpelled(c: Command)
    ensures CommandName(c) == Word(c)
  {
  }

  /** Every command is written as its word and, in parentheses, its payload. */
  lemma CommandPrints(c: Command)
    ensures Print(CommandVal(c)) == CommandText(c) != "None"
  {
    hide Parts, PayloadParts, CommandCells, CommandNames, CaseIndex, MembersOf, RecordText, Word;
    if !c.Unknown? {
      NoNestedCells(c);
      RecordPrints(CommandCells(c));
      PayloadSpelled(c);
      NamesSpelled(c);
      var text := Print(CommandVal(c));
      assert text[|text| - 1] == ')';
    }
  }

  lemma NoNestedCells(c: Command)
    ensures forall i :: 0 <= i < |CommandCells(c)| ==> !CommandCells(c)[i].Nested?
  {
  }

  /** And that text is read as that command. */
  lemma CommandReads(c: Command)
    requires CommandCarriable(c) && CommandDefinite(c)
    ensures Decode(CommandTy(), CommandOf, CommandText(c)) == Ok(c)
  {
    hide CommandText, CommandTy, CommandOf, CommandVal, CommandCarriable, CommandDefinite, Read, Print;
    CommandPrints(c);
    CommandRoundTrip(c);
  }

  // ---------------------------------------------------------------- messages

  function RequestVoteParts(x: RequestVote): seq<string> {
    [Eq("term", NatText(x.term))] + WordPart("candidate_id", x.candidateId.name)
    + [Eq("last_log_index", NatText(x.lastLogIndex)), Eq("last_log_term", NatText(x.lastLogTerm))]
  }

  function RequestVoteReplyParts(x: RequestVoteReply): seq<string> {
    [Eq("term", NatText(x.term)), Eq("voted", if x.voted then "true" else "false")]
  }

  function AppendEntriesReplyParts(x: AppendEntriesReply): seq<string> {
    [Eq("term", NatText(x.term)), Eq("success", if x.success then "true" else "false")]
    + OptPart("conflict_index", x.conflictIndex) + OptPart("conflict_term", x.conflictTerm)
  }

  function LogEntryParts(x: LogEntry): seq<string> {
    [Eq("command", CommandText(x.command)), Eq("term", NatText(x.term))]
  }

  function LogEntryTexts(xs: seq<LogEntry>): seq<string> {
    seq(|xs|, i requires 0 <= i < |xs| => RecordText(LogEntryParts(xs[i])))
  }

  function AppendEntriesParts(x: AppendEntries): seq<string> {
    [Eq("term", NatText(x.term))] + WordPart("leader", x.leader.name)
    + OptPart("prev_log_index", x.prevLogIndex) + OptPart("prev_log_term", x.prevLogTerm)
    + [Eq("entries", ListText(LogEntryTexts(x.entries)))] + OptPart("leader_commit", x.leaderCommit)
  }

  lemma PartsOfFour(a: Cell, b: Cell, d: Cell, e: Cell)
    ensures Parts([a, b, d, e]) == Part(a) + Part(b) + Part(d) + Part(e)
  {
    hide Parts, Part;
    PartsOfThree(b, d, e);
    PartsOfCons(a, [b, d, e]);
    assert [a] + [b, d, e] == [a, b, d, e];
  }

  lemma PartsOfSix(a: Cell, b: Cell, d: Cell, e: Cell, f: Cell, g: Cell)
    ensures Parts([a, b, d, e, f, g]) == Part(a) + Part(b) + Part(d) + Part(e) + Part(f) + Part(g)
  {
    hide Parts, Part;
    PartsOfFour(d, e, f, g);
    PartsOfCons(b, [d, e, f, g]);
    PartsOfCons(a, [b] + [d, e, f, g]);
    assert [a] + ([b] + [d, e, f, g]) == [a, b, d, e, f, g];
  }

  lemma RequestVoteSpelled(x: RequestVote)
    ensures Print(VRecord(MembersOf(RequestVoteCells(x)))) == RecordText(RequestVoteParts(x))
  {
    hide Print, MembersOf, Parts, PrintString, NatText, RecordText;
    var cells := RequestVoteCells(x);
    RecordPrints(cells);
    PartsOfFour(cells[0], cells[1], cells[2], cells[3]);
    assert Parts(cells) == RequestVoteParts(x);
  }

  lemma RequestVoteReplySpelled(x: RequestVoteReply)
    ensures Print(VRecord(MembersOf(RequestVoteReplyCells(x)))) == RecordText(RequestVoteReplyParts(x))
  {
    hide Print, MembersOf, Parts, NatText, RecordText;
    var cells := RequestVoteReplyCells(x);
    RecordPrints(cells);
    PartsOfTwo(cells[0], cells[1]);
    assert Parts(cells) == RequestVoteReplyParts(x);
  }

  lemma AppendEntriesReplySpelled(x: AppendEntriesReply)
    ensures Print(VRecord(MembersOf(AppendEntriesReplyCells(x)))) == RecordText(AppendEntriesReplyParts(x))
  {
    hide Print, MembersOf, Parts, NatText, RecordText;
    var cells := AppendEntriesReplyCells(x);
    RecordPrints(cells);
    PartsOfFour(cells[0], cells[1], cells[2], cells[3]);
    assert Parts(cells) == AppendEntriesReplyParts(x);
  }

  lemma LogEntrySpelled(x: LogEntry)
    ensures Print(LogEntryVal(x)) == RecordText(LogEntryParts(x))
  {
    hide Print, MembersOf, Parts, NatText, RecordText, CommandTy, CommandVal, CommandText;
    var cells := LogEntryCells(x);
    CommandPrints(x.command);
    RecordPrints(cells);
    PartsOfTwo(cells[0], cells[1]);
    assert Parts(cells) == LogEntryParts(x);
  }

  lemma EntriesSpelled(xs: seq<LogEntry>)
    ensures Print(VVec(LogEntryVals(xs))) == ListText(LogEntryTexts(xs)) != "None"
  {
    hide LogEntryVal, LogEntryParts, RecordText, Join;
    forall i | 0 <= i < |xs|
      ensures Print(LogEntryVal(xs[i])) == RecordText(LogEntryParts(xs[i]))
    {
      LogEntrySpelled(xs[i]);
    }
    assert PrintAll(LogEntryVals(xs)) == LogEntryTexts(xs);
    assert ListText(LogEntryTexts(xs))[0] == '[';
  }

  lemma AppendEntriesSpelled(x: AppendEntries)
    ensures Print(VRecord(MembersOf(AppendEntriesCells(x)))) == RecordText(AppendEntriesParts(x))
  {
    hide Print, MembersOf, Parts, PrintString, NatText, RecordText, ListText, LogEntryVals, LogEntryTexts, LogEntryTy;
    var cells := AppendEntriesCells(x);
    EntriesSpelled(x.entries);
    RecordPrints(cells);
    PartsOfSix(cells[0], cells[1], cells[2], cells[3], cells[4], cells[5]);
    assert Parts(cells) == AppendEntriesParts(x);
  }

  /** Each of these texts is read as the message it spells. */
  lemma MessagesRead(v: RequestVote, vr: RequestVoteReply, a: AppendEntries, ar: AppendEntriesReply, e: LogEntry)
    requires AllCarriable(RequestVoteCells(v)) && v.candidateId.name != "None"
    requires AllCarriable(RequestVoteReplyCells(vr)) && AllCarriable(AppendEntriesReplyCells(ar))
    requires AppendEntriesCarriable(a) && AppendEntriesDefinite(a)
    requires LogEntryCarriable(e) && CommandDefinite(e.command)
    ensures Decode(RequestVoteTy(), RequestVoteOf, RecordText(RequestVoteParts(v))) == Ok(v)
    ensures Decode(RequestVoteReplyTy(), RequestVoteReplyOf, RecordText(RequestVoteReplyParts(vr))) == Ok(vr)
    ensures Decode(AppendEntriesTy(), AppendEntriesOf, RecordText(AppendEntriesParts(a))) == Ok(a)
    ensures Decode(AppendEntriesReplyTy(), AppendEntriesReplyOf, RecordText(AppendEntriesReplyParts(ar))) == Ok(ar)
    ensures Decode(LogEntryTy(), LogEntryOf, RecordText(LogEntryParts(e))) == Ok(e)
  {
    hide *;
    RequestVoteSpelled(v);
    RequestVoteRoundTrip(v);
    RequestVoteReplySpelled(vr);
    RequestVoteReplyRoundTrip(vr);
    AppendEntriesSpelled(a);
    AppendEntriesRoundTrip(a);
    AppendEntriesReplySpelled(ar);
    AppendEntriesReplyRoundTrip(ar);
    LogEntrySpelled(e);
    LogEntryRoundTrip(e);
  }

  // ---------------------------------------------------------------- text that no printer writes

  /** What is written under a name; a later field overrides an earlier one. */
  function LastText(ps: seq<Pair>, name: string): Option<string> {
    if |ps| == 0 then None
    else if ps[|ps| - 1].name == name then Some(ps[|ps| - 1].text)
    else LastText(ps[..|ps| - 1], name)
  }

  lemma {:induction false} GatheredSnoc(m: map<string, string>, ps: seq<Pair>, p: Pair)
    ensures Gathered(m, ps + [p]) == Gathered(m, ps)[p.name := p.text]
    decreases |ps|
  {
    if |ps| == 0 {
      assert (ps + [p])[1..] == [];
    } else {
      assert (ps + [p])[1..] == ps[1..] + [p];
      GatheredSnoc(m[ps[0].name := ps[0].text], ps[1..], p);
    }
  }

  lemma {:induction false} LastIsGathered(ps: seq<Pair>, name: string)
    ensures var found := Gathered(map[], ps);
            LastText(ps, name) == if name in found then Some(found[name]) else None
    decreases |ps|
  {
    if |ps| > 0 {
      var k := |ps| - 1;
      assert ps == ps[..k] + [ps[k]];
      GatheredSnoc(map[], ps[..k], ps[k]);
      LastIsGathered(ps[..k], name);
    }
  }

  lemma PairsRead(ps: seq<Pair>)
    requires forall i :: 0 <= i < |ps| ==> GoodPair(ps[i])
    ensures KeyValues(Braceless(RecordText(ShownAll(ps)))) == Gathered(map[], ps)
  {
    hide FieldsFrom, Stored, Gathered, Join, GoodPair, Braceless, ShownAll;
    KeyValuesOfShown(map[], ps);
    BracesOff(Join(ShownAll(ps), " "));
    assert FRESH.(found := map[]) == FRESH;
  }

  lemma {:induction false} SameFieldsFound(fields: seq<Field>, a: map<string, string>, b: map<string, string>)
    requires forall f :: f in fields ==> (if f.name in a then f.name in b && a[f.name] == b[f.name] else f.name !in b)
    ensures ReadFields(fields, a) == ReadFields(fields, b)
  {
    hide Read;
    if |fields| > 0 {
      assert fields[0] in fields;
      SameFieldsFound(fields[1..], a, b);
    }
  }

  /** A record may be written in any order, with fields nobody asks for, and with overridden ones. */
  lemma OnlyLastFieldsMatter(fields: seq<Field>, ps: seq<Pair>, qs: seq<Pair>)
    requires forall i :: 0 <= i < |ps| ==> GoodPair(ps[i])
    requires forall i :: 0 <= i < |qs| ==> GoodPair(qs[i])
    requires forall f :: f in fields ==> LastText(ps, f.name) == LastText(qs, f.name)
    ensures Read(TRecord(fields), RecordText(ShownAll(ps))) == Read(TRecord(fields), RecordText(ShownAll(qs)))
  {
    hide GoodPair, LastText, RecordText, ShownAll, Gathered, ReadFields, KeyValues, Braceless;
    PairsRead(ps);
    PairsRead(qs);
    forall f | f in fields
      ensures var a, b := Gathered(map[], ps), Gathered(map[], qs);
              if f.name in a then f.name in b && a[f.name] == b[f.name] else f.name !in b
    {
      LastIsGathered(ps, f.name);
      LastIsGathered(qs, f.name);
    }
    SameFieldsFound(fields, Gathered(map[], ps), Gathered(map[], qs));
  }

  /** The first field that is required and not written is the one that is reported. */
  lemma {:induction false} MissingFieldNamed(fields: seq<Field>, found: map<string, string>, i: nat)
    requires i < |fields| && fields[i].name !in found && !fields[i].ty.TOpt?
    requires forall j :: 0 <= j < i ==> ReadField(fields[j], found).Ok?
    ensures ReadFields(fields, found) == Err(MissingField(fields[i].name))
    decreases i
  {
    if i > 0 {
      MissingFieldNamed(fields[1..], found, i - 1);
    }
  }

  ghost predicate IsWord(t: string) {
    exists c: Command :: !c.Unknown? && Word(c) == t
  }

  lemma {:induction false} HasCaseIff(cases: seq<Field>, name: string)
    ensures HasCase(cases, name) <==> exists i :: 0 <= i < |cases| && cases[i].name == name
  {
    if |cases| > 0 {
      HasCaseIff(cases[1..], name);
      assert forall i :: 0 <= i < |cases[1..]| ==> cases[1..][i] == cases[i + 1];
    }
  }

  lemma {:induction false} UnlistedCase(cases: seq<Field>, name: string, inner: string)
    requires !HasCase(cases, name)
    ensures ReadCase(cases, name, inner) == Ok(VUnknown)
  {
    if |cases| > 0 {
      UnlistedCase(cases[1..], name, inner);
    }
  }

  lemma BuildSpelled(i: nat, p: Val)
    requires i < 14
    ensures var c := Build(i, p); !c.Unknown? && CaseIndex(c) == i
  {
  }

  lemma CasesAreWords(t: string)
    ensures HasCase(CommandTy().cases, t) <==> IsWord(t)
  {
    hide Build, Word, PayloadFields, CommandNames, HasCase;
    FourteenPayloads();
    HasCaseIff(CommandTy().cases, t);
    if i :| 0 <= i < |CommandTy().cases| && CommandTy().cases[i].name == t {
      BuildSpelled(i, VNone);
      NamesSpelled(Build(i, VNone));
      assert Word(Build(i, VNone)) == t;
    }
    if c: Command :| !c.Unknown? && Word(c) == t {
      NamesSpelled(c);
      CellsTyped(c);
      assert CommandTy().cases[CaseIndex(c)].name == t;
    }
  }

  /** A bare word is refused, and what is not a word is the unknown command, payload or not. */
  lemma StrayCommands(text: string)
    ensures var t := Trim(text);
            '(' !in t ==>
              Decode(CommandTy(), CommandOf, text) == if IsWord(t) then Err(NeedsPayload(t)) else Ok(Unknown)
    ensures var t := Trim(text);
            '(' in t ==>
              var k := FindOpen(t);
              if CloseFrom(t[k + 1..], 0, 1).None? then
                Decode(CommandTy(), CommandOf, text) == Err(UnmatchedParenthesis)
              else if !IsWord(Trim(t[..k])) then Decode(CommandTy(), CommandOf, text) == Ok(Unknown) else true
  {
    hide Trim, IsWord, HasCase, PayloadFields, CommandNames, Place, Build, CloseFrom, FindOpen, ReadCase;
    var t := Trim(text);
    CasesAreWords(t);
    if '(' in t {
      var name := Trim(t[..FindOpen(t)]);
      CasesAreWords(name);
      if !IsWord(name) && CloseFrom(t[FindOpen(t) + 1..], 0, 1).Some? {
        UnlistedCase(CommandTy().cases, name, t[FindOpen(t) + 1..][..CloseFrom(t[FindOpen(t) + 1..], 0, 1).value]);
      }
    }
  }
}
