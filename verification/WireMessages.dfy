/** Every command, log entry and consensus message survives the wire: exactly when, for all of them. */
module WireMessages {
  import opened Messages
  import opened Text
  import opened Scanners
  import opened Wire
  import opened WireRoundTrip
  import opened WireRecords

  // ---------------------------------------------------------------- commands

  function CommandName(c: Command): string {
    CommandNames()[CaseIndex(c)]
  }

  /** The fields of the payload. */
  function CommandCells(c: Command): seq<Cell> {
    match c
    case Set(r) => [Words("key", r.key), Words("value", r.value), Opt("exp", r.exp)]
    case Delete(r) => [Words("key", r.key)]
    case Increment(r) => [Words("key", r.key)]
    case Decrement(r) => [Words("key", r.key)]
    case Lpop(r) => [Words("key", r.key)]
    case Rpop(r) => [Words("key", r.key)]
    case Expire(r) => [Words("key", r.key), Num("duration", r.duration)]
    case Lpush(r) => [Words("key", r.key), Items("values", r.values)]
    case Rpush(r) => [Words("key", r.key), Items("values", r.values)]
    case Sadd(r) => [Words("key", r.key), Items("values", r.values)]
    case Zadd(r) => [Words("key", r.key), Int("score", r.score), Words("value", r.value)]
    case Publish(r) => [Words("chan", r.chan), Words("value", r.value)]
    case VSet(r) => [Words("key", r.key), Vecs("vecs", r.vecs)]
    case VDel(r) => [Words("key", r.key), Words("id", r.id)]
    case Unknown => []
  }

  function CommandVal(c: Command): Val {
    if c.Unknown? then VUnknown else VCase(CommandName(c), VRecord(MembersOf(CommandCells(c))))
  }

  function CommandNames(): seq<string> {
    ["Set", "Delete", "Increment", "Decrement", "Expire", "Lpush", "Lpop", "Rpush", "Rpop",
     "Sadd", "Zadd", "Publish", "VSet", "VDel", "Unknown"]
  }

  /** The place of a variant in the list of cases. */
  function CaseIndex(c: Command): (i: nat)
    ensures i < |CommandNames()|
  {
    match c
    case Set(_) => 0
    case Delete(_) => 1
    case Increment(_) => 2
    case Decrement(_) => 3
    case Expire(_) => 4
    case Lpush(_) => 5
    case Lpop(_) => 6
    case Rpush(_) => 7
    case Rpop(_) => 8
    case Sadd(_) => 9
    case Zadd(_) => 10
    case Publish(_) => 11
    case VSet(_) => 12
    case VDel(_) => 13
    case Unknown => 14
  }

  /** The payload types, in the order of the variants. */
  function PayloadFields(): seq<seq<Field>> {
    var get := [Field("key", TStr)];
    var list := [Field("key", TStr), Field("values", TVec(TStr))];
    [[Field("key", TStr), Field("value", TStr), Field("exp", TOpt(TNat))],
     get,
     get,
     get,
     [Field("key", TStr), Field("duration", TNat)],
     list,
     get,
     list,
     get,
     list,
     [Field("key", TStr), Field("score", TInt), Field("value", TStr)],
     [Field("chan", TStr), Field("value", TStr)],
     [Field("key", TStr), Field("vecs", TVec(VecReqTy()))],
     [Field("key", TStr), Field("id", TStr)]]
  }

  function CommandTy(): Ty {
    TEnum(seq(14, i requires 0 <= i < 14 => Field(CommandNames()[i], TRecord(PayloadFields()[i]))))
  }

  /** The variant at a place, with its payload. */
  function Build(i: nat, p: Val): Command {
    match i
    case 0 => Set(SetReq(StrOf(At(p, 0)), StrOf(At(p, 1)), OptOf(At(p, 2))))
    case 1 => Delete(GetReq(StrOf(At(p, 0))))
    case 2 => Increment(GetReq(StrOf(At(p, 0))))
    case 3 => Decrement(GetReq(StrOf(At(p, 0))))
    case 4 => Expire(ExpireReq(StrOf(At(p, 0)), NatOf(At(p, 1))))
    case 5 => Lpush(ListReq(StrOf(At(p, 0)), StrsOf(At(p, 1))))
    case 6 => Lpop(GetReq(StrOf(At(p, 0))))
    case 7 => Rpush(ListReq(StrOf(At(p, 0)), StrsOf(At(p, 1))))
    case 8 => Rpop(GetReq(StrOf(At(p, 0))))
    case 9 => Sadd(ListReq(StrOf(At(p, 0)), StrsOf(At(p, 1))))
    case 10 => Zadd(MapReq(StrOf(At(p, 0)), IntOf(At(p, 1)), StrOf(At(p, 2))))
    case 11 => Publish(PubReq(StrOf(At(p, 0)), StrOf(At(p, 1))))
    case 12 => VSet(VSetReq(StrOf(At(p, 0)), VecReqsOf(At(p, 1))))
    case 13 => VDel(VDelReq(StrOf(At(p, 0)), StrOf(At(p, 1))))
    case _ => Unknown
  }

  /** The place of a name, or the number of names if it is not among them. */
  function Place(names: seq<string>, name: string): nat {
    if |names| == 0 || names[0] == name then 0 else 1 + Place(names[1..], name)
  }

  function CommandOf(v: Val): Command {
    if v.VCase? then Build(Place(CommandNames(), v.name), v.payload) else Unknown
  }

  predicate CommandCarriable(c: Command) {
    AllCarriable(CommandCells(c))
  }

  predicate CommandDefinite(c: Command) {
    AllDefinite(CommandCells(c))
  }

  /** Length and first letters tell the variant names apart. */
  lemma NamesDiffer()
    ensures forall i, j :: 0 <= i < j < |CommandNames()| ==> CommandNames()[i] != CommandNames()[j]
    ensures forall i :: 0 <= i < |CommandNames()| ==> Plain(CommandNames()[i])
  {
    var names := CommandNames();
    forall i, j | 0 <= i < j < |names|
      ensures names[i] != names[j]
    {
      assert |names[i]| != |names[j]| || names[i][0] != names[j][0] || names[i][1] != names[j][1];
    }
  }

  lemma FieldNamesArePlain()
    ensures Plain("key") && Plain("value") && Plain("values") && Plain("exp") && Plain("duration") && Plain("score")
    ensures Plain("chan") && Plain("vecs") && Plain("id")
  {
  }

  lemma CellsNamed(c: Command)
    ensures Named(CommandCells(c))
  {
    hide Plain;
    FieldNamesArePlain();
  }

  lemma CellsTyped(c: Command)
    requires !c.Unknown?
    ensures CaseIndex(c) < 14 == |PayloadFields()|
    ensures FieldsOf(CommandCells(c)) == PayloadFields()[CaseIndex(c)]
  {
    hide VecReqTy;
  }

  lemma FieldsAreGood()
    ensures FieldGood(Field("key", TStr)) && FieldGood(Field("value", TStr)) && FieldGood(Field("exp", TOpt(TNat)))
    ensures FieldGood(Field("duration", TNat)) && FieldGood(Field("values", TVec(TStr)))
    ensures FieldGood(Field("score", TInt))
    ensures FieldGood(Field("chan", TStr)) && FieldGood(Field("id", TStr)) && FieldGood(Field("vecs", TVec(VecReqTy())))
  {
    hide Plain, VecReqTy;
    FieldNamesArePlain();
    VecReqTyFacts();
  }

  lemma PayloadIsWellFormed(i: nat)
    requires i < |PayloadFields()|
    ensures WellFormed(TRecord(PayloadFields()[i]))
  {
    hide FieldGood, WellFormed, VecReqTy;
    FieldsAreGood();
    RecordTyGood(PayloadFields()[i]);
  }

  lemma CommandTyFacts()
    ensures CommandTy().TEnum? && WellFormed(CommandTy()) && GoodCases(CommandTy().cases)
    ensures DistinctNames(CommandTy().cases)
  {
    hide PayloadFields, Plain;
    NamesDiffer();
    FourteenPayloads();
    forall i | 0 <= i < 14
      ensures WellFormed(TRecord(PayloadFields()[i]))
    {
      PayloadIsWellFormed(i);
    }
    hide WellFormed;
    assert CommandNames()[14] == "Unknown";
    hide CommandNames;
    assert GoodCases(CommandTy().cases);
    CasesAreGood(CommandTy().cases);
  }

  lemma FourteenPayloads()
    ensures |PayloadFields()| == 14
  {
  }

  lemma CasesAreGood(cases: seq<Field>)
    requires GoodCases(cases)
    ensures WellFormed(TEnum(cases))
  {
  }

  lemma {:induction false} CaseAt(cases: seq<Field>, i: nat, payload: Val)
    requires i < |cases| && HasType(cases[i].ty, payload)
    requires forall j :: 0 <= j < i ==> cases[j].name != cases[i].name
    ensures CaseHasType(cases, cases[i].name, payload)
    decreases i
  {
    hide HasType;
    if i > 0 {
      assert cases[1..][i - 1] == cases[i];
      CaseAt(cases[1..], i - 1, payload);
    }
  }

  /** A typed payload of the `i`-th case makes a typed value of the enum. */
  lemma CaseTyped(cases: seq<Field>, i: nat, payload: Val)
    requires WellFormed(TEnum(cases)) && DistinctNames(cases) && i < |cases| && Typed(cases[i].ty, payload)
    ensures Typed(TEnum(cases), VCase(cases[i].name, payload))
    ensures Lossless(VCase(cases[i].name, payload)) <==> Lossless(payload)
  {
    CaseAt(cases, i, payload);
  }

  /** Every variant is typed, and lossless exactly when its cells are definite. */
  lemma CommandFacts(c: Command)
    requires CommandCarriable(c)
    ensures Typed(CommandTy(), CommandVal(c)) && !CommandVal(c).VStr?
    ensures Lossless(CommandVal(c)) <==> CommandDefinite(c)
  {
    hide CommandCells, CommandNames, PayloadFields, WellFormed, GoodCases, Typed, Lossless;
    CommandTyFacts();
    if c.Unknown? {
      UnknownFacts(CommandTy().cases, c);
    } else {
      CellsNamed(c);
      CellsTyped(c);
      RecordFacts(CommandCells(c));
      CaseTyped(CommandTy().cases, CaseIndex(c), VRecord(MembersOf(CommandCells(c))));
    }
  }

  lemma UnknownFacts(cases: seq<Field>, c: Command)
    requires WellFormed(TEnum(cases)) && c.Unknown?
    ensures Typed(TEnum(cases), VUnknown) && Lossless(VUnknown) && CommandDefinite(c)
  {
  }

  /** What the members of a record hold. */
  lemma MemberAt(cells: seq<Cell>, i: nat)
    requires i < |cells|
    ensures At(VRecord(MembersOf(cells)), i) == CellVal(cells[i])
  {
  }

  lemma {:induction false} PlaceOf(names: seq<string>, i: nat)
    requires i < |names| && forall j :: 0 <= j < i ==> names[j] != names[i]
    ensures Place(names, names[i]) == i
    decreases i
  {
    if i > 0 {
      assert names[1..][i - 1] == names[i];
      PlaceOf(names[1..], i - 1);
    }
  }

  lemma Rebuilt(c: Command)
    ensures Build(CaseIndex(c), VRecord(MembersOf(CommandCells(c)))) == c
  {
    hide CellVal, StrOf, NatOf, IntOf, OptOf, StrsOf, VecReqsOf, At;
    var cells := CommandCells(c);
    forall i | 0 <= i < |cells|
      ensures At(VRecord(MembersOf(cells)), i) == CellVal(cells[i])
    {
      MemberAt(cells, i);
    }
    forall cell: Cell { CellReadBack(cell); }
  }

  lemma CommandReadBack(c: Command)
    ensures CommandOf(CommandVal(c)) == c
  {
    hide CommandNames, CommandCells, CaseIndex, Build;
    NamesDiffer();
    PlaceOf(CommandNames(), CaseIndex(c));
    Rebuilt(c);
  }

  // ---------------------------------------------------------------- messages

  function LogEntryCells(x: LogEntry): seq<Cell> {
    [Nested("command", CommandTy(), CommandVal(x.command)), Num("term", x.term)]
  }

  function LogEntryTy(): Ty {
    TRecord([Field("command", CommandTy()), Field("term", TNat)])
  }

  function LogEntryVal(x: LogEntry): Val {
    VRecord(MembersOf(LogEntryCells(x)))
  }

  function LogEntryOf(v: Val): LogEntry {
    LogEntry(CommandOf(At(v, 0)), NatOf(At(v, 1)))
  }

  function LogEntryVals(xs: seq<LogEntry>): seq<Val> {
    seq(|xs|, i requires 0 <= i < |xs| => LogEntryVal(xs[i]))
  }

  function LogEntriesOf(v: Val): seq<LogEntry> {
    seq(|ElemsOf(v)|, i requires 0 <= i < |ElemsOf(v)| => LogEntryOf(ElemsOf(v)[i]))
  }

  function AppendEntriesCells(x: AppendEntries): seq<Cell> {
    [Num("term", x.term), Words("leader", x.leader.name), Opt("prev_log_index", x.prevLogIndex),
     Opt("prev_log_term", x.prevLogTerm), Nested("entries", TVec(LogEntryTy()), VVec(LogEntryVals(x.entries))),
     Opt("leader_commit", x.leaderCommit)]
  }

  function AppendEntriesTy(): Ty {
    TRecord([Field("term", TNat), Field("leader", TStr), Field("prev_log_index", TOpt(TNat)),
             Field("prev_log_term", TOpt(TNat)), Field("entries", TVec(LogEntryTy())),
             Field("leader_commit", TOpt(TNat))])
  }

  function AppendEntriesOf(v: Val): AppendEntries {
    AppendEntries(NatOf(At(v, 0)), Id(StrOf(At(v, 1))), OptOf(At(v, 2)), OptOf(At(v, 3)), LogEntriesOf(At(v, 4)),
      OptOf(At(v, 5)))
  }

  function AppendEntriesReplyCells(x: AppendEntriesReply): seq<Cell> {
    [Num("term", x.term), Flag("success", x.success), Opt("conflict_index", x.conflictIndex),
      Opt("conflict_term", x.conflictTerm)]
  }

  function AppendEntriesReplyTy(): Ty {
    TRecord([Field("term", TNat), Field("success", TBool), Field("conflict_index", TOpt(TNat)),
      Field("conflict_term", TOpt(TNat))])
  }

  function AppendEntriesReplyOf(v: Val): AppendEntriesReply {
    AppendEntriesReply(NatOf(At(v, 0)), BoolOf(At(v, 1)), OptOf(At(v, 2)), OptOf(At(v, 3)))
  }

  function RequestVoteCells(x: RequestVote): seq<Cell> {
    [Num("term", x.term), Words("candidate_id", x.candidateId.name), Num("last_log_index", x.lastLogIndex),
      Num("last_log_term", x.lastLogTerm)]
  }

  function RequestVoteTy(): Ty {
    TRecord([Field("term", TNat), Field("candidate_id", TStr), Field("last_log_index", TNat),
      Field("last_log_term", TNat)])
  }

  function RequestVoteOf(v: Val): RequestVote {
    RequestVote(NatOf(At(v, 0)), Id(StrOf(At(v, 1))), NatOf(At(v, 2)), NatOf(At(v, 3)))
  }

  function RequestVoteReplyCells(x: RequestVoteReply): seq<Cell> {
    [Num("term", x.term), Flag("voted", x.voted)]
  }

  function RequestVoteReplyTy(): Ty {
    TRecord([Field("term", TNat), Field("voted", TBool)])
  }

  function RequestVoteReplyOf(v: Val): RequestVoteReply {
    RequestVoteReply(NatOf(At(v, 0)), BoolOf(At(v, 1)))
  }

  function GetReqTy(): Ty {
    TRecord([Field("key", TStr)])
  }

  lemma RequestNamesArePlain()
    ensures Plain("term") && Plain("leader") && Plain("prev_log_index") && Plain("prev_log_term") && Plain("entries")
    ensures Plain("leader_commit") && Plain("command")
  {
  }

  lemma ReplyNamesArePlain()
    ensures Plain("term") && Plain("success") && Plain("conflict_index") && Plain("conflict_term")
  {
  }

  lemma VoteNamesArePlain()
    ensures Plain("term") && Plain("candidate_id") && Plain("last_log_index") && Plain("last_log_term")
    ensures Plain("voted")
  {
  }

  // ---------------------------------------------------------------- log entries

  predicate LogEntryCarriable(x: LogEntry) {
    CommandCarriable(x.command) && x.term <= MAX_U64
  }

  lemma LogEntryFacts(x: LogEntry)
    requires LogEntryCarriable(x)
    ensures Typed(LogEntryTy(), LogEntryVal(x)) && LogEntryVal(x).VRecord? && LogEntryOf(LogEntryVal(x)) == x
    ensures Lossless(LogEntryVal(x)) <==> CommandDefinite(x.command)
  {
    hide Plain, Typed, Lossless, CommandTy, CommandVal, CommandOf, CommandCarriable, CommandDefinite;
    RequestNamesArePlain();
    CommandFacts(x.command);
    CommandReadBack(x.command);
    var cells := LogEntryCells(x);
    RecordFacts(cells);
    assert FieldsOf(cells) == LogEntryTy().fields;
    assert AllDefinite(cells) <==> Definite(cells[0]) && Definite(cells[1]);
  }

  lemma LogEntriesFacts(xs: seq<LogEntry>)
    requires forall x :: x in xs ==> LogEntryCarriable(x)
    ensures Typed(TVec(LogEntryTy()), VVec(LogEntryVals(xs))) && LogEntriesOf(VVec(LogEntryVals(xs))) == xs
    ensures Lossless(VVec(LogEntryVals(xs))) <==> forall x :: x in xs ==> CommandDefinite(x.command)
  {
    hide LogEntryCarriable, CommandDefinite, LogEntryTy, LogEntryVal, LogEntryOf, Typed, Lossless, WellFormed;
    LogEntryTyFacts();
    forall i | 0 <= i < |xs|
      ensures Typed(LogEntryTy(), LogEntryVal(xs[i])) && LogEntryOf(LogEntryVal(xs[i])) == xs[i]
      ensures LogEntryVal(xs[i]).VRecord?
      ensures Lossless(LogEntryVal(xs[i])) <==> CommandDefinite(xs[i].command)
    {
      LogEntryFacts(xs[i]);
    }
    VecTyped(LogEntryTy(), LogEntryVals(xs));
    VecLossless(LogEntryVals(xs));
    assert forall i :: 0 <= i < |xs| ==> xs[i] in xs;
  }

  lemma LogEntryTyFacts()
    ensures LogEntryTy().TRecord? && WellFormed(LogEntryTy())
  {
    hide Typed, CommandCarriable, WellFormed, CommandTy, CommandVal, CommandOf, CommandDefinite, Lossless;
    var x := LogEntry(Unknown, 1);
    NothingToCarry();
    LogEntryFacts(x);
    TypedIsWellFormed(LogEntryTy(), LogEntryVal(x));
  }

  lemma NothingToCarry()
    ensures CommandCarriable(Unknown)
  {
  }

  lemma TypedIsWellFormed(ty: Ty, v: Val)
    requires Typed(ty, v)
    ensures WellFormed(ty)
  {
  }

  // ---------------------------------------------------------------- what arrives

  /** What a reader makes of the text, as a value of the message type. */
  function Decode<T>(ty: Ty, of: Val -> T, text: string): Parsed<T> {
    match Read(ty, text)
    case Ok(v) => Ok(of(v))
    case Err(r) => Err(r)
    case Panic => Panic
  }

  /** Every record of carriable cells is read back exactly when all its cells are definite. */
  lemma CellsRoundTrip(cells: seq<Cell>)
    requires Named(cells) && AllCarriable(cells)
    ensures var v := VRecord(MembersOf(cells));
            Read(TRecord(FieldsOf(cells)), Print(v)) == Ok(v) <==> AllDefinite(cells)
  {
    hide Typed, Lossless, Read, Print, Named, AllCarriable, AllDefinite;
    RecordFacts(cells);
    RoundTrip(TRecord(FieldsOf(cells)), VRecord(MembersOf(cells)));
  }

  /** Every variant of a command. */
  lemma CommandRoundTrip(x: Command)
    requires CommandCarriable(x)
    ensures CommandDefinite(x) ==> Decode(CommandTy(), CommandOf, Print(CommandVal(x))) == Ok(x)
    ensures Read(CommandTy(), Print(CommandVal(x))) == Ok(CommandVal(x)) <==> CommandDefinite(x)
  {
    hide Read, Print, CommandTy, CommandVal, CommandOf, CommandCarriable, CommandDefinite, Typed, Lossless;
    CommandFacts(x);
    CommandReadBack(x);
    RoundTrip(CommandTy(), CommandVal(x));
  }

  /** A log entry, with any command. */
  lemma LogEntryRoundTrip(x: LogEntry)
    requires LogEntryCarriable(x)
    ensures CommandDefinite(x.command) ==> Decode(LogEntryTy(), LogEntryOf, Print(LogEntryVal(x))) == Ok(x)
    ensures Read(LogEntryTy(), Print(LogEntryVal(x))) == Ok(LogEntryVal(x)) <==> CommandDefinite(x.command)
  {
    hide Read, Print, LogEntryTy, LogEntryVal, LogEntryOf, LogEntryCarriable, CommandDefinite, Typed, Lossless;
    LogEntryFacts(x);
    RoundTrip(LogEntryTy(), LogEntryVal(x));
  }

  predicate AppendEntriesCarriable(x: AppendEntries) {
    && x.term <= MAX_U64 && SafeString(x.leader.name)
    && (x.prevLogIndex.Some? ==> x.prevLogIndex.value <= MAX_U64)
    && (x.prevLogTerm.Some? ==> x.prevLogTerm.value <= MAX_U64)
    && (x.leaderCommit.Some? ==> x.leaderCommit.value <= MAX_U64)
    && forall e :: e in x.entries ==> LogEntryCarriable(e)
  }

  predicate AppendEntriesDefinite(x: AppendEntries) {
    x.leader.name != "None" && forall e :: e in x.entries ==> CommandDefinite(e.command)
  }

  lemma AppendEntriesFacts(x: AppendEntries)
    requires AppendEntriesCarriable(x)
    ensures var cells := AppendEntriesCells(x);
            && Named(cells) && AllCarriable(cells) && FieldsOf(cells) == AppendEntriesTy().fields
            && (AllDefinite(cells) <==> AppendEntriesDefinite(x))
  {
    hide Typed, Lossless, LogEntryTy, LogEntryVals, LogEntriesOf, LogEntryCarriable, CommandDefinite, SafeString, Named;
    AppendEntriesNamed(x);
    LogEntriesFacts(x.entries);
    var cells := AppendEntriesCells(x);
    assert AllDefinite(cells) <==> Definite(cells[1]) && Definite(cells[4]);
  }

  lemma AppendEntriesNamed(x: AppendEntries)
    ensures Named(AppendEntriesCells(x)) && FieldsOf(AppendEntriesCells(x)) == AppendEntriesTy().fields
  {
    hide Plain, LogEntryTy, LogEntryVals;
    RequestNamesArePlain();
  }

  lemma AppendEntriesReadBack(x: AppendEntries)
    requires AppendEntriesCarriable(x)
    ensures AppendEntriesOf(VRecord(MembersOf(AppendEntriesCells(x)))) == x
  {
    hide Typed, Lossless, LogEntryTy, LogEntryVals, LogEntriesOf, LogEntryCarriable, CommandDefinite, SafeString;
    LogEntriesFacts(x.entries);
  }

  /** A request with any number of entries and any commands in them. */
  lemma AppendEntriesRoundTrip(x: AppendEntries)
    requires AppendEntriesCarriable(x)
    ensures var v := VRecord(MembersOf(AppendEntriesCells(x)));
            && (AppendEntriesDefinite(x) ==> Decode(AppendEntriesTy(), AppendEntriesOf, Print(v)) == Ok(x))
            && (Read(AppendEntriesTy(), Print(v)) == Ok(v) <==> AppendEntriesDefinite(x))
  {
    hide Read, Print, AppendEntriesCells, AppendEntriesOf;
    hide AppendEntriesCarriable, AppendEntriesDefinite, Named, AllCarriable, AllDefinite;
    AppendEntriesFacts(x);
    AppendEntriesReadBack(x);
    CellsRoundTrip(AppendEntriesCells(x));
  }

  /** Every reply in range. */
  lemma AppendEntriesReplyRoundTrip(x: AppendEntriesReply)
    requires AllCarriable(AppendEntriesReplyCells(x))
    ensures var v := VRecord(MembersOf(AppendEntriesReplyCells(x)));
            Decode(AppendEntriesReplyTy(), AppendEntriesReplyOf, Print(v)) == Ok(x)
  {
    hide Plain, Read, Print;
    ReplyNamesArePlain();
    var cells := AppendEntriesReplyCells(x);
    assert FieldsOf(cells) == AppendEntriesReplyTy().fields;
    CellsRoundTrip(cells);
  }

  /** A vote request, unless the candidate is called None. */
  lemma RequestVoteRoundTrip(x: RequestVote)
    requires AllCarriable(RequestVoteCells(x))
    ensures var v := VRecord(MembersOf(RequestVoteCells(x)));
            && (x.candidateId.name != "None" ==> Decode(RequestVoteTy(), RequestVoteOf, Print(v)) == Ok(x))
            && (Read(RequestVoteTy(), Print(v)) == Ok(v) <==> x.candidateId.name != "None")
  {
    hide Plain, Read, Print, SafeString;
    VoteNamesArePlain();
    var cells := RequestVoteCells(x);
    assert FieldsOf(cells) == RequestVoteTy().fields;
    assert AllDefinite(cells) <==> Definite(cells[1]);
    CellsRoundTrip(cells);
  }

  /** Every vote reply in range. */
  lemma RequestVoteReplyRoundTrip(x: RequestVoteReply)
    requires AllCarriable(RequestVoteReplyCells(x))
    ensures var v := VRecord(MembersOf(RequestVoteReplyCells(x)));
            Decode(RequestVoteReplyTy(), RequestVoteReplyOf, Print(v)) == Ok(x)
  {
    hide Plain, Read, Print;
    VoteNamesArePlain();
    var cells := RequestVoteReplyCells(x);
    assert FieldsOf(cells) == RequestVoteReplyTy().fields;
    CellsRoundTrip(cells);
  }

  // ---------------------------------------------------------------- what does not arrive

  /** A last item that is empty does not arrive; the items before it do. */
  lemma LastEmptyItemIsLost(xs: seq<string>)
    requires ItemsCarriable(xs) && EndsEmpty(xs)
    ensures Decode(TVec(TStr), StrsOf, Print(VVec(StrVals(xs)))) == Ok(xs[..|xs| - 1])
  {
    hide SafeString, Read, Print, Lossless, Typed, PrintAll, ReadAll;
    var n := |xs| - 1;
    ItemsFacts(xs);
    StringsReadBack(xs[..n]);
    assert StrVals(xs[..n]) == StrVals(xs)[..n];
    EmptyLastIsDropped(StrVals(xs));
    assert StrsOf(VVec(StrVals(xs[..n]))) == xs[..n];
  }

  lemma EmptyLastIsDropped(es: seq<Val>)
    requires Typed(TVec(TStr), VVec(es)) && |es| > 0 && es[|es| - 1] == VStr("")
    requires ReadAll(TStr, PrintAll(es[..|es| - 1])) == Ok(es[..|es| - 1])
    ensures Read(TVec(TStr), Print(VVec(es))) == Ok(VVec(es[..|es| - 1]))
  {
    hide Typed, Pieces, Join, StripEnd, StripStart, Trim, ReadAll, PrintAll;
    var n := |es| - 1;
    ListInner(TStr, es);
    ListEmpty(TStr, es);
    ListScan(TStr, es);
    assert PrintAll(es)[..n] == PrintAll(es[..n]);
  }

  lemma StringsReadBack(xs: seq<string>)
    requires ItemsCarriable(xs)
    ensures ReadAll(TStr, PrintAll(StrVals(xs))) == Ok(StrVals(xs))
  {
    hide SafeString;
    AllRoundTrip(TStr, StrVals(xs));
  }

  /** A key spelled like an absent option is not printed, and the record is refused. */
  lemma NoneKeyIsMissing()
    ensures Read(GetReqTy(), Print(VRecord([FieldVal("key", VStr("None"))]))) == Err(MissingField("key"))
  {
    hide SafeString, Typed, Lossless, FieldsFrom, Print, Trim, Plain;
    var cells := [Words("key", "None")];
    FieldNamesArePlain();
    NoneIsSafe();
    RecordFacts(cells);
    var fs := MembersOf(cells);
    assert fs == [FieldVal("key", VStr("None"))] && FieldsOf(cells) == GetReqTy().fields;
    RecordScan(GetReqTy().fields, fs);
    assert fs[0] in fs;
    PrintsAsNone();
  }

  lemma NoneIsSafe()
    ensures SafeString("None")
  {
    ClosedPlain("None");
  }

  lemma PrintsAsNone()
    ensures Print(VStr("None")) == "None"
  {
  }
}
