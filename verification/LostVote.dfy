/** Why a restart must be able to read the log file: one that cannot forgets its vote, and a term gets two leaders. */
module LostVote {
  import opened Messages
  import opened Metadata
  import opened Replica
  import opened Cluster
  import opened ElectionSafety
  import LogFile
  import opened Scenarios
  import opened UnsteadyCommit

  /** A process that reads back an empty log is blank, in the term that was stored. */
  lemma RestartedEmpty(c: Cluster, i: Id, m: nat)
    requires Sound(c) && i in c.members && Peered(c.members[i].node, i, m)
    ensures Enabled(c, Restart(i, Some([])))
    ensures var c' := AfterRestart(c, i, Some([]));
            && Only(c, c', i) && Blank(c'.members[i].node, i, m)
            && c'.members[i].node.term == c.members[i].node.term
  {
    hide Sound;
    Facts(c, i);
  }

  /** One that cannot read its log file is blank, in term 0. */
  lemma RestartedRefused(c: Cluster, i: Id, m: nat)
    requires i in c.members && Peered(c.members[i].node, i, m)
    ensures Enabled(c, Restart(i, None))
    ensures var c' := AfterRestart(c, i, None);
            Only(c, c', i) && Blank(c'.members[i].node, i, m) && c'.members[i].node.term == 0
  {
  }

  /** What happens to `b`: how it stands in state `c` of a run in which `a` leads term 1 with one entry. */
  ghost predicate Voted(c: Cluster, a: Id, b: Id, d: Id, logs: Log) {
    && a in c.members && b in c.members && d in c.members
    && c.members[a].node.role == Leader && c.members[a].node.term == 1
    && Follows(c.members[b].node, b, 2, logs) && c.members[b].node.term == 1
    && Blank(c.members[d].node, d, 2) && c.members[d].node.term == 0 && b in c.members[d].node.peers
    && AppendRequest(b, Beat(1, a, [LogFile.SAMPLE])) in c.net
  }

  /** The first life of `b`: it votes for `a` in term 1 and accepts its entry. */
  lemma FirstLife(a: Id, b: Id, d: Id) returns (r: Run, c: Cluster)
    requires a != b && b != d && a != d
    ensures Reaches(r, c, NoRestart) && Voted(c, a, b, d, [LogFile.SAMPLE])
  {
    hide Reaches, OnlyThese, Stands;
    var entry := [LogFile.SAMPLE];
    assert [] + [LogEntry(Unknown, 1)] == entry;
    var r0, c0 := StartThree(a, b, d, NoRestart);
    var r1, c1 := WinOfThree(r0, c0, a, b, NoRestart);
    Untouched(c0, c1, {a, b}, a);
    Untouched(c0, c1, {a, b}, b);
    Untouched(c0, c1, {a, b}, d);
    hide Blank, Leads;
    var r2, c2 := SubmitTo(r1, c1, a, 2, 1, [], Unknown, NoRestart);
    OnlyOne(c1, c2, a);
    Untouched(c1, c2, {a}, a);
    Untouched(c1, c2, {a}, b);
    Untouched(c1, c2, {a}, d);
    r, c := Replicate(r2, c2, a, b, 2, 1, entry, NoRestart);
    Untouched(c2, c, {a, b}, a);
    Untouched(c2, c, {a, b}, b);
    Untouched(c2, c, {a, b}, d);
    LeadsTerm(c.members[a].node, a, 2, 1, entry);
  }

  lemma LeadsTerm(n: Node, i: Id, m: nat, t: nat, logs: Log)
    requires Leads(n, i, m, t, logs)
    ensures n.role == Leader && n.term == t
  {
  }

  lemma ReachedIsSound(r: Run, c: Cluster)
    requires Reaches(r, c, NoRestart)
    ensures Sound(c)
  {
    RunOf(r, c, NoRestart);
    hide Reaches, Init, Enabled, Next, Sound;
    RunSound(r, |r.steps|);
  }

  /** The second life: it reads back nothing, and accepts the same request again. */
  lemma SecondLife(r: Run, c: Cluster, a: Id, b: Id, d: Id) returns (r': Run, c': Cluster)
    requires Reaches(r, c, AnyStep) && Sound(c) && Voted(c, a, b, d, [LogFile.SAMPLE]) && a != b && b != d
    ensures Reaches(r', c', AnyStep) && Voted(c', a, b, d, [LogFile.SAMPLE])
    ensures r.states <= r'.states && |r'.steps| == |r.steps| + 2 && r.steps <= r'.steps
    ensures r'.steps[|r.steps|] == Restart(b, Some([])) && !r'.steps[|r.steps| + 1].Restart?
  {
    hide Reaches, Enabled, AfterRestart, AfterAppendRequest, Sound, Continues;
    var beat := Beat(1, a, [LogFile.SAMPLE]);
    RestartedEmpty(c, b, 2);
    var c1 := AfterRestart(c, b, Some([]));
    var r1 := TakeStep(r, c, Restart(b, Some([])), c1, AnyStep);
    Accept(c1, a, b, 2, 1, [LogFile.SAMPLE]);
    c' := AfterAppendRequest(c1, b, beat);
    r' := TakeStep(r1, c1, Deliver(AppendRequest(b, beat)), c', AnyStep);
  }

  /** The third life: the log file is refused, the vote forgotten, and `d` elected to the same term. */
  lemma ThirdLife(r: Run, c: Cluster, a: Id, b: Id, d: Id) returns (r': Run, c': Cluster)
    requires Reaches(r, c, AnyStep) && Voted(c, a, b, d, [LogFile.SAMPLE]) && a != b && b != d && a != d
    ensures Reaches(r', c', AnyStep) && r.states <= r'.states && r.steps <= r'.steps && |r.steps| < |r'.steps|
    ensures r'.steps[|r.steps|] == Restart(b, None)
    ensures forall k :: |r.steps| < k < |r'.steps| ==> !r'.steps[k].Restart?
    ensures a in c'.members && c'.members[a].node.role == Leader && c'.members[a].node.term == 1
    ensures d in c'.members && c'.members[d].node.role == Leader && c'.members[d].node.term == 1
  {
    hide Reaches, Enabled, AfterRestart, OnlyThese;
    RestartedRefused(c, b, 2);
    var c1 := AfterRestart(c, b, None);
    var r1 := TakeStep(r, c, Restart(b, None), c1, AnyStep);
    OnlyOne(c, c1, b);
    hide Blank;
    r', c' := WinOfThree(r1, c1, d, b, AnyStep);
    Untouched(c1, c', {d, b}, a);
    Untouched(c1, c', {d, b}, d);
    LeadsTerm(c'.members[d].node, d, 2, 1, []);
    assert r1.steps[|r.steps|] == Restart(b, None);
  }

  /** The bytes of `b`'s log file in its second life, and in its third. */
  function FileAfterCut(): seq<LogFile.Byte> {
    LogFile.TORN
  }

  function FileAfterAppend(): seq<LogFile.Byte> {
    LogFile.TORN + LogFile.Frames(LogFile.UnitCodec(), [LogFile.SAMPLE])
  }

  /**
   Three nodes. `b` votes for `a` in term 1 and logs its entry. It stops at moment `j`, when only the first bytes of
   the entry's frame have reached the file, which then reads as empty. It logs the entry again, behind those bytes,
   and stops at moment `k`; now the file is refused. `b` has forgotten its vote and gives it to `d`. Both lead term 1.
   */
  lemma TwoLeaders(a: Id, b: Id, d: Id) returns (r: Run, j: nat, k: nat)
    requires a != b && b != d && a != d
    ensures r.Valid() && j < k < |r.steps|
    ensures forall i :: 0 <= i < |r.steps| ==> (r.steps[i].Restart? <==> i == j || i == k)
    ensures && b in r.states[j].members && r.states[j].members[b].node.logs == [LogFile.SAMPLE]
            && b in r.states[k].members && r.states[k].members[b].node.logs == [LogFile.SAMPLE]
    ensures && r.steps[j] == Restart(b, LogFile.ReadFrames(LogFile.UnitCodec(), FileAfterCut()))
            && r.steps[k] == Restart(b, LogFile.ReadFrames(LogFile.UnitCodec(), FileAfterAppend()))
    ensures var c := r.states[|r.steps|];
            && a in c.members && c.members[a].node.role == Leader && c.members[a].node.term == 1
            && d in c.members && c.members[d].node.role == Leader && c.members[d].node.term == 1
  {
    hide LogFile.ReadFrames, LogFile.UnitCodec, FileAfterCut, FileAfterAppend;
    FilesOfTheRun();
    r, j, k := ThreeLives(a, b, d);
  }

  /**
   These are files the writer makes: a flush of the entry, cut, and a flush of the entry behind what was left. The
   first reads as an empty log, the second is refused.
   */
  lemma FilesOfTheRun()
    ensures LogFile.ReadFrames(LogFile.UnitCodec(), FileAfterCut()) == Some([])
    ensures LogFile.ReadFrames(LogFile.UnitCodec(), FileAfterAppend()) == None
    ensures var c, steps := LogFile.UnitCodec(), [LogFile.Append([LogFile.SAMPLE]), LogFile.Take, LogFile.Write(0)];
            var first, second := LogFile.Opened(c, []), LogFile.EMPTY.(file := FileAfterCut());
            && LogFile.Possible(c, first, steps) && FileAfterCut() <= LogFile.Final(c, first, steps).file
            && LogFile.Possible(c, second, steps) && LogFile.Final(c, second, steps).file == FileAfterAppend()
  {
    hide LogFile.ReadFrames, LogFile.UnitCodec, LogFile.Possible, LogFile.Final;
    LogFile.TornFileIsRefused();
    LogFile.OneFrame(LogFile.UnitCodec(), LogFile.SAMPLE);
    LogFile.WrittenBehind(LogFile.UnitCodec(), [], [LogFile.SAMPLE]);
    LogFile.WrittenBehind(LogFile.UnitCodec(), FileAfterCut(), [LogFile.SAMPLE]);
    assert [] + LogFile.Frames(LogFile.UnitCodec(), [LogFile.SAMPLE]) ==
      LogFile.Frames(LogFile.UnitCodec(), [LogFile.SAMPLE]);
  }

  lemma ThreeLives(a: Id, b: Id, d: Id) returns (r: Run, j: nat, k: nat)
    requires a != b && b != d && a != d
    ensures r.Valid() && j < k < |r.steps|
    ensures forall i :: 0 <= i < |r.steps| ==> (r.steps[i].Restart? <==> i == j || i == k)
    ensures && b in r.states[j].members && r.states[j].members[b].node.logs == [LogFile.SAMPLE]
            && b in r.states[k].members && r.states[k].members[b].node.logs == [LogFile.SAMPLE]
    ensures r.steps[j] == Restart(b, Some([])) && r.steps[k] == Restart(b, None)
    ensures var c := r.states[|r.steps|];
            && a in c.members && c.members[a].node.role == Leader && c.members[a].node.term == 1
            && d in c.members && c.members[d].node.role == Leader && c.members[d].node.term == 1
  {
    hide Reaches;
    var r1, c1 := FirstLife(a, b, d);
    ReachedIsSound(r1, c1);
    hide Sound;
    RunOf(r1, c1, NoRestart);
    Loosen(r1, c1);
    var r2, c2 := SecondLife(r1, c1, a, b, d);
    RunOf(r2, c2, AnyStep);
    var r3, c3 := ThirdLife(r2, c2, a, b, d);
    RunOf(r3, c3, AnyStep);
    hide Init, Enabled, Next;
    r, j, k := r3, |r1.steps|, |r2.steps|;
    RestartsAt(r1.steps, r2.steps, r3.steps);
    assert r.states[j] == r2.states[j] == r1.states[j] == c1;
    assert r.states[k] == r2.states[k] == c2;
  }

  lemma RestartsAt(s1: seq<Step>, s2: seq<Step>, s3: seq<Step>)
    requires s1 <= s2 <= s3 && |s2| == |s1| + 2 && |s2| < |s3|
    requires forall i :: 0 <= i < |s1| ==> !s1[i].Restart?
    requires s2[|s1|].Restart? && !s2[|s1| + 1].Restart? && s3[|s2|].Restart?
    requires forall i :: |s2| < i < |s3| ==> !s3[i].Restart?
    ensures forall i :: 0 <= i < |s3| ==> (s3[i].Restart? <==> i == |s1| || i == |s2|)
    ensures s3[|s1|] == s2[|s1|]
  {
    assert forall i :: 0 <= i < |s1| ==> s3[i] == s2[i] == s1[i];
    assert forall i :: 0 <= i < |s2| ==> s3[i] == s2[i];
  }

  /**
   For the bytes of the log file: the restarted node stands by its vote if and only if they decode or nothing was
   stored.
   */
  lemma FileDecidesVote(c: Cluster, i: Id, codec: LogFile.Codec, file: seq<LogFile.Byte>)
    requires Sound(c) && i in c.members
    ensures var restored := LogFile.ReadFrames(codec, file);
            var n, n' := c.members[i].node, AfterRestart(c, i, restored).members[i].node;
            SameVote(n'.Persistent(), n.Persistent()) <==>
              restored.Some? || SameVote(c.members[i].meta.Restored(), NOTHING_STORED)
  {
    hide Sound, LogFile.ReadFrames;
    RestartSoundIff(c, i, LogFile.ReadFrames(codec, file));
  }
}
