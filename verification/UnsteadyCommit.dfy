/**
 Why the hypotheses on commit matter. A run of three nodes, without crash, loss or restart, in which two nodes
 commit different entries at index 1: each time a leader's first heartbeat is still in flight when two commands
 are submitted, and its reply is credited with entries it never carried. A strictly steady run of five nodes in
 which two nodes commit different entries at index 0. And a deposed leader that aborts on a late reply.
 */
module UnsteadyCommit {
  import opened Messages
  import opened Replica
  import opened Cluster
  import opened CommitSafety
  import opened CommitSteps
  import opened SteadyCommit
  import opened Scenarios

  // ---------------------------------------------------------------- crediting a reply

  /** Two submits after the request was built: the scan commits index 1 on the strength of one reply. */
  lemma Miscount(n: Node, i: Id, p: Id, t: nat, logs: Log)
    requires Leads(n, i, 2, t, logs) && |logs| == 2 && logs[1].term == t && p in n.peers
    ensures var n' := OnAeResult(n, p, 0, Yes(t)).node;
            && n'.commitIndex == Some(1) && n'.logs == logs && n'.peers == n.peers && n'.role == Leader && n'.term == t
            && n'.id == i && p in n'.nextIndex && n'.nextIndex[p] == 2
  {
    var n1 := n.(nextIndex := n.nextIndex[p := 2], matchIndex := n.matchIndex[p := 1]);
    assert MatchOf(n1, p) == 1;
    assert forall q :: q in n.peers && q != p ==> MatchOf(n, q) == 0 && MatchOf(n1, q) == 0;
    assert n1.peers[..1] == [n1.peers[0]] && n1.peers[..1][..0] == [];
    assert MatchCount(n1, n1.peers[..1], 1) == if p == n1.peers[0] then 1 else 0;
    assert MatchCount(n1, n1.peers, 1) >= 1;
    assert Committable(n1, 1);
  }

  /** One entry: the scan commits index 0 on any reply, since everyone counts as matching it. */
  lemma CountsAsMatched(n: Node, i: Id, p: Id, m: nat, t: nat, logs: Log)
    requires Leads(n, i, m, t, logs) && |logs| == 1 && logs[0].term == t
    ensures var n' := OnAeResult(n, p, 0, Yes(t)).node;
            n'.commitIndex == Some(0) && n'.logs == logs && n'.peers == n.peers
  {
    CreditShape(n, p, 0, Yes(t));
    hide OnAeResult;
    FirstIsCommittable(Credited(n, p));
    hide Committable;
  }

  /** The leader after it credited the reply to its empty request with two entries. */
  ghost predicate Outran(n: Node, i: Id, p: Id, t: nat, logs: Log) {
    && Peered(n, i, 2) && n.role == Leader && n.term == t && n.logs == logs && n.commitIndex == Some(1)
    && p in n.nextIndex && n.nextIndex[p] == 2
  }

  lemma Credit(c: Cluster, i: Id, p: Id, t: nat, logs: Log)
    requires i in c.members && Leads(c.members[i].node, i, 2, t, logs) && p in c.members[i].node.peers
    requires |logs| == 2 && logs[1].term == t && AppendReply(i, p, Beat(t, i, []), Yes(t)) in c.net
    ensures Enabled(c, Deliver(AppendReply(i, p, Beat(t, i, []), Yes(t))))
    ensures var c' := AfterAppendReply(c, i, p, Beat(t, i, []), Yes(t));
            Only(c, c', i) && Outran(c'.members[i].node, i, p, t, logs)
  {
    Miscount(c.members[i].node, i, p, t, logs);
    hide OnAeResult, MatchOf;
  }

  lemma CreditOne(c: Cluster, i: Id, p: Id, m: nat, t: nat, logs: Log)
    requires i in c.members && Leads(c.members[i].node, i, m, t, logs) && |logs| == 1 && logs[0].term == t
    requires AppendReply(i, p, Beat(t, i, logs), Yes(t)) in c.net && AckOf(c, p, t) >= 1
    ensures var s := Deliver(AppendReply(i, p, Beat(t, i, logs), Yes(t))); Enabled(c, s) && StrictlySteady(c, s)
    ensures var c' := AfterAppendReply(c, i, p, Beat(t, i, logs), Yes(t));
            Only(c, c', i) && c'.members[i].node.logs == logs && c'.members[i].node.commitIndex == Some(0)
  {
    CountsAsMatched(c.members[i].node, i, p, m, t, logs);
    hide OnAeResult, MatchOf;
  }

  // ---------------------------------------------------------------- different entries at index 1

  /** Two submits, then the reply to the empty request. */
  lemma Outrun(r: Run, c: Cluster, i: Id, p: Id, t: nat, x: Command, y: Command) returns (r': Run, c': Cluster)
    requires Reaches(r, c, NoRestart) && i in c.members && Leads(c.members[i].node, i, 2, t, [])
    requires p in c.members[i].node.peers
    requires AppendReply(i, p, Beat(t, i, []), Yes(t)) in c.net
    ensures Reaches(r', c', NoRestart) && OnlyThese(c, c', {i})
    ensures Outran(c'.members[i].node, i, p, t, [LogEntry(x, t), LogEntry(y, t)])
  {
    hide Reaches, Leads, Enabled, AfterAppendReply, Outran;
    var one, two := [LogEntry(x, t)], [LogEntry(x, t), LogEntry(y, t)];
    assert [] + [LogEntry(x, t)] == one && one + [LogEntry(y, t)] == two;
    var r1, c1 := SubmitTo(r, c, i, 2, t, [], x, NoRestart);
    var r2, c2 := SubmitTo(r1, c1, i, 2, t, one, y, NoRestart);
    Credit(c2, i, p, t, two);
    c' := AfterAppendReply(c2, i, p, Beat(t, i, []), Yes(t));
    r' := TakeStep(r2, c2, Deliver(AppendReply(i, p, Beat(t, i, []), Yes(t))), c', NoRestart);
  }

  /** From two blank nodes of three to a leader that has committed two entries nobody else holds. */
  lemma MiscountedReign(r: Run, c: Cluster, i: Id, p: Id, x: Command, y: Command) returns (r': Run, c': Cluster)
    requires Reaches(r, c, NoRestart) && i in c.members && p in c.members && i != p && p in c.members[i].node.peers
    requires Blank(c.members[i].node, i, 2) && Blank(c.members[p].node, p, 2)
    requires c.members[p].node.term <= c.members[i].node.term
    ensures Reaches(r', c', NoRestart) && OnlyThese(c, c', {i, p})
    ensures var t := c.members[i].node.term + 1;
            && Outran(c'.members[i].node, i, p, t, [LogEntry(x, t), LogEntry(y, t)])
            && Blank(c'.members[p].node, p, 2) && c'.members[p].node.term == t
  {
    hide Reaches, Leads, Stands, OnlyThese, Outran;
    var t := c.members[i].node.term + 1;
    var r1, c1 := WinOfThree(r, c, i, p, NoRestart);
    Untouched(c, c1, {i, p}, i);
    Untouched(c, c1, {i, p}, p);
    var r2, c2 := Replicate(r1, c1, i, p, 2, t, [], NoRestart);
    Untouched(c1, c2, {i, p}, i);
    Untouched(c1, c2, {i, p}, p);
    Onward(c, c1, c2, {i, p}, {i, p});
    r', c' := Outrun(r2, c2, i, p, t, x, y);
    Untouched(c2, c', {i}, p);
    Onward(c, c2, c', {i, p} + {i, p}, {i});
    assert {i, p} + {i, p} + {i} == {i, p};
  }

  lemma RunOf(r: Run, c: Cluster, kind: Kind)
    requires Reaches(r, c, kind)
    ensures r.Valid() && r.states[|r.steps|] == c
    ensures kind != AnyStep ==> r.RestartFree()
    ensures kind == StrictOnly ==> StrictRun(r)
  {
    hide Init, Enabled, Next, StrictlySteady;
    forall k | 0 <= k < |r.steps|
      ensures kind != AnyStep ==> !r.steps[k].Restart?
      ensures kind == StrictOnly ==> StrictlySteady(r.states[k], r.steps[k])
    {
      assert Allowed(r.states[k], r.steps[k], kind);
    }
  }

  /**
   Without steadiness state machine safety fails: some run has two nodes with different entries committed at
   index 1.
   */
  lemma CommittedEntriesDiffer(a: Id, b: Id, d: Id, w: Command, x: Command, y: Command, z: Command)
    returns (r: Run, c: Cluster)
    requires a != b && b != d && a != d
    ensures r.Valid() && r.RestartFree() && r.states[|r.steps|] == c && a in c.members && b in c.members
    ensures var na, nb := c.members[a].node, c.members[b].node;
            && na.commitIndex == Some(1) && nb.commitIndex == Some(1)
            && na.logs == [LogEntry(w, 1), LogEntry(x, 1)] && nb.logs == [LogEntry(y, 2), LogEntry(z, 2)]
  {
    hide Reaches, Blank, OnlyThese;
    var r0, c0 := StartThree(a, b, d, NoRestart);
    var r1, c1 := MiscountedReign(r0, c0, a, b, w, x);
    Untouched(c0, c1, {a, b}, a);
    Untouched(c0, c1, {a, b}, b);
    Untouched(c0, c1, {a, b}, d);
    r, c := MiscountedReign(r1, c1, b, d, y, z);
    Untouched(c1, c, {b, d}, a);
    Untouched(c1, c, {b, d}, b);
    RunOf(r, c, NoRestart);
  }

  // ---------------------------------------------------------------- different entries at index 0

  /** Three blank nodes of five, two of which may elect the other. */
  ghost predicate Ready(c: Cluster, i: Id, p: Id, q: Id) {
    && i in c.members && p in c.members && q in c.members && i != p && i != q && p != q
    && p in c.members[i].node.peers && q in c.members[i].node.peers
    && Blank(c.members[i].node, i, 4) && Blank(c.members[p].node, p, 4) && Blank(c.members[q].node, q, 4)
    && c.members[p].node.term <= c.members[i].node.term && c.members[q].node.term <= c.members[i].node.term
  }

  /** The leader's one entry, submitted, replicated to `p` and credited. */
  lemma CommitFirst(r: Run, c: Cluster, i: Id, p: Id, t: nat, x: Command) returns (r': Run, c': Cluster)
    requires Reaches(r, c, StrictOnly) && i in c.members && p in c.members && i != p && p in c.members[i].node.peers
    requires Leads(c.members[i].node, i, 4, t, []) && Blank(c.members[p].node, p, 4) && c.members[p].node.term <= t
    ensures Reaches(r', c', StrictOnly) && OnlyThese(c, c', {i, p})
    ensures c'.members[i].node.logs == [LogEntry(x, t)] && c'.members[i].node.commitIndex == Some(0)
  {
    hide Reaches, Blank, Leads, OnlyThese, Follows, Enabled, AfterAppendReply;
    var one := [LogEntry(x, t)];
    assert [] + [LogEntry(x, t)] == one;
    var r1, c1 := SubmitTo(r, c, i, 4, t, [], x, StrictOnly);
    OnlyOne(c, c1, i);
    Untouched(c, c1, {i}, i);
    Untouched(c, c1, {i}, p);
    var r2, c2 := Replicate(r1, c1, i, p, 4, t, one, StrictOnly);
    Untouched(c1, c2, {i, p}, i);
    Onward(c, c1, c2, {i}, {i, p});
    CreditOne(c2, i, p, 4, t, one);
    c' := AfterAppendReply(c2, i, p, Beat(t, i, one), Yes(t));
    r' := TakeStep(r2, c2, Deliver(AppendReply(i, p, Beat(t, i, one), Yes(t))), c', StrictOnly);
    OnlyOne(c2, c', i);
    Onward(c, c2, c', {i} + {i, p}, {i});
    assert {i} + {i, p} + {i} == {i, p};
  }

  /** From three blank nodes of five to a leader that has committed one entry on one acknowledgement. */
  lemma FirstReign(r: Run, c: Cluster, i: Id, p: Id, q: Id, x: Command) returns (r': Run, c': Cluster)
    requires Reaches(r, c, StrictOnly) && Ready(c, i, p, q)
    ensures Reaches(r', c', StrictOnly) && OnlyThese(c, c', {i, p, q})
    ensures var t := c.members[i].node.term + 1;
            && i in c'.members && c'.members[i].node.logs == [LogEntry(x, t)]
            && c'.members[i].node.commitIndex == Some(0)
            && q in c'.members && Blank(c'.members[q].node, q, 4) && c'.members[q].node.term == t
  {
    hide Reaches, Blank, Leads, OnlyThese;
    var t := c.members[i].node.term + 1;
    var r1, c1 := WinOfFive(r, c, i, p, q, StrictOnly);
    Untouched(c, c1, {i, p, q}, i);
    Untouched(c, c1, {i, p, q}, p);
    Untouched(c, c1, {i, p, q}, q);
    r', c' := CommitFirst(r1, c1, i, p, t, x);
    Untouched(c1, c', {i, p}, i);
    Untouched(c1, c', {i, p}, q);
    Onward(c, c1, c', {i, p, q}, {i, p});
    assert {i, p, q} + {i, p} == {i, p, q};
  }

  lemma ReadyFirst(c: Cluster, a: Id, b: Id, d: Id, e: Id, f: Id)
    requires Different(a, b, d, e, f)
    requires var ids := [a, b, d, e, f]; BeginsAt(c, ids, a) && BeginsAt(c, ids, b) && BeginsAt(c, ids, d)
    ensures Ready(c, a, b, d) && c.members[a].node.term == 0
  {
    hide Blank;
  }

  lemma ReadyNext(c: Cluster, c': Cluster, a: Id, b: Id, d: Id, e: Id, f: Id)
    requires Different(a, b, d, e, f)
    requires var ids := [a, b, d, e, f]; BeginsAt(c, ids, d) && BeginsAt(c, ids, e) && BeginsAt(c, ids, f)
    requires OnlyThese(c, c', {a, b, d}) && d in c'.members
    requires Blank(c'.members[d].node, d, 4) && c'.members[d].node.term == 1
    ensures Ready(c', d, e, f)
  {
    hide Blank, OnlyThese;
    Untouched(c, c', {a, b, d}, d);
    Untouched(c, c', {a, b, d}, e);
    Untouched(c, c', {a, b, d}, f);
  }

  /**
   With five nodes even strictly steady runs leave index 0 unprotected: one acknowledgement of five commits it,
   and two nodes may have different entries committed there.
   */
  lemma FirstEntriesDiffer(a: Id, b: Id, d: Id, e: Id, f: Id, x: Command, y: Command) returns (r: Run, c: Cluster)
    requires Different(a, b, d, e, f)
    ensures StrictRun(r) && r.states[|r.steps|] == c && a in c.members && d in c.members
    ensures var na, nd := c.members[a].node, c.members[d].node;
            && na.commitIndex == Some(0) && nd.commitIndex == Some(0)
            && na.logs == [LogEntry(x, 1)] && nd.logs == [LogEntry(y, 2)]
  {
    hide Reaches, Blank, OnlyThese, StrictRun, Ready, BeginsAt;
    var r0, c0 := StartFive(a, b, d, e, f, StrictOnly);
    ReadyFirst(c0, a, b, d, e, f);
    var r1, c1 := FirstReign(r0, c0, a, b, d, x);
    ReadyNext(c0, c1, a, b, d, e, f);
    r, c := FirstReign(r1, c1, d, e, f, y);
    Untouched(c1, c, {d, e, f}, a);
    RunOf(r, c, StrictOnly);
  }

  // ---------------------------------------------------------------- a reply that comes too late

  /** What the leader that outran its follower sends next: nothing, from index 2. */
  function Probe(t: nat, i: Id): AppendEntries {
    AppendEntries(t, i, Some(1), Some(t), [], Some(1))
  }

  function No(t: nat): AppendEntriesReply {
    AppendEntriesReply(t, false, Some(0), None)
  }

  lemma SendProbe(c: Cluster, i: Id, p: Id, t: nat, logs: Log)
    requires i in c.members && Outran(c.members[i].node, i, p, t, logs) && p in c.members[i].node.peers
    requires |logs| == 2 && logs[1].term == t
    ensures Enabled(c, Heartbeat(i))
    ensures var c' := AfterHeartbeat(c, i);
            && Only(c, c', i) && AppendRequest(p, Probe(t, i)) in c'.net
            && c'.members[i].node == SendAes(c.members[i].node)
  {
    var n := c.members[i].node;
    assert NextFor(n, p) == 2;
    assert Request(n, 2) == Probe(t, i);
    hide SendAes;
    SendKeeps(n);
  }

  lemma SendKeeps(n: Node)
    ensures var n' := SendAes(n);
            && n'.id == n.id && n'.peers == n.peers && n'.logs == n.logs && n'.term == n.term
            && n'.role == n.role && n'.commitIndex == n.commitIndex
  {
  }

  lemma ProbeRefusal(n: Node, i: Id, p: Id, t: nat)
    requires Blank(n, p, 2) && n.term == t
    ensures OnAppendEntries(n, Probe(t, i)) == Outcome(n, [], Some(No(t)))
  {
  }

  lemma RefuseProbe(c: Cluster, i: Id, p: Id, t: nat)
    requires p in c.members && Blank(c.members[p].node, p, 2) && c.members[p].node.term == t
    requires AppendRequest(p, Probe(t, i)) in c.net
    ensures Enabled(c, Deliver(AppendRequest(p, Probe(t, i))))
    ensures var c' := AfterAppendRequest(c, p, Probe(t, i));
            && Only(c, c', p) && Blank(c'.members[p].node, p, 2) && c'.members[p].node.term == t
            && AppendReply(i, p, Probe(t, i), No(t)) in c'.net
  {
    ProbeRefusal(c.members[p].node, i, p, t);
    hide OnAppendEntries;
  }

  /** The leader probes the follower it outran; the refusal is under way. */
  lemma ProbeRefused(r: Run, c: Cluster, i: Id, p: Id, t: nat, logs: Log) returns (r': Run, c': Cluster)
    requires Reaches(r, c, NoRestart) && i in c.members && p in c.members && i != p && p in c.members[i].node.peers
    requires Outran(c.members[i].node, i, p, t, logs) && |logs| == 2 && logs[1].term == t
    requires Blank(c.members[p].node, p, 2) && c.members[p].node.term == t
    ensures Reaches(r', c', NoRestart) && OnlyThese(c, c', {i, p}) && AppendReply(i, p, Probe(t, i), No(t)) in c'.net
    ensures Blank(c'.members[p].node, p, 2) && c'.members[p].node.term == t
    ensures var n := c'.members[i].node; Peered(n, i, 2) && n.role == Leader && n.term == t && n.logs == logs
  {
    hide Reaches, Blank, Enabled, AfterHeartbeat, AfterAppendRequest;
    SendProbe(c, i, p, t, logs);
    SendKeeps(c.members[i].node);
    hide SendAes;
    var c1 := AfterHeartbeat(c, i);
    var r1 := TakeStep(r, c, Heartbeat(i), c1, NoRestart);
    RefuseProbe(c1, i, p, t);
    c' := AfterAppendRequest(c1, p, Probe(t, i));
    r' := TakeStep(r1, c1, Deliver(AppendRequest(p, Probe(t, i))), c', NoRestart);
    OnlyTwo(c, c1, c', i, p);
  }

  lemma Replace(c: Cluster, i: Id, p: Id, t: nat, logs: Log)
    requires p in c.members && Peered(c.members[p].node, p, 2) && c.members[p].node.role != Dead
    requires c.members[p].node.term < t
    requires |c.members[p].node.logs| > 0 && |logs| > 0 && c.members[p].node.logs[0].term != logs[0].term
    requires AppendRequest(p, Beat(t, i, logs)) in c.net
    ensures Enabled(c, Deliver(AppendRequest(p, Beat(t, i, logs))))
    ensures var c' := AfterAppendRequest(c, p, Beat(t, i, logs));
            && Only(c, c', p) && c'.members[p].node.logs == logs && c'.members[p].node.term == t
            && c'.members[p].node.role == Follower
  {
    hide OnAppendEntries, Peered;
    AcceptNode(c.members[p].node, p, 2, t, i, logs);
    SteppedDown(c.members[p].node, Beat(t, i, logs));
    AcceptedCluster(c, p, Beat(t, i, logs));
  }

  lemma SteppedDown(n: Node, req: AppendEntries)
    requires n.role != Dead && n.term < req.term
    ensures OnAppendEntries(n, req).node.role == Follower
  {
  }

  /** A peer becomes leader with one entry of its own. */
  lemma Succeed(r: Run, c: Cluster, i: Id, q: Id, t: nat, y: Command) returns (r': Run, c': Cluster)
    requires Reaches(r, c, NoRestart) && i in c.members && q in c.members && i != q
    requires q in c.members[i].node.peers && c.members[i].node.term + 1 == t
    requires Blank(c.members[i].node, i, 2) && Blank(c.members[q].node, q, 2) && c.members[q].node.term < t
    ensures Reaches(r', c', NoRestart) && OnlyThese(c, c', {i, q})
    ensures Leads(c'.members[i].node, i, 2, t, [LogEntry(y, t)])
  {
    hide Reaches, Blank, Leads, OnlyThese;
    assert [] + [LogEntry(y, t)] == [LogEntry(y, t)];
    var r1, c1 := WinOfThree(r, c, i, q, NoRestart);
    Untouched(c, c1, {i, q}, i);
    r', c' := SubmitTo(r1, c1, i, 2, t, [], y, NoRestart);
    OnlyOne(c1, c', i);
    Untouched(c1, c', {i}, i);
    Onward(c, c1, c', {i, q}, {i});
    assert {i, q} + {i} == {i, q};
  }

  /** Its log replaces that of a node whose entries are of an earlier term. */
  lemma Overwrite(r: Run, c: Cluster, i: Id, p: Id, t: nat, logs: Log) returns (r': Run, c': Cluster)
    requires Reaches(r, c, NoRestart) && i in c.members && p in c.members && i != p && p in c.members[i].node.peers
    requires Leads(c.members[i].node, i, 2, t, logs) && |logs| > 0
    requires var n := c.members[p].node;
             Peered(n, p, 2) && n.role != Dead && n.term < t && |n.logs| > 0 && n.logs[0].term != logs[0].term
    ensures Reaches(r', c', NoRestart) && c.net <= c'.net && p in c'.members
    ensures var n := c'.members[p].node; n.logs == logs && n.term == t && n.role == Follower
  {
    hide Reaches, Leads, Enabled, AfterHeartbeat, AfterAppendRequest, Peered;
    Send(c, i, p, 2, t, logs);
    var c1 := AfterHeartbeat(c, i);
    var r1 := TakeStep(r, c, Heartbeat(i), c1, NoRestart);
    Replace(c1, i, p, t, logs);
    c' := AfterAppendRequest(c1, p, Beat(t, i, logs));
    r' := TakeStep(r1, c1, Deliver(AppendRequest(p, Beat(t, i, logs))), c', NoRestart);
  }

  /**
   A deposed leader whose log was cut can meet a reply to a request built past its end: the slice it takes before
   it looks at its own role does not exist, and the actor aborts.
   */
  lemma DeposedLeaderAborts(a: Id, b: Id, d: Id, w: Command, x: Command, y: Command) returns (r: Run, c: Cluster)
    requires a != b && b != d && a != d
    ensures r.Valid() && r.RestartFree() && r.states[|r.steps|] == c && a in c.members
    ensures AppendReply(a, b, Probe(1, a), No(1)) in c.net && c.members[a].node.role == Follower
    ensures !AeResultDefined(c.members[a].node, InsertAt(Probe(1, a)), No(1))
  {
    hide Reaches, Blank, OnlyThese;
    var r0, c0 := StartThree(a, b, d, NoRestart);
    var r1, c1 := MiscountedReign(r0, c0, a, b, w, x);
    Untouched(c0, c1, {a, b}, a);
    Untouched(c0, c1, {a, b}, b);
    Untouched(c0, c1, {a, b}, d);
    var r2, c2 := ProbeRefused(r1, c1, a, b, 1, [LogEntry(w, 1), LogEntry(x, 1)]);
    Untouched(c1, c2, {a, b}, a);
    Untouched(c1, c2, {a, b}, b);
    Untouched(c1, c2, {a, b}, d);
    var r3, c3 := Succeed(r2, c2, b, d, 2, y);
    Untouched(c2, c3, {b, d}, a);
    Untouched(c2, c3, {b, d}, b);
    r, c := Overwrite(r3, c3, b, a, 2, [LogEntry(y, 2)]);
    RunOf(r, c, NoRestart);
  }
}
