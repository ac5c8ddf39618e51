/**
 Concrete runs, step by step: an election among nodes with empty logs, a leader that submits, sends and
 credits a reply. Each lemma takes one step and states what the next one needs.
 */
module Scenarios {
  import opened Messages
  import opened Metadata
  import opened Replica
  import opened Cluster
  import opened CommitSafety
  import opened Quorums

  // ---------------------------------------------------------------- runs

  /** What a run may do: anything, anything but restart, or only strictly steady steps. */
  datatype Kind = AnyStep | NoRestart | StrictOnly

  ghost predicate Allowed(c: Cluster, s: Step, kind: Kind)
    requires Enabled(c, s)
  {
    (kind != AnyStep ==> !s.Restart?) && (kind == StrictOnly ==> StrictlySteady(c, s))
  }

  /** `r` is a run of the given kind that ends in `c`. */
  ghost predicate Reaches(r: Run, c: Cluster, kind: Kind) {
    && r.Valid() && r.states[|r.steps|] == c
    && forall k :: 0 <= k < |r.steps| ==> Allowed(r.states[k], r.steps[k], kind)
  }

  lemma TakeStep(r: Run, c: Cluster, s: Step, c': Cluster, kind: Kind) returns (r': Run)
    requires Reaches(r, c, kind) && Enabled(c, s) && c' == Next(c, s) && Allowed(c, s, kind)
    ensures Reaches(r', c', kind) && r' == Run(r.states + [c'], r.steps + [s])
    ensures !s.Restart? ==> Continues(r, r')
  {
    hide Enabled, Next, Init, Allowed;
    r' := Run(r.states + [c'], r.steps + [s]);
    forall k | 0 <= k < |r'.steps|
      ensures Enabled(r'.states[k], r'.steps[k]) && r'.states[k + 1] == Next(r'.states[k], r'.steps[k])
      ensures Allowed(r'.states[k], r'.steps[k], kind)
    {
      if k < |r.steps| {
        assert r'.states[k] == r.states[k] && r'.states[k + 1] == r.states[k + 1] && r'.steps[k] == r.steps[k];
      }
    }
  }

  /** `r'` goes on from `r` without a restart. */
  ghost predicate Continues(r: Run, r': Run) {
    && r.states <= r'.states && r.steps <= r'.steps
    && forall k :: |r.steps| <= k < |r'.steps| ==> !r'.steps[k].Restart?
  }

  lemma ContinuesOn(r: Run, r': Run, r'': Run)
    requires Continues(r, r') && Continues(r', r'')
    ensures Continues(r, r'')
  {
    assert forall k :: 0 <= k < |r'.steps| ==> r''.steps[k] == r'.steps[k];
  }

  /** A run without restarts is a run. */
  lemma Loosen(r: Run, c: Cluster)
    requires Reaches(r, c, NoRestart)
    ensures Reaches(r, c, AnyStep)
  {
    hide Init, Enabled, Next, StrictlySteady;
    forall k | 0 <= k < |r.steps| ensures Allowed(r.states[k], r.steps[k], AnyStep) {
      assert Allowed(r.states[k], r.steps[k], NoRestart);
    }
  }

  // ---------------------------------------------------------------- how it starts

  /** `ids` without `i`. */
  function Others(ids: seq<Id>, i: Id): seq<Id> {
    if |ids| == 0 then [] else (if ids[0] == i then [] else [ids[0]]) + Others(ids[1..], i)
  }

  lemma {:induction false} OthersOf(ids: seq<Id>, i: Id)
    requires Distinct(ids)
    ensures var o := Others(ids, i);
            && Distinct(o) && |o| == (if i in ids then |ids| - 1 else |ids|)
            && forall p :: p in o <==> p in ids && p != i
  {
    if |ids| > 0 {
      OthersOf(ids[1..], i);
      assert ids == [ids[0]] + ids[1..];
      assert ids[0] !in ids[1..];
    }
  }

  function Fresh(i: Id, peers: seq<Id>): Member {
    Member(Node(i, peers, 0, None, 0, [], None, None, Follower, map[], map[]), MetaState(None, None), {}, {}, [])
  }

  ghost function Start(ids: seq<Id>): Cluster {
    Cluster(map i | i in ids :: Fresh(i, Others(ids, i)), {}, map[], map[], map[])
  }

  /** Every node blank, in term 0, and the peer of all others. */
  ghost predicate Begins(c: Cluster, ids: seq<Id>) {
    && c.members.Keys == Elements(ids)
    && forall i :: i in ids ==> BeginsAt(c, ids, i)
  }

  ghost predicate BeginsAt(c: Cluster, ids: seq<Id>, i: Id) {
    && i in c.members && |ids| > 0 && Blank(c.members[i].node, i, |ids| - 1) && c.members[i].node.term == 0
    && c.members[i].meta == MetaState(None, None)
    && forall p :: p in ids && p != i ==> p in c.members[i].node.peers
  }

  lemma StartRun(ids: seq<Id>, kind: Kind) returns (r: Run, c: Cluster)
    requires Distinct(ids)
    ensures Reaches(r, c, kind) && Begins(c, ids)
  {
    c := Start(ids);
    StartIsInit(ids);
    hide Start, Init, Begins;
    r := Run([c], []);
  }

  lemma StartIsInit(ids: seq<Id>)
    requires Distinct(ids)
    ensures Init(Start(ids)) && Begins(Start(ids), ids)
  {
    var c := Start(ids);
    forall i | i in ids ensures ProperPeers(c, i) && BeginsAt(c, ids, i) {
      OthersOf(ids, i);
    }
    hide ProperPeers, Others, BeginsAt;
  }

  lemma At(c: Cluster, ids: seq<Id>, k: nat)
    requires Begins(c, ids) && k < |ids|
    ensures BeginsAt(c, ids, ids[k])
  {
  }

  lemma StartThree(a: Id, b: Id, d: Id, kind: Kind) returns (r: Run, c: Cluster)
    requires a != b && b != d && a != d
    ensures Reaches(r, c, kind)
    ensures BeginsAt(c, [a, b, d], a) && BeginsAt(c, [a, b, d], b) && BeginsAt(c, [a, b, d], d)
  {
    hide Reaches, BeginsAt, Begins;
    r, c := StartRun([a, b, d], kind);
    At(c, [a, b, d], 0);
    At(c, [a, b, d], 1);
    At(c, [a, b, d], 2);
  }

  ghost predicate Different(a: Id, b: Id, d: Id, e: Id, f: Id) {
    && a != b && a != d && a != e && a != f && b != d && b != e && b != f && d != e && d != f && e != f
  }

  lemma StartFive(a: Id, b: Id, d: Id, e: Id, f: Id, kind: Kind) returns (r: Run, c: Cluster)
    requires Different(a, b, d, e, f)
    ensures Reaches(r, c, kind)
    ensures var ids := [a, b, d, e, f];
            && BeginsAt(c, ids, a) && BeginsAt(c, ids, b) && BeginsAt(c, ids, d) && BeginsAt(c, ids, e)
            && BeginsAt(c, ids, f)
  {
    hide Reaches, BeginsAt, Begins;
    var ids := [a, b, d, e, f];
    r, c := StartRun(ids, kind);
    At(c, ids, 0);
    At(c, ids, 1);
    At(c, ids, 2);
    At(c, ids, 3);
    At(c, ids, 4);
  }

  // ---------------------------------------------------------------- the states on the way

  ghost predicate Peered(n: Node, i: Id, m: nat) {
    n.id == i && |n.peers| == m && Distinct(n.peers)
  }

  /** A follower with `logs` that has committed nothing. */
  ghost predicate Follows(n: Node, i: Id, m: nat, logs: Log) {
    Peered(n, i, m) && n.role == Follower && n.logs == logs && n.commitIndex == None
  }

  ghost predicate Blank(n: Node, i: Id, m: nat) {
    Follows(n, i, m, [])
  }

  /** A candidate of term `t` with an empty log and `votes` votes. */
  ghost predicate Stands(n: Node, i: Id, m: nat, t: nat, votes: nat) {
    && Peered(n, i, m) && n.role == Candidate && n.term == t && n.logs == [] && n.commitIndex == None
    && n.voteCount == votes
  }

  /** A leader of term `t` with log `logs` that was elected with an empty log and has credited no peer yet. */
  ghost predicate Leads(n: Node, i: Id, m: nat, t: nat, logs: Log) {
    && Peered(n, i, m) && n.role == Leader && n.term == t && n.logs == logs && n.commitIndex == None
    && forall q :: q in n.peers ==> MatchOf(n, q) == 0 && q in n.nextIndex && n.nextIndex[q] == 0
  }

  /** Nothing but member `i` changed, its peers are the same, and no message is lost. */
  ghost predicate Only(c: Cluster, c': Cluster, i: Id) {
    && c'.members.Keys == c.members.Keys && i in c.members
    && (forall j :: j in c.members && j != i ==> c'.members[j] == c.members[j])
    && c'.members[i].node.peers == c.members[i].node.peers
    && c.net <= c'.net
  }

  lemma OnlyTwo(a: Cluster, b: Cluster, c: Cluster, i: Id, p: Id)
    requires Only(a, b, i) && Only(b, c, p)
    ensures OnlyThese(a, c, {i, p})
  {
  }

  /** Nothing but these members changed, the peers are the same, and no message is lost. */
  ghost predicate OnlyThese(c: Cluster, c': Cluster, who: set<Id>) {
    && c'.members.Keys == c.members.Keys
    && (forall j :: j in c.members && j !in who ==> c'.members[j] == c.members[j])
    && (forall j :: j in c.members ==> c'.members[j].node.peers == c.members[j].node.peers)
    && c.net <= c'.net
  }

  lemma OnlyOne(c: Cluster, c': Cluster, i: Id)
    requires Only(c, c', i)
    ensures OnlyThese(c, c', {i})
  {
  }

  lemma Onward(a: Cluster, b: Cluster, c: Cluster, who: set<Id>, more: set<Id>)
    requires OnlyThese(a, b, who) && OnlyThese(b, c, more)
    ensures OnlyThese(a, c, who + more)
  {
  }

  lemma Untouched(c: Cluster, c': Cluster, who: set<Id>, j: Id)
    requires OnlyThese(c, c', who) && j in c.members
    ensures j in c'.members && c'.members[j].node.peers == c.members[j].node.peers && c.net <= c'.net
    ensures j !in who ==> c'.members[j] == c.members[j]
  {
  }

  // ---------------------------------------------------------------- an election

  function Ballot(t: nat, i: Id): RequestVote {
    RequestVote(t, i, 0, 0)
  }

  ghost predicate Asked(c: Cluster, c': Cluster, i: Id, m: nat, t: nat) {
    && Only(c, c', i) && Stands(c'.members[i].node, i, m, t, 1)
    && forall p :: p in c'.members[i].node.peers ==>
      (p, t) in c'.members[i].calls && VoteRequest(p, Ballot(t, i)) in c'.net
  }

  lemma Ask(c: Cluster, i: Id, m: nat)
    requires i in c.members && Blank(c.members[i].node, i, m)
    ensures Enabled(c, Timeout(i)) && Asked(c, AfterTimeout(c, i), i, m, c.members[i].node.term + 1)
  {
  }

  ghost predicate Answered(c: Cluster, c': Cluster, i: Id, p: Id, m: nat, t: nat) {
    && Only(c, c', p) && Blank(c'.members[p].node, p, m) && c'.members[p].node.term == t
    && VoteReply(i, p, t, RequestVoteReply(t, true)) in c'.net
  }

  lemma BlankVotes(n: Node, i: Id, p: Id, m: nat, t: nat)
    requires Blank(n, p, m) && n.term < t
    ensures var o := OnRequestVote(n, Ballot(t, i));
            && Blank(o.node, p, m) && o.node.term == t && o.node.peers == n.peers
            && o.reply == Some(RequestVoteReply(t, true))
  {
  }

  lemma Answer(c: Cluster, i: Id, p: Id, m: nat, t: nat)
    requires p in c.members && Blank(c.members[p].node, p, m) && c.members[p].node.term < t
    requires VoteRequest(p, Ballot(t, i)) in c.net
    ensures Enabled(c, Deliver(VoteRequest(p, Ballot(t, i))))
    ensures Answered(c, AfterVoteRequest(c, p, Ballot(t, i)), i, p, m, t)
  {
    BlankVotes(c.members[p].node, i, p, m, t);
    hide OnRequestVote;
  }

  ghost predicate Counted(c: Cluster, c': Cluster, i: Id, p: Id, m: nat, t: nat, votes: nat) {
    && Only(c, c', i)
    && (if votes + 1 >= (m + 1) / 2 + 1 then Leads(c'.members[i].node, i, m, t, [])
        else Stands(c'.members[i].node, i, m, t, votes + 1))
    && c'.members[i].calls == c.members[i].calls - {(p, t)}
  }

  lemma CountNode(n: Node, i: Id, m: nat, t: nat, votes: nat)
    requires Stands(n, i, m, t, votes)
    ensures var n' := OnVoteResult(n, t, true).node;
            && n'.peers == n.peers
            && if votes + 1 >= (m + 1) / 2 + 1 then Leads(n', i, m, t, []) else Stands(n', i, m, t, votes + 1)
  {
    assert n.Quorum() == (m + 1) / 2 + 1;
  }

  lemma Count(c: Cluster, i: Id, p: Id, m: nat, t: nat, votes: nat)
    requires i in c.members && Stands(c.members[i].node, i, m, t, votes) && (p, t) in c.members[i].calls
    requires VoteReply(i, p, t, RequestVoteReply(t, true)) in c.net
    ensures Enabled(c, Deliver(VoteReply(i, p, t, RequestVoteReply(t, true))))
    ensures Counted(c, AfterVoteReply(c, i, p, t, RequestVoteReply(t, true)), i, p, m, t, votes)
  {
    CountNode(c.members[i].node, i, m, t, votes);
    hide OnVoteResult, Leads;
  }

  // ---------------------------------------------------------------- a reign

  /** The request of a leader that sends all of its log and has committed nothing. */
  function Beat(t: nat, i: Id, logs: Log): AppendEntries {
    AppendEntries(t, i, None, None, logs, None)
  }

  function Yes(t: nat): AppendEntriesReply {
    AppendEntriesReply(t, true, None, None)
  }

  lemma SubmitNode(n: Node, i: Id, m: nat, t: nat, logs: Log, x: Command)
    requires Leads(n, i, m, t, logs)
    ensures Leads(Submit(n, x).node, i, m, t, logs + [LogEntry(x, t)]) && Submit(n, x).node.peers == n.peers
  {
    assert forall q :: MatchOf(Submit(n, x).node, q) == MatchOf(n, q);
  }

  lemma Write(c: Cluster, i: Id, m: nat, t: nat, logs: Log, x: Command)
    requires i in c.members && Leads(c.members[i].node, i, m, t, logs)
    ensures Enabled(c, ClientSubmit(i, x))
    ensures var c' := AfterSubmit(c, i, x);
            Only(c, c', i) && Leads(c'.members[i].node, i, m, t, logs + [LogEntry(x, t)])
  {
    SubmitNode(c.members[i].node, i, m, t, logs, x);
    hide Leads, MatchOf;
  }

  lemma SendNode(n: Node, i: Id, m: nat, t: nat, logs: Log)
    requires Leads(n, i, m, t, logs)
    ensures Leads(SendAes(n), i, m, t, logs) && SendAes(n).peers == n.peers
    ensures forall p :: p in n.peers ==> Request(n, NextFor(n, p)) == Beat(t, i, logs)
  {
    assert forall q :: MatchOf(SendAes(n), q) == MatchOf(n, q);
    assert logs[0..] == logs;
  }

  lemma Send(c: Cluster, i: Id, p: Id, m: nat, t: nat, logs: Log)
    requires i in c.members && Leads(c.members[i].node, i, m, t, logs) && p in c.members[i].node.peers
    ensures Enabled(c, Heartbeat(i))
    ensures var c' := AfterHeartbeat(c, i);
            Only(c, c', i) && Leads(c'.members[i].node, i, m, t, logs) && AppendRequest(p, Beat(t, i, logs)) in c'.net
  {
    SendNode(c.members[i].node, i, m, t, logs);
    assert c.members[i].node.role == Leader;
    hide Leads, MatchOf, SendAes, Request;
  }

  /** A blank follower accepts the beat; so does one whose entries are all of earlier terms, and it drops them. */
  lemma AcceptNode(n: Node, p: Id, m: nat, t: nat, i: Id, logs: Log)
    requires Peered(n, p, m) && n.role != Dead && n.term <= t
    requires n.logs == [] || (|logs| > 0 && n.logs[0].term != logs[0].term)
    ensures var o := OnAppendEntries(n, Beat(t, i, logs));
            && Peered(o.node, p, m) && o.node.logs == logs && o.node.term == t && o.node.commitIndex == n.commitIndex
            && o.node.peers == n.peers && o.reply == Some(Yes(t)) && (n.role == Follower ==> o.node.role == Follower)
  {
    assert Overlap(n.logs, 0, logs) == 0;
    assert n.logs[..0] + logs[0..] == logs;
  }

  lemma Accept(c: Cluster, i: Id, p: Id, m: nat, t: nat, logs: Log)
    requires p in c.members && Blank(c.members[p].node, p, m) && c.members[p].node.term <= t
    requires AppendRequest(p, Beat(t, i, logs)) in c.net
    ensures Enabled(c, Deliver(AppendRequest(p, Beat(t, i, logs))))
    ensures var c' := AfterAppendRequest(c, p, Beat(t, i, logs));
            && Only(c, c', p) && Follows(c'.members[p].node, p, m, logs) && c'.members[p].node.term == t
            && AppendReply(i, p, Beat(t, i, logs), Yes(t)) in c'.net && AckOf(c', p, t) >= |logs|
  {
    hide OnAppendEntries, Peered;
    AcceptNode(c.members[p].node, p, m, t, i, logs);
    AcceptedCluster(c, p, Beat(t, i, logs));
  }

  /** The cluster after a request was answered with success. */
  lemma AcceptedCluster(c: Cluster, p: Id, req: AppendEntries)
    requires p in c.members && OnAppendEntries(c.members[p].node, req).reply == Some(Yes(req.term))
    requires OnAppendEntries(c.members[p].node, req).node.peers == c.members[p].node.peers
    ensures var c' := AfterAppendRequest(c, p, req);
            && Only(c, c', p) && c'.members[p].node == OnAppendEntries(c.members[p].node, req).node
            && AppendReply(req.leader, p, req, Yes(req.term)) in c'.net && AckOf(c', p, req.term) >= SentLength(req)
  {
    hide OnAppendEntries;
  }

  // ---------------------------------------------------------------- several steps

  /** A candidate asks a blank peer for its vote and counts it. */
  lemma Canvass(r: Run, c: Cluster, i: Id, p: Id, m: nat, t: nat, votes: nat, kind: Kind) returns (r': Run, c': Cluster)
    requires Reaches(r, c, kind) && i in c.members && p in c.members && i != p
    requires Stands(c.members[i].node, i, m, t, votes) && (p, t) in c.members[i].calls
    requires VoteRequest(p, Ballot(t, i)) in c.net
    requires Blank(c.members[p].node, p, m) && c.members[p].node.term < t
    ensures Reaches(r', c', kind) && OnlyThese(c, c', {i, p}) && Continues(r, r')
    ensures && (if votes + 1 >= (m + 1) / 2 + 1 then Leads(c'.members[i].node, i, m, t, [])
                else Stands(c'.members[i].node, i, m, t, votes + 1))
            && c'.members[i].calls == c.members[i].calls - {(p, t)}
            && Blank(c'.members[p].node, p, m) && c'.members[p].node.term == t
  {
    hide Reaches, Blank, Leads, Stands, Enabled, AfterVoteRequest, AfterVoteReply, Continues;
    var yes := RequestVoteReply(t, true);
    Answer(c, i, p, m, t);
    var c1 := AfterVoteRequest(c, p, Ballot(t, i));
    var r1 := TakeStep(r, c, Deliver(VoteRequest(p, Ballot(t, i))), c1, kind);
    Count(c1, i, p, m, t, votes);
    c' := AfterVoteReply(c1, i, p, t, yes);
    r' := TakeStep(r1, c1, Deliver(VoteReply(i, p, t, yes)), c', kind);
    ContinuesOn(r, r1, r');
    OnlyTwo(c, c1, c', p, i);
  }

  lemma Stand(r: Run, c: Cluster, i: Id, m: nat, kind: Kind) returns (r': Run, c': Cluster)
    requires Reaches(r, c, kind) && i in c.members && Blank(c.members[i].node, i, m)
    ensures Reaches(r', c', kind) && OnlyThese(c, c', {i}) && Continues(r, r')
    ensures var t := c.members[i].node.term + 1;
            && Stands(c'.members[i].node, i, m, t, 1)
            && forall p :: p in c'.members[i].node.peers ==>
                 (p, t) in c'.members[i].calls && VoteRequest(p, Ballot(t, i)) in c'.net
  {
    hide Reaches, Blank, Stands, Enabled, AfterTimeout, Continues;
    Ask(c, i, m);
    c' := AfterTimeout(c, i);
    r' := TakeStep(r, c, Timeout(i), c', kind);
    OnlyOne(c, c', i);
  }

  /** In a cluster of three, one vote besides its own makes a candidate the leader. */
  lemma WinOfThree(r: Run, c: Cluster, i: Id, p: Id, kind: Kind) returns (r': Run, c': Cluster)
    requires Reaches(r, c, kind) && i in c.members && p in c.members && i != p && p in c.members[i].node.peers
    requires Blank(c.members[i].node, i, 2) && Blank(c.members[p].node, p, 2)
    requires c.members[p].node.term <= c.members[i].node.term
    ensures Reaches(r', c', kind) && OnlyThese(c, c', {i, p}) && Continues(r, r')
    ensures var t := c.members[i].node.term + 1;
            Leads(c'.members[i].node, i, 2, t, []) && Blank(c'.members[p].node, p, 2) && c'.members[p].node.term == t
  {
    hide Reaches, Blank, Leads, Stands, OnlyThese, Continues;
    var t := c.members[i].node.term + 1;
    var r1, c1 := Stand(r, c, i, 2, kind);
    Untouched(c, c1, {i}, i);
    Untouched(c, c1, {i}, p);
    r', c' := Canvass(r1, c1, i, p, 2, t, 1, kind);
    ContinuesOn(r, r1, r');
    Onward(c, c1, c', {i}, {i, p});
    assert {i} + {i, p} == {i, p};
  }

  /** In a cluster of five it takes two. */
  lemma WinOfFive(r: Run, c: Cluster, i: Id, p: Id, q: Id, kind: Kind) returns (r': Run, c': Cluster)
    requires Reaches(r, c, kind) && i in c.members && p in c.members && q in c.members && i != p && i != q && p != q
    requires p in c.members[i].node.peers && q in c.members[i].node.peers
    requires Blank(c.members[i].node, i, 4) && Blank(c.members[p].node, p, 4) && Blank(c.members[q].node, q, 4)
    requires c.members[p].node.term <= c.members[i].node.term && c.members[q].node.term <= c.members[i].node.term
    ensures Reaches(r', c', kind) && OnlyThese(c, c', {i, p, q})
    ensures var t := c.members[i].node.term + 1;
            && Leads(c'.members[i].node, i, 4, t, [])
            && Blank(c'.members[p].node, p, 4) && c'.members[p].node.term == t
            && Blank(c'.members[q].node, q, 4) && c'.members[q].node.term == t
  {
    hide Reaches, Blank, Leads, Stands, OnlyThese, Continues;
    var t := c.members[i].node.term + 1;
    var r1, c1 := Stand(r, c, i, 4, kind);
    Untouched(c, c1, {i}, i);
    Untouched(c, c1, {i}, p);
    Untouched(c, c1, {i}, q);
    assert (p, t) in c1.members[i].calls && (q, t) in c1.members[i].calls;
    assert VoteRequest(p, Ballot(t, i)) in c1.net && VoteRequest(q, Ballot(t, i)) in c1.net;
    var r2, c2 := Canvass(r1, c1, i, p, 4, t, 1, kind);
    Untouched(c1, c2, {i, p}, q);
    Onward(c, c1, c2, {i}, {i, p});
    r', c' := Canvass(r2, c2, i, q, 4, t, 2, kind);
    Untouched(c2, c', {i, q}, p);
    Onward(c, c2, c', {i} + {i, p}, {i, q});
    assert {i} + {i, p} + {i, q} == {i, p, q};
  }

  lemma SubmitTo(r: Run, c: Cluster, i: Id, m: nat, t: nat, logs: Log, x: Command, kind: Kind)
    returns (r': Run, c': Cluster)
    requires Reaches(r, c, kind) && i in c.members && Leads(c.members[i].node, i, m, t, logs)
    ensures Reaches(r', c', kind) && Only(c, c', i) && Leads(c'.members[i].node, i, m, t, logs + [LogEntry(x, t)])
  {
    hide Reaches, Leads, Enabled, AfterSubmit, Continues;
    Write(c, i, m, t, logs, x);
    c' := AfterSubmit(c, i, x);
    r' := TakeStep(r, c, ClientSubmit(i, x), c', kind);
  }

  /** The leader sends its log to a blank peer, which accepts it; the reply is under way. */
  lemma Replicate(r: Run, c: Cluster, i: Id, p: Id, m: nat, t: nat, logs: Log, kind: Kind)
    returns (r': Run, c': Cluster)
    requires Reaches(r, c, kind) && i in c.members && p in c.members && i != p && p in c.members[i].node.peers
    requires Leads(c.members[i].node, i, m, t, logs) && Blank(c.members[p].node, p, m) && c.members[p].node.term <= t
    ensures Reaches(r', c', kind) && OnlyThese(c, c', {i, p}) && Leads(c'.members[i].node, i, m, t, logs)
    ensures && Follows(c'.members[p].node, p, m, logs) && c'.members[p].node.term == t
            && AppendReply(i, p, Beat(t, i, logs), Yes(t)) in c'.net && AckOf(c', p, t) >= |logs|
            && AppendRequest(p, Beat(t, i, logs)) in c'.net
  {
    hide Reaches, Blank, Follows, Leads, Enabled, AfterHeartbeat, AfterAppendRequest, Continues;
    Send(c, i, p, m, t, logs);
    var c1 := AfterHeartbeat(c, i);
    var r1 := TakeStep(r, c, Heartbeat(i), c1, kind);
    Accept(c1, i, p, m, t, logs);
    c' := AfterAppendRequest(c1, p, Beat(t, i, logs));
    r' := TakeStep(r1, c1, Deliver(AppendRequest(p, Beat(t, i, logs))), c', kind);
    OnlyTwo(c, c1, c', i, p);
  }
}
