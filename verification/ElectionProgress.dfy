/**
 Elections can succeed: from every reachable state in which a majority lives, some continuation elects one of those
 nodes to a later term. A cluster of one node is the exception, and never has a leader.
 */
module ElectionProgress {
  import opened Messages
  import opened Metadata
  import opened Replica
  import opened Cluster
  import opened ElectionSafety
  import Quorums
  import opened Scenarios

  // ---------------------------------------------------------------- the electorate

  /** Live nodes that know one another and are enough to reach each one's quorum. */
  ghost predicate Assembly(c: Cluster, live: set<Id>) {
    && live <= c.members.Keys && |live| >= 2
    && forall i :: i in live ==> Attends(c, live, i)
  }

  ghost predicate Attends(c: Cluster, live: set<Id>, i: Id)
    requires i in c.members
  {
    var n := c.members[i].node;
    && n.role != Dead && n.id == i && |live| >= n.Quorum()
    && forall p :: p in live && p != i ==> p in n.peers
  }

  lemma MajorityAssembles(c: Cluster, live: set<Id>)
    requires Sound(c) && live <= c.members.Keys && |live| * 2 > |c.members| >= 2
    requires forall i :: i in live ==> c.members[i].node.role != Dead
    ensures Assembly(c, live)
  {
    hide Sound;
    forall i | i in live ensures Attends(c, live, i) {
      Facts(c, i);
      PeersCount(c, i);
      assert |c.members.Keys| == |c.members|;
    }
  }

  /** A step of one node leaves the assembly in place as long as it lives on. */
  lemma StillAssembled(c: Cluster, c': Cluster, live: set<Id>, i: Id)
    requires Assembly(c, live) && Only(c, c', i)
    requires c'.members[i].node.role != Dead && c'.members[i].node.id == c.members[i].node.id
    ensures Assembly(c', live)
  {
    forall j | j in live ensures Attends(c', live, j) {
      assert Attends(c, live, j);
    }
  }

  // ---------------------------------------------------------------- single steps

  /** The request for votes that a node would send next. */
  function Ticket(n: Node): RequestVote {
    var last := LastLog(n.logs);
    RequestVote(n.term + 1, n.id, last.index, last.term)
  }

  ghost predicate StoodUp(c: Cluster, c': Cluster, i: Id) {
    && Only(c, c', i)
    && var n, n' := c.members[i].node, c'.members[i].node;
    && n'.role == Candidate && n'.term == n.term + 1 && n'.logs == n.logs && n'.id == n.id && n'.voteCount == 1
    && forall p :: p in n.peers ==> (p, n'.term) in c'.members[i].calls && VoteRequest(p, Ticket(n)) in c'.net
  }

  lemma StandUp(c: Cluster, i: Id)
    requires i in c.members && (c.members[i].node.role == Follower || c.members[i].node.role == Candidate)
    ensures Enabled(c, Timeout(i)) && StoodUp(c, AfterTimeout(c, i), i)
  {
    hide LastLog;
  }

  ghost predicate Heard(c: Cluster, c': Cluster, p: Id, vote: RequestVote) {
    && Only(c, c', p)
    && var n, n' := c.members[p].node, c'.members[p].node;
    && n'.role == Follower && n'.term == vote.term && n'.logs == n.logs && n'.id == n.id
    && (UpToDate(LastEntry(vote.lastLogIndex, vote.lastLogTerm), LastLog(n.logs)) ==>
          VoteReply(vote.candidateId, p, vote.term, RequestVoteReply(vote.term, true)) in c'.net)
  }

  lemma HearNode(n: Node, vote: RequestVote)
    requires n.role != Dead && vote.term > n.term
    ensures var o := OnRequestVote(n, vote);
            && o.node.role == Follower && o.node.term == vote.term && o.node.logs == n.logs
            && o.node.id == n.id && o.node.peers == n.peers && o.reply.Some? && o.reply.value.term == vote.term
            && (o.reply.value.voted <==>
                  UpToDate(LastEntry(vote.lastLogIndex, vote.lastLogTerm), LastLog(n.logs)))
  {
  }

  lemma Hear(c: Cluster, p: Id, vote: RequestVote)
    requires p in c.members && c.members[p].node.role != Dead && vote.term > c.members[p].node.term
    requires VoteRequest(p, vote) in c.net
    ensures Enabled(c, Deliver(VoteRequest(p, vote))) && Heard(c, AfterVoteRequest(c, p, vote), p, vote)
  {
    HearNode(c.members[p].node, vote);
    hide OnRequestVote, UpToDate, LastLog;
  }

  ghost predicate Tallied(c: Cluster, c': Cluster, i: Id, p: Id) {
    && Only(c, c', i)
    && var n, n' := c.members[i].node, c'.members[i].node;
    && n'.term == n.term && n'.id == n.id && n'.voteCount == n.voteCount + 1
    && n'.role == (if n'.voteCount >= n.Quorum() then Leader else Candidate)
    && c'.members[i].calls == c.members[i].calls - {(p, n.term)}
  }

  lemma TallyNode(n: Node)
    requires n.role == Candidate
    ensures var n' := OnVoteResult(n, n.term, true).node;
            && n'.term == n.term && n'.id == n.id && n'.voteCount == n.voteCount + 1 && n'.peers == n.peers
            && n'.role == (if n'.voteCount >= n.Quorum() then Leader else Candidate)
  {
  }

  lemma Tally(c: Cluster, i: Id, p: Id)
    requires i in c.members && c.members[i].node.role == Candidate
    requires var t := c.members[i].node.term;
             (p, t) in c.members[i].calls && VoteReply(i, p, t, RequestVoteReply(t, true)) in c.net
    ensures var yes := RequestVoteReply(c.members[i].node.term, true);
            && Enabled(c, Deliver(VoteReply(i, p, yes.term, yes)))
            && Tallied(c, AfterVoteReply(c, i, p, yes.term, yes), i, p)
  {
    TallyNode(c.members[i].node);
    hide OnVoteResult;
  }

  /** A node that hears a leader of its own or a later term does not lead afterwards, if it did not in that term. */
  lemma BeatNode(n: Node, req: AppendEntries)
    requires n.role != Dead && n.term <= req.term && (n.term == req.term ==> n.role != Leader)
    ensures var n' := OnAppendEntries(n, req).node;
            n'.term == req.term && (n'.role == Follower || n'.role == Candidate) && n'.id == n.id && n'.peers == n.peers
  {
    hide Splice, FollowCommit, PrevOk;
  }

  ghost predicate Beaten(c: Cluster, c': Cluster, p: Id, t: nat) {
    && Only(c, c', p)
    && var n' := c'.members[p].node;
    && n'.term == t && (n'.role == Follower || n'.role == Candidate) && n'.id == c.members[p].node.id
  }

  lemma Beating(c: Cluster, p: Id, req: AppendEntries)
    requires p in c.members && AppendRequest(p, req) in c.net
    requires var n := c.members[p].node;
             n.role != Dead && n.term <= req.term && (n.term == req.term ==> n.role != Leader)
    ensures Enabled(c, Deliver(AppendRequest(p, req))) && Beaten(c, AfterAppendRequest(c, p, req), p, req.term)
  {
    hide OnAppendEntries;
    BeatNode(c.members[p].node, req);
    AppendedCluster(c, p, req);
    RequestsStay(c, p, req);
    hide AfterAppendRequest;
  }

  lemma RequestsStay(c: Cluster, p: Id, req: AppendEntries)
    requires p in c.members
    ensures c.net <= AfterAppendRequest(c, p, req).net
  {
    hide OnAppendEntries;
  }

  ghost predicate Sent(c: Cluster, c': Cluster, i: Id) {
    && Only(c, c', i)
    && var n, n' := c.members[i].node, c'.members[i].node;
    && n'.role == Leader && n'.term == n.term && n'.id == n.id
    && forall p :: p in n.peers ==> AppendRequest(p, Request(n, NextFor(n, p))) in c'.net
  }

  lemma Sending(c: Cluster, i: Id)
    requires i in c.members && c.members[i].node.role == Leader
    ensures Enabled(c, Heartbeat(i)) && Sent(c, AfterHeartbeat(c, i), i)
  {
    hide Request, NextFor;
  }

  // ---------------------------------------------------------------- picking nodes

  lemma {:induction false} LatestOf(c: Cluster, live: set<Id>) returns (h: Id)
    requires live <= c.members.Keys && live != {}
    ensures h in live && forall q :: q in live ==> c.members[q].node.term <= c.members[h].node.term
    decreases |live|
  {
    var first :| first in live;
    var rest := live - {first};
    h := first;
    if rest != {} {
      var g := LatestOf(c, rest);
      if c.members[g].node.term > c.members[first].node.term { h := g; }
      assert forall q :: q in rest ==> c.members[q].node.term <= c.members[g].node.term;
    }
    assert forall q :: q in live <==> q == first || q in rest;
  }

  /** The node whose log no other is ahead of. */
  lemma {:induction false} BestOf(c: Cluster, live: set<Id>) returns (i: Id)
    requires live <= c.members.Keys && live != {}
    ensures i in live
    ensures forall q :: q in live ==> UpToDate(LastLog(c.members[i].node.logs), LastLog(c.members[q].node.logs))
    decreases |live|
  {
    hide LastLog;
    var first :| first in live;
    var rest := live - {first};
    i := first;
    if rest != {} {
      var g := BestOf(c, rest);
      if !UpToDate(LastLog(c.members[first].node.logs), LastLog(c.members[g].node.logs)) { i := g; }
      assert forall q :: q in rest ==> UpToDate(LastLog(c.members[g].node.logs), LastLog(c.members[q].node.logs));
    }
    assert forall q :: q in live <==> q == first || q in rest;
  }

  // ---------------------------------------------------------------- everyone to one term

  /** Nobody in the assembly leads, and all are in term `t`. */
  ghost predicate Level(c: Cluster, live: set<Id>, t: nat) {
    live <= c.members.Keys && forall q :: q in live ==> c.members[q].node.term == t && c.members[q].node.role != Leader
  }

  /** One of the assembly, not leading, that no other is ahead of in term. */
  ghost predicate Spokesman(c: Cluster, live: set<Id>, s: Id) {
    && live <= c.members.Keys && s in live && c.members[s].node.role != Leader
    && forall q :: q in live ==> c.members[q].node.term <= c.members[s].node.term
  }

  /** If only a leader is in the latest term, one of its requests brings another node there. */
  lemma FindSpokesman(r: Run, c: Cluster, live: set<Id>, kind: Kind) returns (r': Run, c': Cluster, s: Id)
    requires Reaches(r, c, kind) && Sound(c) && Assembly(c, live)
    ensures Reaches(r', c', kind) && Continues(r, r') && Assembly(c', live) && Spokesman(c', live, s)
    ensures forall q :: q in live ==> c.members[q].node.term <= c'.members[s].node.term
  {
    hide Reaches, Sound, Enabled, Continues, Next, Assembly;
    LiveMembers(c, live);
    var h := LatestOf(c, live);
    var n := c.members[h].node;
    if n.role != Leader {
      r', c', s := r, c, h;
      ContinuesItself(r);
    } else {
      s := AnotherOf(live, h);
      AttendanceOf(c, live, h);
      AttendanceOf(c, live, s);
      OneLeaderAtMost(c, h, s);
      r', c' := BringAlong(r, c, live, h, s, kind);
    }
  }

  lemma LiveMembers(c: Cluster, live: set<Id>)
    requires Assembly(c, live)
    ensures live <= c.members.Keys && live != {} && |live| >= 2
  {
  }

  lemma AttendanceOf(c: Cluster, live: set<Id>, i: Id)
    requires Assembly(c, live) && i in live
    ensures i in c.members && Attends(c, live, i)
  {
  }

  lemma AnotherOf(live: set<Id>, h: Id) returns (s: Id)
    requires |live| >= 2
    ensures s in live && s != h
  {
    if h in live {
      assert live == (live - {h}) + {h};
      assert |live - {h}| == |live| - 1;
    } else {
      assert live - {h} == live;
    }
    s :| s in live - {h};
  }

  lemma OneLeaderAtMost(c: Cluster, a: Id, b: Id)
    requires Sound(c) && a in c.members && b in c.members && a != b && c.members[a].node.role == Leader
    ensures c.members[b].node.term == c.members[a].node.term ==> c.members[b].node.role != Leader
  {
    hide Sound;
    Facts(c, a);
    Facts(c, b);
  }

  lemma ContinuesItself(r: Run)
    ensures Continues(r, r)
  {
  }

  /** The leader of the latest term sends, and `s` hears it. */
  lemma BringAlong(r: Run, c: Cluster, live: set<Id>, h: Id, s: Id, kind: Kind) returns (r': Run, c': Cluster)
    requires Reaches(r, c, kind) && Assembly(c, live) && h in live && s in live && s != h
    requires c.members[h].node.role == Leader && s in c.members[h].node.peers && c.members[s].node.role != Dead
    requires forall q :: q in live ==> c.members[q].node.term <= c.members[h].node.term
    requires c.members[s].node.term == c.members[h].node.term ==> c.members[s].node.role != Leader
    ensures Reaches(r', c', kind) && Continues(r, r') && Assembly(c', live) && Spokesman(c', live, s)
    ensures c'.members[s].node.term == c.members[h].node.term
  {
    hide Reaches, Enabled, Continues, AfterHeartbeat, AfterAppendRequest, Assembly, Request, Sent, Beaten, Spokesman;
    LiveMembers(c, live);
    var req := Request(c.members[h].node, NextFor(c.members[h].node, s));
    RequestTerm(c.members[h].node, s);
    hide NextFor;
    Sending(c, h);
    var c1 := AfterHeartbeat(c, h);
    var r1 := TakeStep(r, c, Heartbeat(h), c1, kind);
    SentOut(c, c1, live, h, s);
    Beating(c1, s, req);
    c' := AfterAppendRequest(c1, s, req);
    r' := TakeStep(r1, c1, Deliver(AppendRequest(s, req)), c', kind);
    ContinuesOn(r, r1, r');
    BeatenIn(c, c1, c', live, h, s);
  }

  lemma SentOut(c: Cluster, c1: Cluster, live: set<Id>, h: Id, s: Id)
    requires Assembly(c, live) && h in live && s in live && s != h && h in c.members && s in c.members
    requires s in c.members[h].node.peers && Sent(c, c1, h)
    ensures Assembly(c1, live) && s in c1.members && c1.members[s] == c.members[s]
    ensures AppendRequest(s, Request(c.members[h].node, NextFor(c.members[h].node, s))) in c1.net
  {
    hide Assembly, Request, NextFor;
    StillAssembled(c, c1, live, h);
  }

  lemma BeatenIn(c: Cluster, c1: Cluster, c': Cluster, live: set<Id>, h: Id, s: Id)
    requires live <= c.members.Keys && h in live && s in live && s != h && Sent(c, c1, h)
    requires Assembly(c1, live) && Beaten(c1, c', s, c.members[h].node.term)
    requires forall q :: q in live ==> c.members[q].node.term <= c.members[h].node.term
    ensures Assembly(c', live) && Spokesman(c', live, s) && c'.members[s].node.term == c.members[h].node.term
  {
    hide Assembly, Request, NextFor;
    StillAssembled(c1, c', live, s);
  }

  lemma RequestTerm(n: Node, p: Id)
    ensures Request(n, NextFor(n, p)).term == n.term
  {
  }

  /** `heard` have come to the spokesman's term; the others of the assembly are still behind it. */
  lemma {:induction false} Summon(r: Run, c: Cluster, live: set<Id>, s: Id, vote: RequestVote, todo: set<Id>,
      kind: Kind)
    returns (r': Run, c': Cluster)
    requires Reaches(r, c, kind) && Assembly(c, live) && s in live && todo <= live && s !in todo
    requires live <= c.members.Keys && Level(c, live - todo, vote.term)
    requires forall p :: p in todo ==> c.members[p].node.term < vote.term && VoteRequest(p, vote) in c.net
    ensures Reaches(r', c', kind) && Continues(r, r') && Assembly(c', live) && Level(c', live, vote.term)
    decreases |todo|
  {
    hide Reaches, Enabled, Continues, AfterVoteRequest, Assembly, Heard, Level, UpToDate, LastLog;
    if todo == {} {
      assert live - todo == live;
      r', c' := r, c;
      ContinuesItself(r);
    } else {
      var p :| p in todo;
      AttendanceOf(c, live, p);
      Hear(c, p, vote);
      var c1 := AfterVoteRequest(c, p, vote);
      var r1 := TakeStep(r, c, Deliver(VoteRequest(p, vote)), c1, kind);
      OneMore(c, c1, live, s, vote, todo, p);
      r', c' := Summon(r1, c1, live, s, vote, todo - {p}, kind);
      ContinuesOn(r, r1, r');
    }
  }

  lemma OneMore(c: Cluster, c1: Cluster, live: set<Id>, s: Id, vote: RequestVote, todo: set<Id>, p: Id)
    requires Assembly(c, live) && s in live && todo <= live && s !in todo && p in todo
    requires live <= c.members.Keys && Level(c, live - todo, vote.term) && Heard(c, c1, p, vote)
    requires forall q :: q in todo ==> c.members[q].node.term < vote.term && VoteRequest(q, vote) in c.net
    ensures Assembly(c1, live) && live <= c1.members.Keys && Level(c1, live - (todo - {p}), vote.term)
    ensures forall q :: q in todo - {p} ==> c1.members[q].node.term < vote.term && VoteRequest(q, vote) in c1.net
  {
    hide Assembly, UpToDate, LastLog;
    StillAssembled(c, c1, live, p);
    assert forall q :: q in live - (todo - {p}) <==> q in live - todo || q == p;
  }

  /** The spokesman stands for election and everyone comes to its term. */
  lemma LevelOut(r: Run, c: Cluster, live: set<Id>, s: Id, kind: Kind) returns (r': Run, c': Cluster, t: nat)
    requires Reaches(r, c, kind) && Assembly(c, live) && Spokesman(c, live, s)
    ensures Reaches(r', c', kind) && Continues(r, r') && Assembly(c', live) && Level(c', live, t)
    ensures t == c.members[s].node.term + 1
  {
    hide Reaches, Enabled, Continues, AfterTimeout, Assembly, LastLog;
    AttendanceOf(c, live, s);
    t := c.members[s].node.term + 1;
    StandUp(c, s);
    var c1 := AfterTimeout(c, s);
    var r1 := TakeStep(r, c, Timeout(s), c1, kind);
    StillAssembled(c, c1, live, s);
    assert live - (live - {s}) == {s};
    r', c' := Summon(r1, c1, live, s, Ticket(c.members[s].node), live - {s}, kind);
    ContinuesOn(r, r1, r');
  }

  // ---------------------------------------------------------------- the vote

  /** The candidate needs no more votes than there are peers still to ask, and each of them will grant. */
  ghost predicate Polling(c: Cluster, i: Id, todo: set<Id>, vote: RequestVote) {
    && i in c.members && todo <= c.members.Keys && i !in todo
    && var n := c.members[i].node;
    && n.role == Candidate && n.term == vote.term && vote.candidateId == i
    && n.voteCount < n.Quorum() <= n.voteCount + |todo|
    && forall p :: p in todo ==> Willing(c, i, p, vote)
  }

  ghost predicate Willing(c: Cluster, i: Id, p: Id, vote: RequestVote)
    requires i in c.members && p in c.members
  {
    var n := c.members[p].node;
    && n.role != Dead && n.term < vote.term && UpToDate(LastEntry(vote.lastLogIndex, vote.lastLogTerm), LastLog(n.logs))
    && VoteRequest(p, vote) in c.net && (p, vote.term) in c.members[i].calls
  }

  lemma {:induction false} Poll(r: Run, c: Cluster, i: Id, todo: set<Id>, vote: RequestVote, kind: Kind)
    returns (r': Run, c': Cluster)
    requires Reaches(r, c, kind) && Polling(c, i, todo, vote)
    ensures Reaches(r', c', kind) && Continues(r, r') && i in c'.members
    ensures c'.members[i].node.role == Leader && c'.members[i].node.term == vote.term
    decreases |todo|
  {
    hide Reaches, Enabled, Continues, AfterVoteRequest, AfterVoteReply, UpToDate, LastLog;
    var p :| p in todo;
    assert Willing(c, i, p, vote);
    Hear(c, p, vote);
    var c1 := AfterVoteRequest(c, p, vote);
    var r1 := TakeStep(r, c, Deliver(VoteRequest(p, vote)), c1, kind);
    var yes := RequestVoteReply(vote.term, true);
    Tally(c1, i, p);
    var c2 := AfterVoteReply(c1, i, p, vote.term, yes);
    var r2 := TakeStep(r1, c1, Deliver(VoteReply(i, p, vote.term, yes)), c2, kind);
    ContinuesOn(r, r1, r2);
    if c2.members[i].node.role == Leader {
      r', c' := r2, c2;
    } else {
      StillPolling(c, c1, c2, i, p, todo, vote);
      r', c' := Poll(r2, c2, i, todo - {p}, vote, kind);
      ContinuesOn(r, r2, r');
    }
  }

  lemma StillPolling(c: Cluster, c1: Cluster, c2: Cluster, i: Id, p: Id, todo: set<Id>, vote: RequestVote)
    requires Polling(c, i, todo, vote) && p in todo
    requires Heard(c, c1, p, vote) && Tallied(c1, c2, i, p) && c2.members[i].node.role != Leader
    ensures Polling(c2, i, todo - {p}, vote)
  {
    hide UpToDate, LastLog;
    forall q | q in todo - {p} ensures Willing(c2, i, q, vote) {
      assert Willing(c, i, q, vote);
    }
  }

  /** Once all are in one term, the node that no log is ahead of can win. */
  lemma Elect(r: Run, c: Cluster, live: set<Id>, t: nat, kind: Kind) returns (r': Run, c': Cluster, i: Id)
    requires Reaches(r, c, kind) && Assembly(c, live) && Level(c, live, t)
    ensures Reaches(r', c', kind) && Continues(r, r') && i in live && i in c'.members
    ensures c'.members[i].node.role == Leader && c'.members[i].node.term == t + 1
  {
    hide Reaches, Enabled, Continues, AfterTimeout, Assembly, UpToDate, LastLog;
    LiveMembers(c, live);
    i := BestOf(c, live);
    AttendanceOf(c, live, i);
    StandUp(c, i);
    var c1 := AfterTimeout(c, i);
    var r1 := TakeStep(r, c, Timeout(i), c1, kind);
    StartPolling(c, c1, live, i, t);
    r', c' := Poll(r1, c1, i, live - {i}, Ticket(c.members[i].node), kind);
    ContinuesOn(r, r1, r');
  }

  lemma StartPolling(c: Cluster, c1: Cluster, live: set<Id>, i: Id, t: nat)
    requires Assembly(c, live) && Level(c, live, t) && i in live && StoodUp(c, c1, i)
    requires forall q :: q in live ==> UpToDate(LastLog(c.members[i].node.logs), LastLog(c.members[q].node.logs))
    ensures Polling(c1, i, live - {i}, Ticket(c.members[i].node))
  {
    hide UpToDate, LastLog;
    var vote := Ticket(c.members[i].node);
    assert Attends(c, live, i);
    forall p | p in live - {i} ensures Willing(c1, i, p, vote) {
      assert Attends(c, live, p);
      assert LastEntry(vote.lastLogIndex, vote.lastLogTerm) == LastLog(c.members[i].node.logs);
    }
    assert |live - {i}| == |live| - 1;
  }

  // ---------------------------------------------------------------- the result

  /**
   In every state of every run that forgets no vote, if a majority of at least two nodes lives, some continuation,
   without a restart and with strictly steady steps if the run had only such, makes one of them leader of a term later
   than any of theirs.
   */
  lemma LeaderCanFollow(r: Run, live: set<Id>, kind: Kind) returns (r': Run, i: Id)
    requires r.Valid() && r.Remembering() && Reaches(r, r.states[|r.steps|], kind)
    requires var c := r.states[|r.steps|];
             && live <= c.members.Keys && |live| * 2 > |c.members| >= 2
             && forall q :: q in live ==> c.members[q].node.role != Dead
    ensures r'.Valid() && Continues(r, r') && Reaches(r', r'.states[|r'.steps|], kind)
    ensures var c, c' := r.states[|r.steps|], r'.states[|r'.steps|];
            && i in live && i in c'.members && c'.members[i].node.role == Leader
            && forall q :: q in live ==> q in c.members && c.members[q].node.term < c'.members[i].node.term
  {
    var c := r.states[|r.steps|];
    RunSound(r, |r.steps|);
    hide Reaches, Sound, Continues, Init, Enabled, Next, Assembly, Level;
    MajorityAssembles(c, live);
    var r1, c1, s := FindSpokesman(r, c, live, kind);
    var r2, c2, t := LevelOut(r1, c1, live, s, kind);
    ContinuesOn(r, r1, r2);
    var r3, c3, w := Elect(r2, c2, live, t, kind);
    ContinuesOn(r, r2, r3);
    EndsIn(r3, c3, kind);
    r', i := r3, w;
  }

  lemma EndsIn(r: Run, c: Cluster, kind: Kind)
    requires Reaches(r, c, kind)
    ensures r.Valid() && r.states[|r.steps|] == c
  {
  }

  // ---------------------------------------------------------------- the exception

  /** Member `i`, if it leads after the step, led before it. */
  ghost predicate NotCrowned(c: Cluster, c': Cluster, i: Id) {
    i in c.members && i in c'.members && c'.members[i].node.role == Leader ==> c.members[i].node.role == Leader
  }

  lemma VoteRequestCrownsNone(c: Cluster, p: Id, vote: RequestVote, i: Id)
    requires p in c.members
    ensures NotCrowned(c, AfterVoteRequest(c, p, vote), i)
  {
    hide OnRequestVote;
    VoterRole(c.members[p].node, vote);
    VotedMembers(c, p, vote);
    hide AfterVoteRequest;
  }

  lemma VotedMembers(c: Cluster, p: Id, vote: RequestVote)
    requires p in c.members
    ensures AfterVoteRequest(c, p, vote).members ==
      c.members[p := Handled(c.members[p], OnRequestVote(c.members[p].node, vote))]
  {
    hide OnRequestVote;
  }

  lemma VoterRole(n: Node, vote: RequestVote)
    ensures OnRequestVote(n, vote).node.role == Leader ==> n.role == Leader
  {
    hide UpToDate, LastLog;
  }

  lemma AppendRequestCrownsNone(c: Cluster, p: Id, req: AppendEntries, i: Id)
    requires p in c.members
    ensures NotCrowned(c, AfterAppendRequest(c, p, req), i)
  {
    FollowerRole(c.members[p].node, req);
    hide OnAppendEntries;
    AppendedCluster(c, p, req);
    hide AfterAppendRequest;
  }

  lemma FollowerRole(n: Node, req: AppendEntries)
    ensures OnAppendEntries(n, req).node.role == Leader ==> n.role == Leader
  {
    hide Splice, FollowCommit, PrevOk;
  }

  lemma AppendReplyCrownsNone(c: Cluster, p: Id, from: Id, req: AppendEntries, reply: AppendEntriesReply, i: Id)
    requires p in c.members && AeResultDefined(c.members[p].node, InsertAt(req), reply)
    ensures NotCrowned(c, AfterAppendReply(c, p, from, req, reply), i)
  {
    LeaderRole(c.members[p].node, from, InsertAt(req), reply);
    hide OnAeResult;
  }

  lemma LeaderRole(n: Node, from: Id, ni: nat, reply: AppendEntriesReply)
    requires AeResultDefined(n, ni, reply)
    ensures OnAeResult(n, from, ni, reply).node.role == Leader ==> n.role == Leader
  {
    hide AdvanceCommit, Backtrack;
  }

  lemma LocalCrownsNone(c: Cluster, s: Step, i: Id)
    requires Enabled(c, s) && !s.Deliver?
    ensures NotCrowned(c, Next(c, s), i)
  {
    hide LastLog, Request, NextFor, SavedAll;
  }

  lemma LeadsOnlyByReply(c: Cluster, s: Step, i: Id)
    requires Enabled(c, s) && i in c.members && c.members[i].node.role != Leader
    requires i in Next(c, s).members && Next(c, s).members[i].node.role == Leader
    ensures s.Deliver? && s.m.VoteReply? && s.m.cand == i && (s.m.from, s.m.callTerm) in c.members[i].calls
  {
    hide AfterTimeout, AfterSubmit, AfterHeartbeat, AfterApply, AfterCrash, AfterRestart;
    hide AfterVoteRequest, AfterAppendRequest, AfterAppendReply;
    match s {
      case Deliver(VoteRequest(p, vote)) => VoteRequestCrownsNone(c, p, vote, i);
      case Deliver(AppendRequest(p, req)) => AppendRequestCrownsNone(c, p, req, i);
      case Deliver(AppendReply(p, from, req, reply)) => AppendReplyCrownsNone(c, p, from, req, reply, i);
      case Deliver(VoteReply(p, from, callTerm, granted)) => ReplyIsToCandidate(c, p, from, callTerm, granted, i);
      case _ => LocalCrownsNone(c, s, i);
    }
  }

  lemma ReplyIsToCandidate(c: Cluster, p: Id, from: Id, callTerm: nat, granted: RequestVoteReply, i: Id)
    requires p in c.members
    ensures i != p ==> NotCrowned(c, AfterVoteReply(c, p, from, callTerm, granted), i)
  {
    hide OnVoteResult;
  }

  /** Votes are only counted from replies, so a node without peers never counts its own. */
  lemma {:induction false} NoLeaderAlone(r: Run, k: nat, i: Id)
    requires r.Valid() && r.Remembering() && k < |r.states| && i in r.states[k].members && |r.states[k].members| == 1
    ensures r.states[k].members[i].node.role != Leader
    decreases k
  {
    hide Sound, Moves;
    if k > 0 && r.states[k].members[i].node.role == Leader {
      var c, s := r.states[k - 1], r.steps[k - 1];
      RunSound(r, k - 1);
      StepSound(c, s);
      SameMembers(c, r.states[k], Actor(s));
      hide Init, Enabled, Next;
      NoLeaderAlone(r, k - 1, i);
      LeadsOnlyByReply(c, s, i);
      Facts(c, i);
      OnlyMember(c, i, s.m.from);
    }
  }

  lemma SameMembers(c: Cluster, c': Cluster, i: Id)
    requires Moves(c, c', i)
    ensures c'.members.Keys == c.members.Keys && |c'.members| == |c.members|
  {
    assert |c.members| == |c.members.Keys| == |c'.members.Keys| == |c'.members|;
  }

  lemma OnlyMember(c: Cluster, i: Id, p: Id)
    requires i in c.members && |c.members| == 1
    ensures p in c.members ==> p == i
  {
    if p in c.members && p != i {
      assert {i, p} <= c.members.Keys;
      Quorums.SubsetCount({i, p}, c.members.Keys);
      assert false;
    }
  }
}
