/** Every steady, restart-free step keeps the commit invariant; hence state machine safety over whole runs. */
module CommitSteps {
  import opened Messages
  import opened Replica
  import opened Cluster
  import opened Quorums
  import opened ElectionSafety
  import opened Lineage
  import opened LogSafety
  import opened LogSteps
  import opened LeaderCompleteness
  import opened CommitSafety

  lemma CommitFacts(c: Cluster, i: Id, base: Base)
    requires Committed(c, base) && i in c.members
    ensures MatchOk(c, i) && CommitOk(c, i, base) && SentOk(c.members[i], base)
  {
  }

  lemma CommitMessageFact(c: Cluster, m: Message, base: Base)
    requires Committed(c, base) && m in c.net
    ensures CommitMessageOk(c, m, base)
  {
  }

  lemma EvolvingMembers(c: Cluster, c': Cluster, i: Id)
    requires Evolves(c, c', i)
    ensures i in c.members && c'.members.Keys == c.members.Keys && i in c'.members
    ensures c.members[i].node.term <= c'.members[i].node.term && c.members[i].node.peers == c'.members[i].node.peers
  {
  }

  // ---------------------------------------------------------------- steps that commit nothing

  ghost predicate Idle(me: Member, me': Member) {
    && me'.sent == me.sent
    && me'.node.commitIndex == me.node.commitIndex && me'.node.lastApplied == me.node.lastApplied
    && me.node.logs <= me'.node.logs
    && (me'.node.role == Leader ==>
          me.node.role == Leader && me'.node.term == me.node.term && me'.node.matchIndex == me.node.matchIndex)
  }

  ghost predicate OwnLogAcked(c: Cluster, i: Id)
    requires i in c.members
  {
    var n := c.members[i].node;
    n.role == Leader ==> (i, n.term) in c.acks && c.acks[(i, n.term)] >= |n.logs|
  }

  lemma SameCommit(c: Cluster, c': Cluster, i: Id, base: Base)
    requires Evolves(c, c', i) && i in c.members && i in c'.members && CommitOk(c, i, base)
    requires c'.members[i].node.commitIndex == c.members[i].node.commitIndex
    requires c.members[i].node.logs <= c'.members[i].node.logs
    ensures CommitOk(c', i, base)
  {
    var n, n' := c.members[i].node, c'.members[i].node;
    EvolvingMembers(c, c', i);
    EvolvingHistoryGrows(c, c', i);
    hide Evolves, HistoryGrows, Backed;
    if n.commitIndex.Some? && n.commitIndex.value >= base {
      BackedStays(c, c', n.commitIndex.value, n.logs, n'.logs, n.term, n'.term);
    }
  }

  lemma SameMatch(c: Cluster, c': Cluster, i: Id)
    requires Evolves(c, c', i) && i in c.members && i in c'.members && MatchOk(c, i)
    requires Idle(c.members[i], c'.members[i]) && OwnLogAcked(c', i)
    ensures MatchOk(c', i)
  {
    EvolvingMembers(c, c', i);
    EvolvingHistoryGrows(c, c', i);
    AcksGrow(c, c');
    hide Evolves, HistoryGrows;
    var n, n' := c.members[i].node, c'.members[i].node;
    forall p | n'.role == Leader && p in n'.peers && MatchOf(n', p) >= 1
      ensures (p, n'.term) in c'.acks && c'.acks[(p, n'.term)] > MatchOf(n', p)
    {
      assert MatchOf(n', p) == MatchOf(n, p);
    }
  }

  lemma IdleCommitted(c: Cluster, c': Cluster, i: Id, base: Base)
    requires Committed(c, base) && Evolves(c, c', i) && i in c.members && i in c'.members
    requires Idle(c.members[i], c'.members[i]) && OwnLogAcked(c', i)
    requires forall m :: m in c'.net && m !in c.net ==> !m.AppendRequest?
    ensures Committed(c', base)
  {
    hide Committed, Evolves, OwnLogAcked, MatchOk, CommitOk;
    EvolvingMembers(c, c', i);
    CommitFacts(c, i, base);
    SameCommit(c, c', i, base);
    SameMatch(c, c', i);
    CommitCarry(c, c', i, base);
  }

  /** An idle member that is not leading, or leads on with the log it had. */
  lemma StillAcked(c: Cluster, c': Cluster, i: Id)
    requires Evolves(c, c', i) && i in c.members && i in c'.members && MatchOk(c, i)
    requires Idle(c.members[i], c'.members[i]) && c'.members[i].node.logs == c.members[i].node.logs
    ensures OwnLogAcked(c', i)
  {
    EvolvingHistoryGrows(c, c', i);
    AcksGrow(c, c');
    hide Evolves, HistoryGrows;
  }

  lemma IdleSameLog(c: Cluster, c': Cluster, i: Id, base: Base)
    requires Committed(c, base) && Evolves(c, c', i) && i in c.members && i in c'.members
    requires Idle(c.members[i], c'.members[i]) && c'.members[i].node.logs == c.members[i].node.logs
    requires forall m :: m in c'.net && m !in c.net ==> !m.AppendRequest?
    ensures Committed(c', base)
  {
    hide Committed, Evolves, OwnLogAcked, MatchOk, CommitOk, Idle;
    CommitFacts(c, i, base);
    StillAcked(c, c', i);
    IdleCommitted(c, c', i, base);
  }

  // ---------------------------------------------------------------- winning, submitting, sending, applying

  lemma VoteReplyCommitted(c: Cluster, i: Id, from: Id, callTerm: nat, granted: RequestVoteReply, base: Base)
    requires Committed(c, base) && i in c.members
    requires var c' := AfterVoteReply(c, i, from, callTerm, granted); Evolves(c, c', i)
    ensures Committed(AfterVoteReply(c, i, from, callTerm, granted), base)
  {
    var c' := AfterVoteReply(c, i, from, callTerm, granted);
    hide Committed, Evolves, CommitOk, SentOk;
    EvolvingMembers(c, c', i);
    hide AfterVoteReply, MatchOk;
    if Wins(c.members[i].node, granted) {
      WinnerMatch(c, i, from, callTerm, granted);
      CommitFacts(c, i, base);
      WinnerSends(c, i, from, callTerm, granted, base);
      SameCommit(c, c', i, base);
      CommitCarry(c, c', i, base);
    } else {
      LoserIdle(c, i, from, callTerm, granted);
      IdleSameLog(c, c', i, base);
    }
  }

  lemma WinnerMatch(c: Cluster, i: Id, from: Id, callTerm: nat, granted: RequestVoteReply)
    requires i in c.members && Wins(c.members[i].node, granted)
    ensures var c' := AfterVoteReply(c, i, from, callTerm, granted); i in c'.members && MatchOk(c', i)
  {
    WinnerCrowned(c, i, from, callTerm, granted);
    FreshMatch(c.members[i].node, granted);
    hide MatchOf;
  }

  lemma FreshMatch(n: Node, granted: RequestVoteReply)
    requires Wins(n, granted)
    ensures var n' := OnVoteResult(n, granted.term, granted.voted).node;
            forall p :: p in n'.peers ==> MatchOf(n', p) == 0
  {
  }

  lemma LoserIdle(c: Cluster, i: Id, from: Id, callTerm: nat, granted: RequestVoteReply)
    requires i in c.members && !Wins(c.members[i].node, granted)
    ensures var c' := AfterVoteReply(c, i, from, callTerm, granted);
            && i in c'.members && Idle(c.members[i], c'.members[i])
            && c'.members[i].node.logs == c.members[i].node.logs && c'.net == c.net
  {
  }

  lemma WinnerSends(c: Cluster, i: Id, from: Id, callTerm: nat, granted: RequestVoteReply, base: Base)
    requires i in c.members && Wins(c.members[i].node, granted) && SentOk(c.members[i], base)
    ensures var c' := AfterVoteReply(c, i, from, callTerm, granted);
            && SentOk(c'.members[i], base) && c'.net == c.net
            && c'.members[i].node.commitIndex == c.members[i].node.commitIndex
            && c'.members[i].node.logs == c.members[i].node.logs
  {
  }

  lemma SubmitIdle(c: Cluster, i: Id, cmd: Command)
    requires i in c.members && LeaderOk(c, i)
    ensures var c' := AfterSubmit(c, i, cmd);
            && i in c'.members && Idle(c.members[i], c'.members[i]) && c'.net == c.net
            && (c.members[i].node.role == Leader ==> OwnLogAcked(c', i))
            && (c.members[i].node.role != Leader ==> c'.members[i].node.role != Leader)
  {
  }

  lemma SubmitCommitted(c: Cluster, i: Id, cmd: Command, base: Base)
    requires Committed(c, base) && Sound(c) && i in c.members && Evolves(c, AfterSubmit(c, i, cmd), i)
    ensures Committed(AfterSubmit(c, i, cmd), base)
  {
    hide Committed, Evolves, Sound, MemberOk, VoteOk, TallyOk, LeaderOk, Idle, AfterSubmit;
    Facts(c, i);
    SubmitIdle(c, i, cmd);
    IdleCommitted(c, AfterSubmit(c, i, cmd), i, base);
  }

  lemma HeartbeatMessages(c: Cluster, i: Id, base: Base)
    requires i in c.members && c.members[i].node.role == Leader && CommitOk(c, i, base)
    requires c.members[i].node.term in c.reigns && c.reigns[c.members[i].node.term].log == c.members[i].node.logs
    requires NewLogMessagesOk(c, AfterHeartbeat(c, i))
    ensures NewCommitMessagesOk(c, AfterHeartbeat(c, i), base)
  {
    hide Backed, BuiltBy;
    var c', n := AfterHeartbeat(c, i), c.members[i].node;
    SameBacking(c, c', n.commitIndex, n.logs, n.term, base);
    forall m | m in c'.net && m !in c.net ensures CommitMessageOk(c', m, base) {
      var p :| p in n.peers && m == AppendRequest(p, Request(n, NextFor(n, p)));
      assert LogMessageOk(c', m);
      SentWhole(n, NextFor(n, p), c'.reigns);
    }
  }

  lemma SentWhole(n: Node, ni: nat, rs: map<nat, Reign>)
    requires ni <= |n.logs| && n.term in rs && rs[n.term].log == n.logs && BuiltBy(Request(n, ni), rs)
    ensures SentLength(Request(n, ni)) == |n.logs| && SentLog(Request(n, ni), rs) == n.logs
  {
  }

  lemma SameBacking(c: Cluster, c': Cluster, commit: Option<nat>, log: Log, hi: nat, base: Base)
    requires CommitBacked(c, commit, log, hi, base)
    requires c'.reigns == c.reigns && c'.acks == c.acks && c'.members.Keys == c.members.Keys
    ensures CommitBacked(c', commit, log, hi, base)
  {
    if commit.Some? && commit.value >= base {
      var t: nat, j: nat :| t <= hi && BackedBy(c, commit.value, log, t, j);
      hide Chosen;
      SameChosen(c, c', t, j);
      assert BackedBy(c', commit.value, log, t, j);
    }
  }

  lemma SameChosen(c: Cluster, c': Cluster, t: nat, j: nat)
    requires Chosen(c, t, j) && c'.reigns == c.reigns && c'.acks == c.acks && c'.members.Keys == c.members.Keys
    ensures Chosen(c', t, j)
  {
    var q: set<Id> :| AckedBy(c, q, t, j);
    assert |c.members| == |c.members.Keys| == |c'.members|;
    assert AckedBy(c', q, t, j);
  }

  lemma HeartbeatIdle(c: Cluster, i: Id, base: Base)
    requires i in c.members
    ensures var c' := AfterHeartbeat(c, i);
            && i in c'.members && Idle(c.members[i], c'.members[i]) && c'.members[i].node.logs == c.members[i].node.logs
            && (SentOk(c.members[i], base) ==> SentOk(c'.members[i], base))
  {
  }

  lemma HeartbeatNews(c: Cluster, i: Id, base: Base)
    requires Committed(c, base) && Sound(c) && Logged(c) && i in c.members && c.members[i].node.role == Leader
    ensures NewCommitMessagesOk(c, AfterHeartbeat(c, i), base)
  {
    hide Committed, Sound, Logged, NewLogMessagesOk, NewCommitMessagesOk;
    hide Kept, ReignsTraced, VoteOk, TallyOk, AfterHeartbeat;
    Facts(c, i);
    LogFacts(c, i);
    CommitFacts(c, i, base);
    RequestsBuilt(c, i);
    hide Traced, TermsWithin, CommitOk, MatchOk, SentOk;
    HeartbeatMessages(c, i, base);
  }

  lemma HeartbeatCommitted(c: Cluster, i: Id, base: Base)
    requires Committed(c, base) && Sound(c) && Logged(c) && i in c.members && Evolves(c, AfterHeartbeat(c, i), i)
    ensures Committed(AfterHeartbeat(c, i), base)
  {
    var c' := AfterHeartbeat(c, i);
    if c.members[i].node.role == Leader {
      hide Committed, Evolves, Sound, Logged, NewCommitMessagesOk, CommitOk, MatchOk, SentOk, AfterHeartbeat;
      EvolvingMembers(c, c', i);
      CommitFacts(c, i, base);
      HeartbeatNews(c, i, base);
      HeartbeatIdle(c, i, base);
      StillAcked(c, c', i);
      SameCommit(c, c', i, base);
      SameMatch(c, c', i);
      CommitCarry(c, c', i, base);
    }
  }

  lemma ApplySends(me: Member, base: Base)
    requires SentOk(me, base) && SendCommitsDefined(me.node)
    ensures SentOk(Handled(me, SendCommits(me.node)).(sent := me.sent + SendCommits(me.node).reply), base)
  {
  }

  lemma ApplyCommitted(c: Cluster, i: Id, base: Base)
    requires Committed(c, base) && i in c.members && SendCommitsDefined(c.members[i].node)
    requires Evolves(c, AfterApply(c, i), i)
    ensures Committed(AfterApply(c, i), base)
  {
    var c', me := AfterApply(c, i), c.members[i];
    hide Committed, Evolves, SentOk, CommitOk;
    EvolvingMembers(c, c', i);
    CommitFacts(c, i, base);
    ApplySends(me, base);
    SameCommit(c, c', i, base);
    CommitCarry(c, c', i, base);
  }

  // ---------------------------------------------------------------- the leader commits

  /** Counting matches over distinct peers counts the set of peers that match. */
  lemma {:induction false} MatchCountIsSize(n: Node, peers: seq<Id>, x: nat)
    requires Distinct(peers)
    ensures MatchCount(n, peers, x) == |set p | p in peers && MatchOf(n, p) >= x|
  {
    hide MatchOf;
    if |peers| > 0 {
      var init, last := peers[..|peers| - 1], peers[|peers| - 1];
      MatchCountIsSize(n, init, x);
      var before := set p | p in init && MatchOf(n, p) >= x;
      assert forall p :: p in peers <==> p in init || p == last;
      assert last !in init;
      var all := set p | p in peers && MatchOf(n, p) >= x;
      assert all == if MatchOf(n, last) >= x then before + {last} else before;
    }
  }

  /** A committable index of at least 1 is chosen: a majority has acknowledged it in the leader's term. */
  lemma CommittableIsChosen(c: Cluster, i: Id, x: nat)
    requires i in c.members && MatchOk(c, i) && ProperPeers(c, i) && NodeLogOk(c, i)
    requires c.members[i].node.role == Leader && x >= 1 && Committable(c.members[i].node, x)
    ensures Chosen(c, c.members[i].node.term, x)
  {
    var n := c.members[i].node;
    hide Traced, TermsWithin;
    MatchCountIsSize(n, n.peers, x);
    var matched := set p | p in n.peers && MatchOf(n, p) >= x;
    assert |matched + {i}| == |matched| + 1;
    PeersCount(c, i);
    assert |c.members| == |c.members.Keys|;
    assert AckedBy(c, matched + {i}, n.term, x);
  }

  /** Index 0 counts as matched by every peer, whatever the match table says. */
  lemma {:induction false} AllMatchZero(n: Node, peers: seq<Id>)
    ensures MatchCount(n, peers, 0) == |peers|
  {
    if |peers| > 0 {
      AllMatchZero(n, peers[..|peers| - 1]);
    }
  }

  /** So index 0 may be committed exactly when its entry has the leader's term, acknowledged or not. */
  lemma FirstIsCommittable(n: Node)
    ensures Committable(n, 0) <==> |n.logs| > 0 && n.logs[0].term == n.term
  {
    AllMatchZero(n, n.peers);
  }

  /** The new commit index of a leader is backed from index 1 on, and at 0 if a majority holds it. */
  lemma AdvanceBacked(c: Cluster, i: Id, commit: Option<nat>, base: Base)
    requires i in c.members && MatchOk(c, i) && ProperPeers(c, i) && NodeLogOk(c, i) && CommitOk(c, i, base)
    requires c.members[i].node.role == Leader && commit == AdvanceCommit(c.members[i].node)
    requires base == 0 && c.members[i].node.commitIndex == None && commit == Some(0) ==>
      Majority(c, c.members[i].node.term, 0)
    ensures commit.Some? ==> commit.value < |c.members[i].node.logs|
    ensures commit.Some? && commit.value >= base ==>
      Backed(c, commit.value, c.members[i].node.logs, c.members[i].node.term)
    ensures c.members[i].node.commitIndex.Some? ==> commit.Some? && c.members[i].node.commitIndex.value <= commit.value
  {
    var n := c.members[i].node;
    hide Traced, TermsWithin, Backed, ProperPeers;
    if commit != n.commitIndex && commit.value >= base {
      if commit.value >= 1 { CommittableIsChosen(c, i, commit.value); }
      IsBacked(c, commit.value, n.logs, n.term);
    }
  }

  lemma IsBacked(c: Cluster, x: nat, log: Log, t: nat)
    requires Chosen(c, t, x) && c.reigns[t].log == log
    ensures Backed(c, x, log, t)
  {
    assert BackedBy(c, x, log, t, x);
  }

  /** The leader before it scans for a new commit index, its indices for `from` already updated. */
  ghost function Credited(n: Node, from: Id): Node {
    n.(nextIndex := n.nextIndex[from := |n.logs|],
       matchIndex := n.matchIndex[from := if |n.logs| == 0 then 0 else |n.logs| - 1])
  }

  /** In a steady step the credited match index stands for a real acknowledgement. */
  lemma CreditOk(c: Cluster, i: Id, from: Id)
    requires i in c.members && MatchOk(c, i)
    requires |c.members[i].node.logs| <= 1 || AckedWhole(c, c.members[i].node, from)
    ensures MatchOk(Put(c, i, c.members[i].(node := Credited(c.members[i].node, from))), i)
  {
    var n, n' := c.members[i].node, Credited(c.members[i].node, from);
    forall p | n.role == Leader && p in n.peers && MatchOf(n', p) >= 1
      ensures (p, n.term) in c.acks && c.acks[(p, n.term)] > MatchOf(n', p)
    {
      if p != from { assert MatchOf(n', p) == MatchOf(n, p); }
    }
  }

  lemma SameHistoryGrows(c: Cluster, c': Cluster)
    requires SameHistory(c, c') && c'.members.Keys == c.members.Keys
    ensures HistoryGrows(c, c')
  {
  }

  /** The node after a credited reply: indices updated, then the commit scan. */
  lemma CreditShape(n: Node, from: Id, ni: nat, reply: AppendEntriesReply)
    requires Credits(n, reply) && ni <= |n.logs|
    ensures OnAeResult(n, from, ni, reply) ==
      Outcome(Credited(n, from).(commitIndex := AdvanceCommit(Credited(n, from))), [], ())
  {
  }

  lemma NoCreditIdle(me: Member, from: Id, ni: nat, reply: AppendEntriesReply)
    requires AeResultDefined(me.node, ni, reply) && !Credits(me.node, reply)
    ensures var me' := Handled(me, OnAeResult(me.node, from, ni, reply));
            Idle(me, me') && me'.node.logs == me.node.logs
  {
  }

  lemma CreditedCommit(c: Cluster, cm: Cluster, i: Id, base: Base)
    requires i in c.members && i in cm.members && CommitOk(c, i, base) && SameHistory(c, cm)
    requires cm.members.Keys == c.members.Keys
    requires var n, m := c.members[i].node, cm.members[i].node;
             m.commitIndex == n.commitIndex && m.logs == n.logs && m.term == n.term
    ensures CommitOk(cm, i, base)
  {
    var n := c.members[i].node;
    SameHistoryGrows(c, cm);
    hide HistoryGrows, Backed;
    if n.commitIndex.Some? && n.commitIndex.value >= base {
      BackedStays(c, cm, n.commitIndex.value, n.logs, n.logs, n.term, n.term);
    }
  }

  /** The cluster in the middle of a credited reply, before the commit scan. */
  ghost function Middle(c: Cluster, i: Id, from: Id): Cluster
    requires i in c.members
  {
    Put(c, i, c.members[i].(node := Credited(c.members[i].node, from)))
  }

  lemma CreditedCluster(c: Cluster, i: Id, from: Id, base: Base)
    requires Sound(c) && Logged(c) && Committed(c, base) && i in c.members && c.members[i].node.role == Leader
    requires |c.members[i].node.logs| <= 1 || AckedWhole(c, c.members[i].node, from)
    ensures var cm := Middle(c, i, from);
            && MatchOk(cm, i) && ProperPeers(cm, i) && NodeLogOk(cm, i) && CommitOk(cm, i, base)
            && SentOk(cm.members[i], base)
            && cm.members[i].node.role == Leader
  {
    hide Sound, Logged, Committed, VoteOk, TallyOk, Kept, ReignsTraced, LeaderOk, SentOk, MatchOk, CommitOk;
    Facts(c, i);
    LogFacts(c, i);
    CommitFacts(c, i, base);
    CreditOk(c, i, from);
    CreditedCommit(c, Middle(c, i, from), i, base);
    hide Traced, TermsWithin;
    SentSame(c.members[i], Middle(c, i, from).members[i], base);
  }

  lemma SentSame(me: Member, me': Member, base: Base)
    requires SentOk(me, base) && me'.sent == me.sent && me'.node.lastApplied == me.node.lastApplied
    requires me'.node.logs == me.node.logs && me'.node.commitIndex == me.node.commitIndex
    ensures SentOk(me', base)
  {
  }

  lemma ScanOk(cm: Cluster, c': Cluster, i: Id, base: Base)
    requires i in cm.members && MatchOk(cm, i) && ProperPeers(cm, i) && NodeLogOk(cm, i) && CommitOk(cm, i, base)
    requires cm.members[i].node.role == Leader && SentOk(cm.members[i], base)
    requires var n := cm.members[i].node;
             base == 0 && n.commitIndex == None && AdvanceCommit(n) == Some(0) ==> Majority(cm, n.term, 0)
    requires var n := cm.members[i].node;
             c' == Put(cm, i, cm.members[i].(node := n.(commitIndex := AdvanceCommit(n))))
    ensures MatchOk(c', i) && CommitOk(c', i, base) && SentOk(c'.members[i], base)
  {
    hide Backed, ProperPeers, NodeLogOk, AdvanceCommit, MatchOk, Majority;
    var n, n' := cm.members[i].node, c'.members[i].node;
    AdvanceBacked(cm, i, n'.commitIndex, base);
    SameBacking(cm, c', n'.commitIndex, n.logs, n.term, base);
    ScanMatch(cm, c', i);
  }

  lemma ScanMatch(cm: Cluster, c': Cluster, i: Id)
    requires i in cm.members && MatchOk(cm, i)
    requires i in c'.members
    requires c' == Put(cm, i,
      cm.members[i].(node := cm.members[i].node.(commitIndex := c'.members[i].node.commitIndex)))
    ensures MatchOk(c', i)
  {
    assert forall p :: MatchOf(c'.members[i].node, p) == MatchOf(cm.members[i].node, p);
  }

  lemma CreditSteps(c: Cluster, i: Id, from: Id, req: AppendEntries, reply: AppendEntriesReply)
    requires i in c.members && InsertAt(req) <= |c.members[i].node.logs| && Credits(c.members[i].node, reply)
    ensures var cm, c' := Middle(c, i, from), AfterAppendReply(c, i, from, req, reply);
            var n := cm.members[i].node;
            c' == Put(cm, i, cm.members[i].(node := n.(commitIndex := AdvanceCommit(n))))
  {
    hide AdvanceCommit;
    CreditShape(c.members[i].node, from, InsertAt(req), reply);
    hide OnAeResult, Credited;
  }

  lemma FirstStaysRooted(c: Cluster, i: Id, from: Id, req: AppendEntries, reply: AppendEntriesReply)
    requires i in c.members && InsertAt(req) <= |c.members[i].node.logs| && Credits(c.members[i].node, reply)
    requires CommitsFirst(c.members[i].node, from, req, reply) ==> Majority(c, c.members[i].node.term, 0)
    ensures var cm := Middle(c, i, from);
            var n := cm.members[i].node;
            n.commitIndex == None && AdvanceCommit(n) == Some(0) ==> Majority(cm, n.term, 0)
  {
    hide AdvanceCommit;
    CreditShape(c.members[i].node, from, InsertAt(req), reply);
    hide OnAeResult;
    if Majority(c, c.members[i].node.term, 0) { SameMajority(c, Middle(c, i, from), c.members[i].node.term, 0); }
  }

  lemma SameMajority(c: Cluster, c': Cluster, t: nat, j: nat)
    requires Majority(c, t, j) && c'.acks == c.acks && c'.members.Keys == c.members.Keys
    ensures Majority(c', t, j)
  {
    var q: set<Id> :| AckedBy(c, q, t, j);
    assert |c.members| == |c.members.Keys| == |c'.members|;
    assert AckedBy(c', q, t, j);
  }

  lemma CreditCommitted(c: Cluster, i: Id, from: Id, req: AppendEntries, reply: AppendEntriesReply, base: Base)
    requires Sound(c) && Logged(c) && Committed(c, base) && i in c.members && AppendReply(i, from, req, reply) in c.net
    requires InsertAt(req) <= |c.members[i].node.logs| && Credits(c.members[i].node, reply)
    requires |c.members[i].node.logs| <= 1 || AckedWhole(c, c.members[i].node, from)
    requires base == 0 && CommitsFirst(c.members[i].node, from, req, reply) ==> Majority(c, c.members[i].node.term, 0)
    requires Evolves(c, AfterAppendReply(c, i, from, req, reply), i)
    ensures Committed(AfterAppendReply(c, i, from, req, reply), base)
  {
    var c' := AfterAppendReply(c, i, from, req, reply);
    hide Sound, Logged, Committed, Evolves, MatchOk;
    hide CommitOk, SentOk, AckedWhole, Majority, CommitsFirst, AfterAppendReply;
    CreditResult(c, i, from, req, reply, base);
    EvolvingMembers(c, c', i);
    CommitCarry(c, c', i, base);
  }

  lemma CreditResult(c: Cluster, i: Id, from: Id, req: AppendEntries, reply: AppendEntriesReply, base: Base)
    requires Sound(c) && Logged(c) && Committed(c, base) && i in c.members
    requires InsertAt(req) <= |c.members[i].node.logs| && Credits(c.members[i].node, reply)
    requires |c.members[i].node.logs| <= 1 || AckedWhole(c, c.members[i].node, from)
    requires base == 0 && CommitsFirst(c.members[i].node, from, req, reply) ==> Majority(c, c.members[i].node.term, 0)
    ensures var c' := AfterAppendReply(c, i, from, req, reply);
            && i in c'.members && MatchOk(c', i) && CommitOk(c', i, base) && SentOk(c'.members[i], base)
            && c'.net == c.net
  {
    hide Sound, Logged, Committed, MatchOk, NodeLogOk, CommitOk, ProperPeers, AdvanceCommit, SentOk, AckedWhole;
    hide Majority, CommitsFirst, AfterAppendReply;
    CreditSteps(c, i, from, req, reply);
    CreditedCluster(c, i, from, base);
    if base == 0 { FirstStaysRooted(c, i, from, req, reply); }
    assert AfterAppendReply(c, i, from, req, reply).net == c.net;
    hide Credited, Middle;
    ScanOk(Middle(c, i, from), AfterAppendReply(c, i, from, req, reply), i, base);
  }

  lemma AppendReplyCommitted(c: Cluster, i: Id, from: Id, req: AppendEntries, reply: AppendEntriesReply, base: Base)
    requires Sound(c) && Logged(c) && Committed(c, base) && i in c.members && AppendReply(i, from, req, reply) in c.net
    requires AeResultDefined(c.members[i].node, InsertAt(req), reply)
    requires Credits(c.members[i].node, reply) ==>
      && (|c.members[i].node.logs| <= 1 || AckedWhole(c, c.members[i].node, from))
      && (base == 0 && CommitsFirst(c.members[i].node, from, req, reply) ==> Majority(c, c.members[i].node.term, 0))
    requires Evolves(c, AfterAppendReply(c, i, from, req, reply), i)
    ensures Committed(AfterAppendReply(c, i, from, req, reply), base)
  {
    hide Sound, Logged, Committed, Evolves;
    if Credits(c.members[i].node, reply) {
      CreditCommitted(c, i, from, req, reply, base);
    } else {
      NoCreditIdle(c.members[i], from, InsertAt(req), reply);
      hide OnAeResult, Idle;
      IdleSameLog(c, AfterAppendReply(c, i, from, req, reply), i, base);
    }
  }

  // ---------------------------------------------------------------- a follower commits

  /** A chosen prefix is in the log of every leader from its own term on. */
  lemma ChosenFrom(c: Cluster, t: nat, j: nat, t': nat)
    requires Sound(c) && Logged(c) && Chosen(c, t, j) && t' in c.reigns && t <= t'
    ensures c.reigns[t].log[..j + 1] <= c.reigns[t'].log
  {
    hide Sound, Logged, Chosen, WonWith;
    ChosenLength(c, t, j);
    if t < t' { var won := ChosenPersists(c, t, j, t'); }
  }

  /** What a node has committed survives accepting a request of its term or a later one. */
  lemma CommitSurvives(c: Cluster, x: nat, log: Log, hi: nat, req: AppendEntries)
    requires Sound(c) && Logged(c) && BuiltBy(req, c.reigns) && hi <= req.term
    requires Backed(c, x, log, hi) && x < |log|
    ensures log[..x + 1] <= Adopt(log, SentLog(req, c.reigns))
  {
    hide Sound, Logged, Chosen;
    var t: nat, j: nat :| t <= hi && BackedBy(c, x, log, t, j);
    ChosenLength(c, t, j);
    ChosenFrom(c, t, j, req.term);
    var full, p := c.reigns[req.term].log, c.reigns[t].log[..j + 1];
    assert log[..x + 1] == p[..x + 1];
    AdoptKeeps(log[..x + 1], log, SentLog(req, c.reigns), full);
  }

  lemma ChosenLength(c: Cluster, t: nat, j: nat)
    requires Chosen(c, t, j)
    ensures t in c.reigns && j < |c.reigns[t].log|
  {
  }

  /**
   The clamp of the follower's commit index to its own last entry never bites: the sender's commit index
   lay inside the log it sent, and all of that log is in the follower's log once it accepts.
   */
  lemma ClampIsExact(commit: Option<nat>, x: nat, log: Log, sent: Log)
    requires x < |sent|
    ensures var log' := Adopt(log, sent);
            && sent[..x + 1] <= log'
            && FollowCommit(commit, Some(x), |log'|) == if commit.None? || commit.value < x then Some(x) else commit
  {
  }

  lemma OldCommitKept(c: Cluster, c': Cluster, x: nat, log: Log, hi: nat, hi': nat, req: AppendEntries)
    requires Sound(c) && Logged(c) && BuiltBy(req, c.reigns) && HistoryGrows(c, c')
    requires hi <= req.term <= hi' && x < |log| && Backed(c, x, log, hi)
    ensures var log' := Adopt(log, SentLog(req, c.reigns)); log[..x + 1] <= log' && Backed(c', x, log', hi')
  {
    hide Sound, Logged, Backed, HistoryGrows, BuiltBy, Adopt, SentLog;
    CommitSurvives(c, x, log, hi, req);
    BackedStays(c, c', x, log, Adopt(log, SentLog(req, c.reigns)), hi, hi');
  }

  lemma NewCommitBacked(c: Cluster, c': Cluster, x: nat, log: Log, hi': nat, req: AppendEntries)
    requires BuiltBy(req, c.reigns) && HistoryGrows(c, c') && req.term <= hi'
    requires x < SentLength(req) && Backed(c, x, SentLog(req, c.reigns), req.term)
    ensures Backed(c', x, Adopt(log, SentLog(req, c.reigns)), hi')
  {
    var sent := SentLog(req, c.reigns);
    ClampIsExact(None, x, log, sent);
    hide Backed, HistoryGrows, BuiltBy, Adopt, SentLog;
    BackedStays(c, c', x, sent, Adopt(log, sent), req.term, hi');
  }

  /** What was committed from index 1 on is still there. */
  ghost predicate CommitKept(commit: Option<nat>, log: Log, commit': Option<nat>, log': Log, base: Base) {
    commit.Some? ==>
      && commit'.Some? && commit.value <= commit'.value
      && (commit.value >= base ==> commit.value < |log| && log[..commit.value + 1] <= log')
  }

  lemma SentKept(me: Member, me': Member, base: Base)
    requires SentOk(me, base) && me'.sent == me.sent && me'.node.lastApplied == me.node.lastApplied
    requires me'.node.commitIndex.Some? ==> me'.node.commitIndex.value < |me'.node.logs|
    requires CommitKept(me.node.commitIndex, me.node.logs, me'.node.commitIndex, me'.node.logs, base)
    ensures SentOk(me', base)
  {
    forall k | base <= k < |me'.sent| ensures me'.sent[k].command == me'.node.logs[k].command {
      assert me.node.logs[..me.node.commitIndex.value + 1][k] == me'.node.logs[k];
    }
  }

  lemma FollowCommitOk(c: Cluster, c': Cluster, commit: Option<nat>, log: Log, hi: nat, hi': nat, req: AppendEntries,
    base: Base)
    requires Sound(c) && Logged(c) && BuiltBy(req, c.reigns) && HistoryGrows(c, c') && hi <= req.term <= hi'
    requires CommitBacked(c, commit, log, hi, base)
    requires req.leaderCommit.Some? ==> req.leaderCommit.value < SentLength(req)
    requires CommitBacked(c, req.leaderCommit, SentLog(req, c.reigns), req.term, base)
    ensures var log' := Adopt(log, SentLog(req, c.reigns));
            var commit' := FollowCommit(commit, req.leaderCommit, |log'|);
            CommitBacked(c', commit', log', hi', base) && CommitKept(commit, log, commit', log', base)
  {
    hide Sound, Logged, Backed, HistoryGrows, BuiltBy;
    if commit.Some? && commit.value >= base { OldCommitKept(c, c', commit.value, log, hi, hi', req); }
    if req.leaderCommit.Some? {
      ClampIsExact(commit, req.leaderCommit.value, log, SentLog(req, c.reigns));
      if req.leaderCommit.value >= base { NewCommitBacked(c, c', req.leaderCommit.value, log, hi', req); }
    }
    NeverEmptied(log, SentLog(req, c.reigns));
    hide Adopt, SentLog;
  }

  lemma NeverEmptied(log: Log, sent: Log)
    ensures |log| > 0 ==> |Adopt(log, sent)| > 0
  {
  }

  /** The commit part of accepting a request. */
  lemma FollowedShape(me: Member, req: AppendEntries)
    requires Accepts(me.node, req)
    ensures var me' := Handled(me, OnAppendEntries(me.node, req));
            && InsertAt(req) <= |me.node.logs|
            && me'.node.logs == Splice(me.node.logs, InsertAt(req), req.entries)
            && me'.node.commitIndex == FollowCommit(me.node.commitIndex, req.leaderCommit, |me'.node.logs|)
            && me'.node.lastApplied == me.node.lastApplied && me'.sent == me.sent
            && me'.node.term == req.term && me.node.term <= req.term
            && (me'.node.role == Leader ==> me.node.role == Leader && me.node.term == req.term)
  {
    hide Splice, FollowCommit;
  }

  lemma AcceptedMember(c: Cluster, c': Cluster, i: Id, req: AppendEntries, base: Base)
    requires Sound(c) && Logged(c) && BuiltBy(req, c.reigns) && HistoryGrows(c, c')
    requires i in c.members && i in c'.members && Accepts(c.members[i].node, req)
    requires c'.members[i] == Handled(c.members[i], OnAppendEntries(c.members[i].node, req))
    requires CommitOk(c, i, base) && SentOk(c.members[i], base) && CommitMessageOk(c, AppendRequest(i, req), base)
    ensures CommitOk(c', i, base) && SentOk(c'.members[i], base)
  {
    hide Sound, Logged, Backed, HistoryGrows, BuiltBy, SentOk, Traced, ReignsTraced, Kept;
    hide OnAppendEntries, Accepts, Splice, Adopt, SentLog, PrevOk, FollowCommit, CommitKept;
    var n, n' := c.members[i].node, c'.members[i].node;
    LogFacts(c, i);
    FollowedShape(c.members[i], req);
    AcceptsPrev(n, req);
    SpliceIsAdopt(n.logs, req, c.reigns);
    SentLogLength(req, c.reigns);
    hide NodeLogOk;
    FollowCommitOk(c, c', n.commitIndex, n.logs, n.term, n'.term, req, base);
    SentKept(c.members[i], c'.members[i], base);
  }

  lemma AcceptsPrev(n: Node, req: AppendEntries)
    requires Accepts(n, req)
    ensures PrevOk(n.logs, req)
  {
  }

  /** A node that accepts a request is not its sender, so it does not lead. */
  lemma FollowerMatch(c: Cluster, c': Cluster, i: Id, req: AppendEntries)
    requires i in c.members && i in c'.members && BuiltBy(req, c.reigns) && i != req.leader && LeaderOk(c, i)
    requires c'.members[i].node.role == Leader ==>
      c.members[i].node.role == Leader && c.members[i].node.term == req.term
    ensures MatchOk(c', i)
  {
  }

  lemma AppendShape(c: Cluster, i: Id, req: AppendEntries)
    requires i in c.members
    ensures var c' := AfterAppendRequest(c, i, req);
            && i in c'.members && c'.members[i] == Handled(c.members[i], OnAppendEntries(c.members[i].node, req))
            && forall m :: m in c'.net && m !in c.net ==> !m.AppendRequest?
  {
    hide OnAppendEntries;
  }

  lemma AcceptCommitted(c: Cluster, i: Id, req: AppendEntries, base: Base)
    requires Sound(c) && Logged(c) && Committed(c, base) && i in c.members && AppendRequest(i, req) in c.net
    requires Accepts(c.members[i].node, req) && BuiltBy(req, c.reigns) && i != req.leader
    requires Evolves(c, AfterAppendRequest(c, i, req), i)
    ensures Committed(AfterAppendRequest(c, i, req), base)
  {
    var c' := AfterAppendRequest(c, i, req);
    hide Sound, Logged, Committed, Evolves, AfterAppendRequest, Accepts, BuiltBy, MemberOk, VoteOk, TallyOk, LeaderOk;
    hide CommitOk, SentOk, MatchOk, OnAppendEntries, HistoryGrows;
    AppendShape(c, i, req);
    Facts(c, i);
    CommitFacts(c, i, base);
    CommitMessageFact(c, AppendRequest(i, req), base);
    FollowedShape(c.members[i], req);
    FollowerMatch(c, c', i, req);
    EvolvingHistoryGrows(c, c', i);
    AcceptedMember(c, c', i, req, base);
    EvolvingMembers(c, c', i);
    CommitCarry(c, c', i, base);
  }

  lemma RefusalIdle(me: Member, req: AppendEntries)
    requires !Accepts(me.node, req)
    ensures var me' := Handled(me, OnAppendEntries(me.node, req));
            Idle(me, me') && me'.node.logs == me.node.logs
  {
  }

  lemma AppendRequestCommitted(c: Cluster, i: Id, req: AppendEntries, base: Base)
    requires Sound(c) && Logged(c) && Committed(c, base) && i in c.members && AppendRequest(i, req) in c.net
    requires Evolves(c, AfterAppendRequest(c, i, req), i)
    ensures Committed(AfterAppendRequest(c, i, req), base)
  {
    hide Sound, Logged, Committed, Evolves, AfterAppendRequest, OnAppendEntries, Accepts, BuiltBy, Idle;
    MessageFact(c, AppendRequest(i, req));
    if Accepts(c.members[i].node, req) {
      AcceptCommitted(c, i, req, base);
    } else {
      AppendShape(c, i, req);
      RefusalIdle(c.members[i], req);
      IdleSameLog(c, AfterAppendRequest(c, i, req), i, base);
    }
  }

  // ---------------------------------------------------------------- the remaining steps and whole runs

  lemma TimeoutCommitted(c: Cluster, i: Id, base: Base)
    requires Committed(c, base) && i in c.members && Evolves(c, AfterTimeout(c, i), i)
    ensures Committed(AfterTimeout(c, i), base)
  {
    hide Committed, Evolves;
    IdleSameLog(c, AfterTimeout(c, i), i, base);
  }

  lemma VoterIdle(me: Member, vote: RequestVote)
    ensures var me' := Handled(me, OnRequestVote(me.node, vote));
            Idle(me, me') && me'.node.logs == me.node.logs
  {
    hide UpToDate, LastLog;
  }

  lemma VotingIdle(c: Cluster, i: Id, vote: RequestVote)
    requires i in c.members
    ensures var c' := AfterVoteRequest(c, i, vote);
            && i in c'.members && Idle(c.members[i], c'.members[i])
            && c'.members[i].node.logs == c.members[i].node.logs
            && forall m :: m in c'.net && m !in c.net ==> !m.AppendRequest?
  {
    VoterIdle(c.members[i], vote);
    hide OnRequestVote, Idle;
  }

  lemma VoteRequestCommitted(c: Cluster, i: Id, vote: RequestVote, base: Base)
    requires Committed(c, base) && i in c.members && Evolves(c, AfterVoteRequest(c, i, vote), i)
    ensures Committed(AfterVoteRequest(c, i, vote), base)
  {
    hide Committed, Evolves, Idle, AfterVoteRequest;
    VotingIdle(c, i, vote);
    IdleSameLog(c, AfterVoteRequest(c, i, vote), i, base);
  }

  lemma CrashCommitted(c: Cluster, i: Id, base: Base)
    requires Committed(c, base) && i in c.members && Evolves(c, AfterCrash(c, i), i)
    ensures Committed(AfterCrash(c, i), base)
  {
    hide Committed, Evolves;
    IdleSameLog(c, AfterCrash(c, i), i, base);
  }

  lemma StepCommitted(c: Cluster, s: Step, base: Base)
    requires Sound(c) && Logged(c) && Committed(c, base) && Enabled(c, s) && !s.Restart? && Steady(c, s)
    requires base == 0 ==> Rooted(c, s)
    ensures Committed(Next(c, s), base)
  {
    hide Sound, Logged, Committed, Evolves, AfterTimeout, AfterSubmit, AfterHeartbeat, AfterApply, AfterCrash;
    hide AfterVoteRequest, AfterVoteReply, AfterAppendRequest, AfterAppendReply;
    StepLogged(c, s);
    match s {
      case Timeout(i) => TimeoutCommitted(c, i, base);
      case ClientSubmit(i, cmd) => SubmitCommitted(c, i, cmd, base);
      case Heartbeat(i) => HeartbeatCommitted(c, i, base);
      case ApplyCommits(i) => ApplyCommitted(c, i, base);
      case Crash(i) => CrashCommitted(c, i, base);
      case Deliver(VoteRequest(to, vote)) => VoteRequestCommitted(c, to, vote, base);
      case Deliver(VoteReply(cand, from, callTerm, granted)) =>
        VoteReplyCommitted(c, cand, from, callTerm, granted, base);
      case Deliver(AppendRequest(to, req)) => AppendRequestCommitted(c, to, req, base);
      case Deliver(AppendReply(leader, from, req, reply)) => AppendReplyCommitted(c, leader, from, req, reply, base);
    }
  }

  ghost predicate SteadyRun(r: Run) {
    && r.Valid() && r.RestartFree()
    && forall k :: 0 <= k < |r.steps| ==> Steady(r.states[k], r.steps[k])
  }

  ghost predicate RootedRun(r: Run) {
    SteadyRun(r) && forall k :: 0 <= k < |r.steps| ==> Rooted(r.states[k], r.steps[k])
  }

  lemma InitCommitted(c: Cluster, base: Base)
    requires Init(c)
    ensures Committed(c, base)
  {
  }

  lemma {:induction false} RunCommitted(r: Run, k: nat, base: Base)
    requires SteadyRun(r) && k < |r.states| && (base == 0 ==> RootedRun(r))
    ensures Sound(r.states[k]) && Logged(r.states[k]) && Committed(r.states[k], base)
  {
    hide Sound, Logged, Committed, Init, Enabled, Next, Steady, Rooted;
    RunLogged(r, k);
    if k == 0 {
      InitCommitted(r.states[0], base);
    } else {
      RunCommitted(r, k - 1, base);
      StepCommitted(r.states[k - 1], r.steps[k - 1], base);
    }
  }

  /** Prefixes backed by two chosen prefixes agree. */
  lemma BackedAgree(c: Cluster, x: nat, a: Log, hiA: nat, y: nat, b: Log, hiB: nat, i: nat)
    requires Sound(c) && Logged(c) && Backed(c, x, a, hiA) && Backed(c, y, b, hiB)
    requires i <= x < |a| && i <= y < |b|
    ensures a[..i + 1] == b[..i + 1]
  {
    hide Sound, Logged, Chosen;
    var t: nat, j: nat :| t <= hiA && BackedBy(c, x, a, t, j);
    var u: nat, k: nat :| u <= hiB && BackedBy(c, y, b, u, k);
    ChosenLength(c, t, j);
    ChosenLength(c, u, k);
    if t <= u { ChosenFrom(c, t, j, u); } else { ChosenFrom(c, u, k, t); }
    ChainAgree(c.reigns[t].log, c.reigns[u].log, j, k, i);
    assert a[..i + 1] == c.reigns[t].log[..i + 1] && b[..i + 1] == c.reigns[u].log[..i + 1];
  }

  lemma ChainAgree(a: Log, b: Log, j: nat, k: nat, i: nat)
    requires i <= j < |a| && i <= k < |b|
    requires a[..j + 1] <= b || b[..k + 1] <= a
    ensures a[..i + 1] == b[..i + 1]
  {
    assert a[..j + 1][..i + 1] == a[..i + 1] && b[..k + 1][..i + 1] == b[..i + 1];
  }
}
