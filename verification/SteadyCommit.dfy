/** The exact conditions under which the leader's bookkeeping is true, and clusters in which index 0 is safe too. */
module SteadyCommit {
  import opened Messages
  import opened Replica
  import opened Cluster
  import opened ElectionSafety
  import opened Lineage
  import opened LogSafety
  import opened LogSteps
  import opened LeaderCompleteness
  import opened CommitSafety
  import opened CommitSteps
  import opened StateMachineSafety

  // ---------------------------------------------------------------- when a credit is true

  /** A follower whose success reply is in flight is a peer that has acknowledged what the request carried. */
  lemma ReplierIsPeer(c: Cluster, i: Id, from: Id, req: AppendEntries, reply: AppendEntriesReply)
    requires Sound(c) && Logged(c) && i in c.members && AppendReply(i, from, req, reply) in c.net
    requires reply.success && reply.term == c.members[i].node.term
    ensures from in c.members && from != i && from in c.members[i].node.peers
    ensures AckOf(c, from, c.members[i].node.term) >= SentLength(req) && InsertAt(req) <= SentLength(req)
  {
    hide Sound, Logged, VoteOk, TallyOk, LeaderOk, BuiltBy;
    MessageFact(c, AppendReply(i, from, req, reply));
    AckFact(c, from, req.term);
    Facts(c, i);
  }

  /** A success reply in flight that its leader is about to credit. */
  ghost predicate Crediting(c: Cluster, i: Id, from: Id, req: AppendEntries, reply: AppendEntriesReply) {
    && i in c.members && AppendReply(i, from, req, reply) in c.net
    && Credits(c.members[i].node, reply) && InsertAt(req) <= |c.members[i].node.logs|
  }

  /**
   Crediting a success reply leaves every match index above 0 backed by an acknowledgement if and only if the
   follower has acknowledged the leader's whole log, or that log has at most one entry.
   */
  lemma CreditBackedIffSteady(c: Cluster, i: Id, from: Id, req: AppendEntries, reply: AppendEntriesReply)
    requires Sound(c) && Logged(c) && Committed(c, 1) && Crediting(c, i, from, req, reply)
    ensures var n, c' := c.members[i].node, AfterAppendReply(c, i, from, req, reply);
            MatchOk(c', i) <==> |n.logs| <= 1 || AckedWhole(c, n, from)
  {
    hide Sound, Logged, Committed, AfterAppendReply;
    var n, c' := c.members[i].node, AfterAppendReply(c, i, from, req, reply);
    ReplierIsPeer(c, i, from, req, reply);
    if |n.logs| <= 1 || AckedWhole(c, n, from) {
      hide MatchOk, CommitOk, SentOk;
      CreditResult(c, i, from, req, reply, 1);
    } else {
      CreditedMatch(c, i, from, req, reply);
    }
  }

  lemma CreditedMatch(c: Cluster, i: Id, from: Id, req: AppendEntries, reply: AppendEntriesReply)
    requires i in c.members && Credits(c.members[i].node, reply) && InsertAt(req) <= |c.members[i].node.logs|
    requires from in c.members[i].node.peers && |c.members[i].node.logs| > 1 && !AckedWhole(c, c.members[i].node, from)
    ensures var c' := AfterAppendReply(c, i, from, req, reply); i in c'.members && !MatchOk(c', i)
  {
    hide AdvanceCommit;
    CreditShape(c.members[i].node, from, InsertAt(req), reply);
    hide OnAeResult;
    var n' := AfterAppendReply(c, i, from, req, reply).members[i].node;
    assert MatchOf(n', from) == |n'.logs| - 1;
  }

  /** In particular this holds while the log is as long as when the request was built. */
  lemma UngrownIsSteady(c: Cluster, i: Id, from: Id, req: AppendEntries, reply: AppendEntriesReply)
    requires Sound(c) && Logged(c) && Crediting(c, i, from, req, reply) && |c.members[i].node.logs| == SentLength(req)
    ensures AckedWhole(c, c.members[i].node, from)
  {
    hide Sound, Logged;
    ReplierIsPeer(c, i, from, req, reply);
  }

  // ---------------------------------------------------------------- when index 0 is safe

  /** What backs index 0 of a leader's log, if its entry has the leader's own term, is a majority in that term. */
  lemma BackedFirst(c: Cluster, log: Log, t: nat)
    requires Logged(c) && t in c.reigns && c.reigns[t].log == log && |log| > 0 && log[0].term == t
    ensures Backed(c, 0, log, t) <==> Majority(c, t, 0)
  {
    hide Logged;
    if Majority(c, t, 0) {
      assert Chosen(c, t, 0);
      IsBacked(c, 0, log, t);
    }
    if Backed(c, 0, log, t) {
      var u: nat, j: nat :| u <= t && BackedBy(c, 0, log, u, j);
      assert c.reigns[u].log[..1][0] == log[0];
      OwnTermsOnly(c, u);
      assert c.reigns[u].log[0].term <= u;
      var q: set<Id> :| AckedBy(c, q, u, j);
      assert AckedBy(c, q, t, 0);
    }
  }

  lemma OwnTermsOnly(c: Cluster, u: nat)
    requires Logged(c) && u in c.reigns
    ensures TermsWithin(c.reigns[u].log, u)
  {
    hide Traced;
    assert ReignsTraced(c.reigns);
  }

  /**
   A leader that commits index 0, having committed nothing before, commits something backed if and only if a majority
   has acknowledged it in the leader's term.
   */
  lemma FirstCommitBackedIffRooted(c: Cluster, i: Id, from: Id, req: AppendEntries, reply: AppendEntriesReply)
    requires Logged(c) && Crediting(c, i, from, req, reply) && CommitsFirst(c.members[i].node, from, req, reply)
    ensures var n, c' := c.members[i].node, AfterAppendReply(c, i, from, req, reply);
            CommitOk(c', i, 0) <==> Majority(c, n.term, 0)
  {
    hide Logged, Backed, Majority, Kept, ReignsTraced, Traced;
    var n, c' := c.members[i].node, AfterAppendReply(c, i, from, req, reply);
    LogFacts(c, i);
    FirstCommitted(n, from, req, reply);
    hide OnAeResult, CommitsFirst;
    BackedFirst(c, n.logs, n.term);
    if Backed(c, 0, n.logs, n.term) { BackingIsHistory(c, c', 0, n.logs, n.term); }
    if Backed(c', 0, n.logs, n.term) { BackingIsHistory(c', c, 0, n.logs, n.term); }
  }

  lemma FirstCommitted(n: Node, from: Id, req: AppendEntries, reply: AppendEntriesReply)
    requires Credits(n, reply) && InsertAt(req) <= |n.logs| && CommitsFirst(n, from, req, reply)
    ensures |n.logs| > 0 && n.logs[0].term == n.term
    ensures var n' := OnAeResult(n, from, InsertAt(req), reply).node;
            n'.logs == n.logs && n'.term == n.term && n'.commitIndex == Some(0)
  {
    CreditShape(n, from, InsertAt(req), reply);
    hide OnAeResult;
    FirstIsCommittable(Credited(n, from));
    hide Committable;
  }

  lemma BackingIsHistory(c: Cluster, c': Cluster, x: nat, log: Log, hi: nat)
    requires c'.reigns == c.reigns && c'.acks == c.acks && c'.members.Keys == c.members.Keys
    requires Backed(c, x, log, hi)
    ensures Backed(c', x, log, hi)
  {
    var t: nat, j: nat :| t <= hi && BackedBy(c, x, log, t, j);
    hide Chosen;
    SameChosen(c, c', t, j);
    assert BackedBy(c', x, log, t, j);
  }

  // ---------------------------------------------------------------- small clusters

  ghost predicate StrictRun(r: Run) {
    && r.Valid() && r.RestartFree()
    && forall k :: 0 <= k < |r.steps| ==> StrictlySteady(r.states[k], r.steps[k])
  }

  lemma StrictIsSteady(r: Run)
    requires StrictRun(r)
    ensures SteadyRun(r)
  {
    forall k | 0 <= k < |r.steps| ensures Steady(r.states[k], r.steps[k]) {
      assert StrictlySteady(r.states[k], r.steps[k]);
      hide Init, Next, Credits, AckedWhole;
    }
  }

  /** With at most three nodes, the leader and the follower it credits are a majority. */
  lemma PairIsMajority(c: Cluster, i: Id, from: Id, t: nat, x: nat)
    requires i in c.members && from in c.members && i != from && |c.members| <= 3
    requires AckOf(c, i, t) > x && AckOf(c, from, t) > x
    ensures Majority(c, t, x)
  {
    var q := {i, from};
    assert |q| == 2;
    assert AckedBy(c, q, t, x);
  }

  lemma SmallIsRooted(c: Cluster, s: Step)
    requires Sound(c) && Logged(c) && Committed(c, 1) && Enabled(c, s) && StrictlySteady(c, s) && |c.members| <= 3
    ensures Rooted(c, s)
  {
    hide Sound, Logged, Committed, Majority, CommitOk, SentOk;
    match s
    case Deliver(AppendReply(i, from, req, reply)) =>
      var n := c.members[i].node;
      if Credits(n, reply) && CommitsFirst(n, from, req, reply) {
        ReplierIsPeer(c, i, from, req, reply);
        FirstCommitted(n, from, req, reply);
        CommitFacts(c, i, 1);
        PairIsMajority(c, i, from, n.term, 0);
      }
    case _ =>
  }

  lemma SameSize(r: Run, k: nat)
    requires r.Valid() && r.RestartFree() && k < |r.states|
    ensures |r.states[k].members| == |r.states[0].members|
  {
    hide Init, Next, Enabled;
    RunHistoryGrows(r, 0, k);
    assert r.states[k].members.Keys == r.states[0].members.Keys;
    assert |r.states[k].members| == |r.states[k].members.Keys| == |r.states[0].members.Keys| == |r.states[0].members|;
  }

  /** In clusters of at most three nodes every strictly steady run is rooted. */
  lemma SmallClustersAreRooted(r: Run)
    requires StrictRun(r) && |r.states[0].members| <= 3
    ensures RootedRun(r)
  {
    StrictIsSteady(r);
    forall k | 0 <= k < |r.steps| ensures Rooted(r.states[k], r.steps[k]) {
      RunCommitted(r, k, 1);
      SameSize(r, k);
      hide Sound, Logged, Committed, Next, Init;
      SmallIsRooted(r.states[k], r.steps[k]);
    }
  }

  /** There, whatever two nodes have committed at any two moments agrees at every index. */
  lemma SmallClusterSafety(r: Run, j: nat, k: nat, a: Id, b: Id, i: nat)
    requires StrictRun(r) && |r.states[0].members| <= 3 && j < |r.states| && k < |r.states|
    requires HasCommitted(r.states[j], a, i) && HasCommitted(r.states[k], b, i)
    ensures var la, lb := r.states[j].members[a].node.logs, r.states[k].members[b].node.logs;
            i < |la| && i < |lb| && la[..i + 1] == lb[..i + 1]
  {
    hide StrictRun;
    SmallClustersAreRooted(r);
    hide RootedRun;
    assert SteadyRun(r) by { RootedIsSteady(r); }
    hide SteadyRun;
    StateMachineSafety.StateMachineSafety(r, j, k, a, b, i);
  }

  lemma RootedIsSteady(r: Run)
    requires RootedRun(r)
    ensures SteadyRun(r)
  {
  }
}
