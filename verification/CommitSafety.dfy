/**
 What commit relies on. The leader credits a success reply with its log's length at reply time, so commit is
 only safe in steady runs, where the follower has acknowledged that much; and index 0 counts as matched by
 everyone, so it is only safe where a majority has acknowledged it when it is first committed.
 */
module CommitSafety {
  import opened Messages
  import opened Replica
  import opened Cluster
  import opened Lineage
  import opened LogSafety
  import opened LeaderCompleteness

  ghost predicate Credits(n: Node, reply: AppendEntriesReply) {
    n.role == Leader && reply.term == n.term && reply.success
  }

  /** The follower has acknowledged, in the leader's term, all that the leader's log holds now. */
  ghost predicate AckedWhole(c: Cluster, n: Node, from: Id) {
    AckOf(c, from, n.term) >= |n.logs|
  }

  /**
   The hypothesis: when a leader credits a success reply, the follower has acknowledged its whole log, or the
   log has at most one entry, so that the credit is for index 0 only.
   */
  ghost predicate Steady(c: Cluster, s: Step)
    requires Enabled(c, s)
  {
    match s
    case Deliver(AppendReply(lead, from, req, reply)) =>
      var n := c.members[lead].node;
      Credits(n, reply) ==> |n.logs| <= 1 || AckedWhole(c, n, from)
    case _ => true
  }

  /** Steadiness without the exemption of short logs. */
  ghost predicate StrictlySteady(c: Cluster, s: Step)
    requires Enabled(c, s)
  {
    match s
    case Deliver(AppendReply(lead, from, req, reply)) =>
      var n := c.members[lead].node;
      Credits(n, reply) ==> AckedWhole(c, n, from)
    case _ => true
  }

  ghost predicate Majority(c: Cluster, t: nat, i: nat) {
    exists q: set<Id> :: AckedBy(c, q, t, i)
  }

  /** The step commits index 0, and nothing else, at a node that had committed nothing. */
  ghost predicate CommitsFirst(n: Node, from: Id, req: AppendEntries, reply: AppendEntriesReply)
    requires AeResultDefined(n, InsertAt(req), reply)
  {
    n.commitIndex == None && OnAeResult(n, from, InsertAt(req), reply).node.commitIndex == Some(0)
  }

  /**
   The hypothesis for index 0: when a leader first commits it, a majority has acknowledged it in the leader's term.
   */
  ghost predicate Rooted(c: Cluster, s: Step)
    requires Enabled(c, s)
  {
    match s
    case Deliver(AppendReply(lead, from, req, reply)) =>
      var n := c.members[lead].node;
      Credits(n, reply) && CommitsFirst(n, from, req, reply) ==> Majority(c, n.term, 0)
    case _ => true
  }

  // ---------------------------------------------------------------- the invariant

  /** A leader has acknowledged its own log, and every match index above 0 stands for a real acknowledgement. */
  ghost predicate MatchOk(c: Cluster, i: Id)
    requires i in c.members
  {
    var n := c.members[i].node;
    n.role == Leader ==>
      && (i, n.term) in c.acks && c.acks[(i, n.term)] >= |n.logs|
      && forall p :: p in n.peers && MatchOf(n, p) >= 1 ==>
           (p, n.term) in c.acks && c.acks[(p, n.term)] > MatchOf(n, p)
  }

  /** The index from which the invariant speaks: 1 in every steady run, 0 in those that are rooted too. */
  type Base = b: nat | b <= 1

  /** `log` agrees through index `x` with a prefix chosen in a term up to `hi`. */
  ghost predicate Backed(c: Cluster, x: nat, log: Log, hi: nat) {
    exists t: nat, j: nat :: t <= hi && BackedBy(c, x, log, t, j)
  }

  ghost predicate BackedBy(c: Cluster, x: nat, log: Log, t: nat, j: nat) {
    x <= j && Chosen(c, t, j) && c.reigns[t].log[..x + 1] <= log
  }

  ghost predicate CommitBacked(c: Cluster, commit: Option<nat>, log: Log, hi: nat, base: Base) {
    commit.Some? ==> commit.value < |log| && (commit.value >= base ==> Backed(c, commit.value, log, hi))
  }

  ghost predicate CommitOk(c: Cluster, i: Id, base: Base)
    requires i in c.members
  {
    var n := c.members[i].node;
    CommitBacked(c, n.commitIndex, n.logs, n.term, base)
  }

  ghost predicate CommitMessageOk(c: Cluster, m: Message, base: Base) {
    m.AppendRequest? && m.req.leaderCommit.Some? ==>
      && m.req.leaderCommit.value < SentLength(m.req)
      && BuiltBy(m.req, c.reigns)
      && (m.req.leaderCommit.value >= base ==>
        Backed(c, m.req.leaderCommit.value, SentLog(m.req, c.reigns), m.req.term))
  }

  /** What a node has sent on its commit channel is its log up to `lastApplied`, in order, from `base` on. */
  ghost predicate SentOk(me: Member, base: Base) {
    var n := me.node;
    && |me.sent| == ApplyFrom(n)
    && (n.lastApplied.Some? ==> n.commitIndex.Some? && n.lastApplied.value <= n.commitIndex.value < |n.logs|)
    && forall k :: 0 <= k < |me.sent| ==>
      me.sent[k].index == k && (k >= base ==> me.sent[k].command == n.logs[k].command)
  }

  ghost predicate Committed(c: Cluster, base: Base) {
    && (forall i :: i in c.members ==> MatchOk(c, i))
    && (forall i :: i in c.members ==> CommitOk(c, i, base))
    && (forall i :: i in c.members ==> SentOk(c.members[i], base))
    && (forall m :: m in c.net ==> CommitMessageOk(c, m, base))
  }

  // ---------------------------------------------------------------- carrying it over a step

  lemma BackedStays(c: Cluster, c': Cluster, x: nat, log: Log, log': Log, hi: nat, hi': nat)
    requires HistoryGrows(c, c') && Backed(c, x, log, hi) && hi <= hi'
    requires x < |log| && log[..x + 1] <= log'
    ensures Backed(c', x, log', hi')
  {
    var t: nat, j: nat :| t <= hi && BackedBy(c, x, log, t, j);
    hide HistoryGrows;
    ChosenStays(c, c', t, j);
    assert c'.reigns[t].log[..x + 1] == c.reigns[t].log[..j + 1][..x + 1];
    assert c.reigns[t].log[..x + 1] == log[..x + 1];
    assert BackedBy(c', x, log', t, j);
  }

  lemma MessageStays(c: Cluster, c': Cluster, i: Id, m: Message, base: Base)
    requires Evolves(c, c', i) && CommitMessageOk(c, m, base)
    ensures CommitMessageOk(c', m, base)
  {
    if m.AppendRequest? && m.req.leaderCommit.Some? {
      EvolvingHistoryGrows(c, c', i);
      BuiltByCarries(m.req, c.reigns, c'.reigns, i);
      hide Evolves, BuiltBy, HistoryGrows, Backed;
      if m.req.leaderCommit.value >= base {
        var log := SentLog(m.req, c.reigns);
        BackedStays(c, c', m.req.leaderCommit.value, log, log, m.req.term, m.req.term);
      }
    }
  }

  lemma MemberStays(c: Cluster, c': Cluster, i: Id, j: Id, base: Base)
    requires Evolves(c, c', i) && j in c.members && j != i
    requires MatchOk(c, j) && CommitOk(c, j, base) && SentOk(c.members[j], base)
    ensures j in c'.members && MatchOk(c', j) && CommitOk(c', j, base) && SentOk(c'.members[j], base)
  {
    EvolvingHistoryGrows(c, c', i);
    assert c'.members[j] == c.members[j];
    hide Evolves, Backed;
    var n := c.members[j].node;
    if n.commitIndex.Some? && n.commitIndex.value >= base {
      BackedStays(c, c', n.commitIndex.value, n.logs, n.logs, n.term, n.term);
    }
    hide HistoryGrows, SentOk;
    assert forall k :: k in c.acks ==> k in c'.acks && c'.acks[k] >= c.acks[k] by { AcksGrow(c, c'); }
  }

  lemma AcksGrow(c: Cluster, c': Cluster)
    requires HistoryGrows(c, c')
    ensures forall k :: k in c.acks ==> k in c'.acks && c'.acks[k] >= c.acks[k]
  {
  }

  ghost predicate NewCommitMessagesOk(c: Cluster, c': Cluster, base: Base) {
    forall m :: m in c'.net && m !in c.net ==> CommitMessageOk(c', m, base)
  }

  lemma CommitCarry(c: Cluster, c': Cluster, i: Id, base: Base)
    requires Committed(c, base) && i in c.members && Evolves(c, c', i)
    requires i in c'.members && c'.members.Keys == c.members.Keys
    requires MatchOk(c', i) && CommitOk(c', i, base) && SentOk(c'.members[i], base) && NewCommitMessagesOk(c, c', base)
    ensures Committed(c', base)
  {
    hide Evolves, MatchOk, CommitOk, SentOk, CommitMessageOk;
    forall j | j in c'.members ensures MatchOk(c', j) && CommitOk(c', j, base) && SentOk(c'.members[j], base) {
      if j != i { MemberStays(c, c', i, j, base); }
    }
    forall m | m in c'.net ensures CommitMessageOk(c', m, base) {
      if m in c.net { MessageStays(c, c', i, m, base); }
    }
  }
}
