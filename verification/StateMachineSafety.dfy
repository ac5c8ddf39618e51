/** The main results about commit, over whole steady runs. */
module StateMachineSafety {
  import opened Messages
  import opened Replica
  import opened Cluster
  import opened ElectionSafety
  import opened Lineage
  import opened LogSafety
  import opened LogSteps
  import opened LeaderCompleteness
  import opened CommitSafety
  import opened CommitSteps
  import opened Backtracking
  import ApplyPipeline

  /** `a` has committed index `i` in state `c`. */
  ghost predicate HasCommitted(c: Cluster, a: Id, i: nat) {
    a in c.members && c.members[a].node.commitIndex.Some? && i <= c.members[a].node.commitIndex.value
  }

  lemma CommitBackedHere(c: Cluster, a: Id, i: nat, base: Base)
    requires Committed(c, base) && HasCommitted(c, a, i) && i >= base
    ensures var n := c.members[a].node;
            i <= n.commitIndex.value < |n.logs| && Backed(c, n.commitIndex.value, n.logs, n.term)
  {
    hide Backed;
    assert CommitOk(c, a, base);
  }

  /**
   State machine safety: in a steady run, whatever two nodes have committed at any two moments agrees, from
   index 1 on, and at index 0 too if the run is rooted. With `a == b` this says that a committed entry never
   changes afterwards.
   */
  lemma StateMachineSafety(r: Run, j: nat, k: nat, a: Id, b: Id, i: nat)
    requires SteadyRun(r) && j < |r.states| && k < |r.states| && (i == 0 ==> RootedRun(r))
    requires HasCommitted(r.states[j], a, i) && HasCommitted(r.states[k], b, i)
    ensures var la, lb := r.states[j].members[a].node.logs, r.states[k].members[b].node.logs;
            i < |la| && i < |lb| && la[..i + 1] == lb[..i + 1]
  {
    hide SteadyRun, RootedRun, Sound, Logged, Committed, HistoryGrows;
    var base: Base := if i == 0 then 0 else 1;
    RunCommitted(r, j, base);
    RunCommitted(r, k, base);
    if j <= k {
      SteadyHistory(r, j, k);
      AgreeLater(r.states[j], r.states[k], a, b, i, base);
    } else {
      SteadyHistory(r, k, j);
      AgreeLater(r.states[k], r.states[j], b, a, i, base);
    }
  }

  lemma SteadyHistory(r: Run, j: nat, k: nat)
    requires SteadyRun(r) && j <= k < |r.states|
    ensures HistoryGrows(r.states[j], r.states[k])
  {
    hide HistoryGrows, Init, Enabled, Next, Steady;
    RunHistoryGrows(r, j, k);
  }

  lemma AgreeLater(c: Cluster, c': Cluster, a: Id, b: Id, i: nat, base: Base)
    requires Sound(c') && Logged(c') && Committed(c, base) && Committed(c', base) && HistoryGrows(c, c') && i >= base
    requires HasCommitted(c, a, i) && HasCommitted(c', b, i)
    ensures var la, lb := c.members[a].node.logs, c'.members[b].node.logs;
            i < |la| && i < |lb| && la[..i + 1] == lb[..i + 1]
  {
    hide Sound, Logged, Committed, Backed, HistoryGrows;
    CommitBackedHere(c, a, i, base);
    CommitBackedHere(c', b, i, base);
    var na, nb := c.members[a].node, c'.members[b].node;
    BackedStays(c, c', na.commitIndex.value, na.logs, na.logs, na.term, na.term);
    BackedAgree(c', na.commitIndex.value, na.logs, na.term, nb.commitIndex.value, nb.logs, nb.term, i);
  }

  lemma SentIsCommitted(c: Cluster, a: Id, i: nat, base: Base)
    requires Committed(c, base) && a in c.members && base <= i < |c.members[a].sent|
    ensures HasCommitted(c, a, i) && i < |c.members[a].node.logs|
    ensures c.members[a].sent[i].index == i && c.members[a].sent[i].command == c.members[a].node.logs[i].command
  {
    assert SentOk(c.members[a], base);
  }

  /** Subscribers on any node see the same sequence: the commands any two nodes ever emit at an index are equal. */
  lemma EmittedAgree(r: Run, j: nat, k: nat, a: Id, b: Id, i: nat)
    requires SteadyRun(r) && j < |r.states| && k < |r.states| && (i == 0 ==> RootedRun(r))
    requires a in r.states[j].members && b in r.states[k].members
    requires i < |r.states[j].members[a].sent| && i < |r.states[k].members[b].sent|
    ensures var x, y := r.states[j].members[a].sent[i], r.states[k].members[b].sent[i];
            x.index == y.index == i && x.command == y.command
  {
    hide Sound, Logged, Committed, SteadyRun, RootedRun;
    var base: Base := if i == 0 then 0 else 1;
    RunCommitted(r, j, base);
    RunCommitted(r, k, base);
    SentIsCommitted(r.states[j], a, i, base);
    SentIsCommitted(r.states[k], b, i, base);
    StateMachineSafety(r, j, k, a, b, i);
    var la, lb := r.states[j].members[a].node.logs, r.states[k].members[b].node.logs;
    assert la[i] == la[..i + 1][i] == lb[..i + 1][i] == lb[i];
  }

  /** In a steady run the slice of committed entries never reaches past the log. */
  lemma ApplyNeverPanics(r: Run, k: nat, a: Id)
    requires SteadyRun(r) && k < |r.states| && a in r.states[k].members
    ensures SendCommitsDefined(r.states[k].members[a].node)
  {
    RunCommitted(r, k, 1);
    CommitFacts(r.states[k], a, 1);
    hide Sound, Logged, Committed, SteadyRun;
  }

  /**
   A follower that accepts a request ends with the sender's commit index, unless it was already further,
   and all entries through that index are those of the sender's log when it built the request: the clamp to
   the follower's own last entry, which may lie beyond the last new one, never matters.
   */
  lemma FollowerCommitIsSound(n: Node, req: AppendEntries, rs: map<nat, Reign>)
    requires Traced(n.logs, rs) && ReignsTraced(rs) && BuiltBy(req, rs) && Accepts(n, req)
    requires req.leaderCommit.Some? && req.leaderCommit.value < SentLength(req)
    ensures var n', x := OnAppendEntries(n, req).node, req.leaderCommit.value;
            && SentLog(req, rs)[..x + 1] <= n'.logs
            && n'.commitIndex == if n.commitIndex.None? || n.commitIndex.value < x then Some(x) else n.commitIndex
  {
    AcceptedLogs(n, req, rs);
    AcceptedFollows(n, req);
    hide Traced, ReignsTraced, BuiltBy, OnAppendEntries, Accepts, Adopt;
    ClampIsExact(n.commitIndex, req.leaderCommit.value, n.logs, SentLog(req, rs));
  }

  /** In a steady run this covers every request in flight and every node that accepts it. */
  lemma FollowersCommitSoundly(r: Run, k: nat, m: Message)
    requires SteadyRun(r) && k < |r.states| && m in r.states[k].net && m.AppendRequest? && m.to in r.states[k].members
    requires Accepts(r.states[k].members[m.to].node, m.req) && m.req.leaderCommit.Some?
    ensures var c := r.states[k]; var x := m.req.leaderCommit.value;
            && BuiltBy(m.req, c.reigns) && x < SentLength(m.req)
            && SentLog(m.req, c.reigns)[..x + 1] <= OnAppendEntries(c.members[m.to].node, m.req).node.logs
            && NotBefore(OnAppendEntries(c.members[m.to].node, m.req).node, x)
  {
    hide SteadyRun, Sound, Logged, Committed, OnAppendEntries, Accepts;
    hide Traced, ReignsTraced, TermsWithin, Kept, BuiltBy, Backed;
    var c := r.states[k];
    RunCommitted(r, k, 1);
    DeliveredSoundly(c, m, 1);
  }

  lemma DeliveredSoundly(c: Cluster, m: Message, base: Base)
    requires Logged(c) && Committed(c, base) && m in c.net && m.AppendRequest? && m.to in c.members
    requires Accepts(c.members[m.to].node, m.req) && m.req.leaderCommit.Some?
    ensures var x := m.req.leaderCommit.value;
            && BuiltBy(m.req, c.reigns) && x < SentLength(m.req)
            && SentLog(m.req, c.reigns)[..x + 1] <= OnAppendEntries(c.members[m.to].node, m.req).node.logs
            && NotBefore(OnAppendEntries(c.members[m.to].node, m.req).node, x)
  {
    hide Sound, Logged, Committed, OnAppendEntries, Accepts;
    hide Traced, ReignsTraced, TermsWithin, Kept, BuiltBy, Backed;
    LogFacts(c, m.to);
    CommitMessageFact(c, m, base);
    FollowerCommitIsSound(c.members[m.to].node, m.req, c.reigns);
  }

  ghost predicate NotBefore(n: Node, x: nat) {
    n.commitIndex.Some? && x <= n.commitIndex.value
  }

  /**
   Commit makes progress: in every run without restarts each request that a leader sends to a peer carries its commit
   index then, and the peer that accepts it, whenever that is, has committed at least as far, provided the index lies
   in the leader's own log, which it always does in a steady run.
   */
  lemma CommitReachesFollowers(r: Run, j: nat, k: nat, i: Id, p: Id)
    requires r.Valid() && r.RestartFree() && j < k < |r.steps| && r.steps[j] == Heartbeat(i)
    requires i in r.states[j].members && r.states[j].members[i].node.role == Leader
    requires p in r.states[j].members[i].node.peers
    requires var n := r.states[j].members[i].node;
             var req := Request(n, NextFor(n, p));
             && r.steps[k] == Deliver(AppendRequest(p, req)) && p in r.states[k].members
             && Accepts(r.states[k].members[p].node, req)
    ensures var n := r.states[j].members[i].node;
            && AppendRequest(p, Request(n, NextFor(n, p))) in r.states[j + 1].net
            && p in r.states[k + 1].members
            && (n.commitIndex.Some? && n.commitIndex.value < |n.logs| ==>
                NotBefore(r.states[k + 1].members[p].node, n.commitIndex.value))
            && (n.commitIndex.Some? && SteadyRun(r) ==> n.commitIndex.value < |n.logs|)
  {
    hide Sound, Logged, Committed, Init, Steady, SteadyRun;
    var n := r.states[j].members[i].node;
    var req := Request(n, NextFor(n, p));
    HeartbeatStep(r, j, i, p);
    DeliveryStep(r, k, p, req);
    hide Enabled, Next, OnAppendEntries, Accepts, BuiltBy, Traced, ReignsTraced;
    RequestCarries(n, p);
    if n.commitIndex.Some? && n.commitIndex.value < |n.logs| {
      RunLogged(r, k);
      LogFacts(r.states[k], p);
      MessageFact(r.states[k], AppendRequest(p, req));
      FollowerCommitIsSound(r.states[k].members[p].node, req, r.states[k].reigns);
    }
    if SteadyRun(r) {
      RunCommitted(r, j, 1);
      CommitFacts(r.states[j], i, 1);
    }
  }

  lemma RequestCarries(n: Node, p: Id)
    ensures Request(n, NextFor(n, p)).leaderCommit == n.commitIndex && SentLength(Request(n, NextFor(n, p))) == |n.logs|
  {
  }

  lemma HeartbeatStep(r: Run, j: nat, i: Id, p: Id)
    requires r.Valid() && j < |r.steps| && r.steps[j] == Heartbeat(i) && i in r.states[j].members
    requires r.states[j].members[i].node.role == Leader && p in r.states[j].members[i].node.peers
    ensures var n := r.states[j].members[i].node; AppendRequest(p, Request(n, NextFor(n, p))) in r.states[j + 1].net
  {
    hide Init, Enabled, Request, NextFor, SendAes;
  }

  lemma DeliveryStep(r: Run, k: nat, p: Id, req: AppendEntries)
    requires r.Valid() && k < |r.steps| && r.steps[k] == Deliver(AppendRequest(p, req)) && p in r.states[k].members
    ensures AppendRequest(p, req) in r.states[k].net && p in r.states[k + 1].members
    ensures r.states[k + 1].members[p].node == OnAppendEntries(r.states[k].members[p].node, req).node
  {
    hide Init, OnAppendEntries;
  }

  // ---------------------------------------------------------------- leaders hold what is committed

  lemma BackedInLeader(c: Cluster, x: nat, log: Log, hi: nat, lead: Id)
    requires Sound(c) && Logged(c) && Backed(c, x, log, hi) && x < |log|
    requires lead in c.members && c.members[lead].node.role == Leader && hi <= c.members[lead].node.term
    ensures log[..x + 1] <= c.members[lead].node.logs
  {
    hide Sound, Logged, Chosen;
    var t: nat, j: nat :| t <= hi && BackedBy(c, x, log, t, j);
    LeaderFacts(c, lead);
    ChosenLength(c, t, j);
    ChosenFrom(c, t, j, c.members[lead].node.term);
    assert c.reigns[t].log[..x + 1] == c.reigns[t].log[..j + 1][..x + 1] == log[..x + 1];
  }

  /**
   In a steady run, what a node has committed at a moment `j` is in the log of every leader of that node's term or a
   later one, then and ever after; index 0 alone needs a rooted run.
   */
  lemma LeadersHoldCommitted(r: Run, j: nat, k: nat, a: Id, i: nat, lead: Id)
    requires SteadyRun(r) && j <= k < |r.states| && (i == 0 ==> RootedRun(r)) && HasCommitted(r.states[j], a, i)
    requires lead in r.states[k].members && r.states[k].members[lead].node.role == Leader
    requires r.states[j].members[a].node.term <= r.states[k].members[lead].node.term
    ensures var n := r.states[j].members[a].node;
            i < |n.logs| && n.logs[..i + 1] <= r.states[k].members[lead].node.logs
  {
    hide SteadyRun, RootedRun, Sound, Logged, Committed, Backed, HistoryGrows;
    var base: Base := if i == 0 then 0 else 1;
    RunCommitted(r, j, base);
    RunCommitted(r, k, base);
    SteadyHistory(r, j, k);
    CommitBackedHere(r.states[j], a, i, base);
    var n := r.states[j].members[a].node;
    var x := n.commitIndex.value;
    BackedStays(r.states[j], r.states[k], x, n.logs, n.logs, n.term, n.term);
    BackedInLeader(r.states[k], x, n.logs, n.term, lead);
    assert n.logs[..i + 1] == n.logs[..x + 1][..i + 1];
  }

  // ---------------------------------------------------------------- what is committed is never cut

  lemma CommitStays(r: Run, k: nat, a: Id)
    requires SteadyRun(r) && k < |r.steps| && a in r.states[k].members
    ensures a in r.states[k + 1].members
    ensures ApplyPipeline.NotBelow(r.states[k].members[a].node.commitIndex, r.states[k + 1].members[a].node.commitIndex)
  {
    hide Init, Enabled, Next, Steady, ApplyPipeline.CommitMoves;
    var c, s := r.states[k], r.steps[k];
    ApplyPipeline.StepMoves(c, s);
    if a == Actor(s) {
      hide ApplyPipeline.Alone;
      ApplyPipeline.ActorKeepsCommit(c.members[a], r.states[k + 1].members[a], s);
    }
  }

  /** A rooted run never cuts a log at or below its commit index. */
  lemma RootedIsUncut(r: Run)
    requires RootedRun(r)
    ensures ApplyPipeline.UncutRun(r)
  {
    hide Init, Enabled, Next, Steady, Rooted;
    forall k, a | 0 <= k < |r.steps| && a in r.states[k].members && a in r.states[k + 1].members
      ensures ApplyPipeline.Uncut(r.states[k].members[a].node, r.states[k + 1].members[a].node)
    {
      hide RootedRun, SteadyRun;
      var n := r.states[k].members[a].node;
      if n.commitIndex.Some? {
        CommitStays(r, k, a);
        StateMachineSafety(r, k, k + 1, a, a, n.commitIndex.value);
        PrefixOf(n.logs, r.states[k + 1].members[a].node.logs, n.commitIndex.value);
      }
    }
  }

  lemma PrefixOf(a: Log, b: Log, i: nat)
    requires i < |a| && i < |b| && a[..i + 1] == b[..i + 1]
    ensures a[..i + 1] <= b
  {
  }

  /** So there, at every moment, every node has emitted exactly its log up to `lastApplied`, in order and once each. */
  lemma RootedEmission(r: Run, k: nat, a: Id)
    requires RootedRun(r) && k < |r.states| && a in r.states[k].members
    ensures ApplyPipeline.Pipelined(r.states[k].members[a])
    ensures k > 0 ==> a in r.states[k - 1].members &&
                      ApplyPipeline.IndicesAdvance(r.states[k - 1].members[a].node, r.states[k].members[a].node)
  {
    hide RootedRun, ApplyPipeline.UncutRun, ApplyPipeline.Pipelined, ApplyPipeline.IndicesAdvance;
    RootedIsUncut(r);
    ApplyPipeline.EmittedIsLog(r, k, a);
  }
}
