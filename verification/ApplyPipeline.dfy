/**
 The commit channel: as long as a node's log is not cut at or below its commit index, the entries it has
 emitted are exactly its log up to `lastApplied`, in order and once each.
 */
module ApplyPipeline {
  import opened Messages
  import opened Replica
  import opened Cluster

  ghost predicate Pipelined(me: Member) {
    var n := me.node;
    && |me.sent| == ApplyFrom(n)
    && (n.commitIndex.Some? ==> n.commitIndex.value < |n.logs|)
    && (n.lastApplied.Some? ==> n.commitIndex.Some? && n.lastApplied.value <= n.commitIndex.value)
    && forall k :: 0 <= k < |me.sent| ==> me.sent[k].index == k && me.sent[k].command == n.logs[k].command
  }

  ghost predicate NotBelow(x: Option<nat>, y: Option<nat>) {
    x.Some? ==> y.Some? && x.value <= y.value
  }

  /** The hypothesis: everything up to the commit index stays where it is. */
  ghost predicate Uncut(n: Node, n': Node) {
    n.commitIndex.Some? && n.commitIndex.value < |n.logs| ==> n.logs[..n.commitIndex.value + 1] <= n'.logs
  }

  /** What every handler but the emitting one does to the pipeline's indices. */
  ghost predicate CommitMoves(n: Node, n': Node) {
    && n'.lastApplied == n.lastApplied
    && NotBelow(n.commitIndex, n'.commitIndex)
    && (n'.commitIndex != n.commitIndex ==> n'.commitIndex.value < |n'.logs|)
  }

  lemma MovesPipelined(me: Member, me': Member)
    requires Pipelined(me) && CommitMoves(me.node, me'.node) && Uncut(me.node, me'.node) && me'.sent == me.sent
    ensures Pipelined(me')
  {
    forall k | 0 <= k < |me'.sent| ensures me'.sent[k].command == me'.node.logs[k].command {
      assert me.node.logs[..me.node.commitIndex.value + 1][k] == me'.node.logs[k];
    }
  }

  lemma AppendMoves(n: Node, req: AppendEntries)
    ensures CommitMoves(n, OnAppendEntries(n, req).node)
  {
    hide Splice, PrevOk;
  }

  lemma AeResultMoves(n: Node, peer: Id, ni: nat, reply: AppendEntriesReply)
    requires AeResultDefined(n, ni, reply)
    ensures CommitMoves(n, OnAeResult(n, peer, ni, reply).node)
  {
  }

  /** Emitting extends what was sent by exactly the entries that became committed. */
  lemma EmitPipelined(me: Member)
    requires Pipelined(me) && SendCommitsDefined(me.node)
    ensures var o := SendCommits(me.node);
            && Pipelined(me.(node := o.node, sent := me.sent + o.reply))
            && NotBelow(me.node.lastApplied, o.node.lastApplied)
  {
  }

  /** The member that takes step `s`, before and after. */
  ghost predicate ActorMoves(me: Member, me': Member, s: Step) {
    if s.ApplyCommits?
    then SendCommitsDefined(me.node)
      && me' == me.(node := SendCommits(me.node).node, sent := me.sent + SendCommits(me.node).reply)
    else CommitMoves(me.node, me'.node) && me'.sent == me.sent
  }

  /** Only the actor's member changes in a step. */
  ghost predicate Alone(c: Cluster, c': Cluster, i: Id) {
    && i in c.members && c'.members.Keys == c.members.Keys
    && forall j :: j in c.members && j != i ==> c'.members[j] == c.members[j]
  }

  lemma AppendRequestMoves(c: Cluster, i: Id, req: AppendEntries)
    requires i in c.members
    ensures var c' := AfterAppendRequest(c, i, req);
            && Alone(c, c', i) && CommitMoves(c.members[i].node, c'.members[i].node)
            && c'.members[i].sent == c.members[i].sent
  {
    hide CommitMoves;
    AppendMoves(c.members[i].node, req);
    hide OnAppendEntries;
  }

  lemma AppendReplyMoves(c: Cluster, i: Id, from: Id, req: AppendEntries, reply: AppendEntriesReply)
    requires i in c.members && AeResultDefined(c.members[i].node, InsertAt(req), reply)
    ensures var c' := AfterAppendReply(c, i, from, req, reply);
            && Alone(c, c', i) && CommitMoves(c.members[i].node, c'.members[i].node)
            && c'.members[i].sent == c.members[i].sent
  {
    hide CommitMoves;
    AeResultMoves(c.members[i].node, from, InsertAt(req), reply);
    hide OnAeResult;
  }

  lemma VotingMoves(n: Node, vote: RequestVote)
    ensures CommitMoves(n, OnRequestVote(n, vote).node)
  {
    hide UpToDate, LastLog;
  }

  lemma VoteRequestMoves(c: Cluster, i: Id, vote: RequestVote)
    requires i in c.members
    ensures var c' := AfterVoteRequest(c, i, vote);
            && Alone(c, c', i) && CommitMoves(c.members[i].node, c'.members[i].node)
            && c'.members[i].sent == c.members[i].sent
  {
    hide CommitMoves;
    VotingMoves(c.members[i].node, vote);
    hide OnRequestVote;
  }

  lemma VoteReplyMoves(c: Cluster, i: Id, from: Id, callTerm: nat, granted: RequestVoteReply)
    requires i in c.members
    ensures var c' := AfterVoteReply(c, i, from, callTerm, granted);
            && Alone(c, c', i) && CommitMoves(c.members[i].node, c'.members[i].node)
            && c'.members[i].sent == c.members[i].sent
  {
  }

  ghost predicate Unsent(c: Cluster, c': Cluster, i: Id) {
    Alone(c, c', i) && CommitMoves(c.members[i].node, c'.members[i].node) && c'.members[i].sent == c.members[i].sent
  }

  lemma TimeoutMoves(c: Cluster, i: Id)
    requires i in c.members
    ensures Unsent(c, AfterTimeout(c, i), i)
  {
    hide LastLog;
  }

  lemma SubmitMoves(c: Cluster, i: Id, cmd: Command)
    requires i in c.members
    ensures Unsent(c, AfterSubmit(c, i, cmd), i)
  {
  }

  lemma HeartbeatMoves(c: Cluster, i: Id)
    requires i in c.members
    ensures Unsent(c, AfterHeartbeat(c, i), i)
  {
    hide Request, NextFor;
  }

  lemma CrashMoves(c: Cluster, i: Id)
    requires i in c.members
    ensures Unsent(c, AfterCrash(c, i), i)
  {
  }

  lemma LocalMoves(c: Cluster, s: Step)
    requires Enabled(c, s) && (s.Timeout? || s.ClientSubmit? || s.Heartbeat? || s.Crash?)
    ensures var c' := Next(c, s);
            && Alone(c, c', s.i) && CommitMoves(c.members[s.i].node, c'.members[s.i].node)
            && c'.members[s.i].sent == c.members[s.i].sent
  {
    hide CommitMoves, Alone;
    match s {
      case Timeout(i) => TimeoutMoves(c, i);
      case ClientSubmit(i, cmd) => SubmitMoves(c, i, cmd);
      case Heartbeat(i) => HeartbeatMoves(c, i);
      case Crash(i) => CrashMoves(c, i);
    }
  }

  lemma ActorKeepsCommit(me: Member, me': Member, s: Step)
    requires ActorMoves(me, me', s)
    ensures NotBelow(me.node.commitIndex, me'.node.commitIndex)
  {
  }

  lemma StepMoves(c: Cluster, s: Step)
    requires Enabled(c, s) && !s.Restart?
    ensures Alone(c, Next(c, s), Actor(s)) && ActorMoves(c.members[Actor(s)], Next(c, s).members[Actor(s)], s)
  {
    hide CommitMoves, Alone, AfterVoteRequest, AfterVoteReply, AfterAppendRequest, AfterAppendReply;
    hide AfterTimeout, AfterSubmit, AfterHeartbeat, AfterCrash;
    match s {
      case ApplyCommits(i) => ApplyMoves(c, i);
      case Deliver(VoteRequest(to, vote)) => VoteRequestMoves(c, to, vote);
      case Deliver(VoteReply(cand, from, callTerm, granted)) => VoteReplyMoves(c, cand, from, callTerm, granted);
      case Deliver(AppendRequest(to, req)) => AppendRequestMoves(c, to, req);
      case Deliver(AppendReply(lead, from, req, reply)) => AppendReplyMoves(c, lead, from, req, reply);
      case _ => LocalMoves(c, s);
    }
  }

  lemma ApplyMoves(c: Cluster, i: Id)
    requires i in c.members && SendCommitsDefined(c.members[i].node)
    ensures Alone(c, AfterApply(c, i), i) && ActorMoves(c.members[i], AfterApply(c, i).members[i], ApplyCommits(i))
  {
  }

  // ---------------------------------------------------------------- whole runs

  /** A restart-free run in which no node's log is ever cut at or below its commit index. */
  ghost predicate UncutRun(r: Run) {
    && r.Valid() && r.RestartFree()
    && forall k, a :: 0 <= k < |r.steps| && a in r.states[k].members && a in r.states[k + 1].members ==>
         Uncut(r.states[k].members[a].node, r.states[k + 1].members[a].node)
  }

  ghost predicate IndicesAdvance(n: Node, n': Node) {
    NotBelow(n.commitIndex, n'.commitIndex) && NotBelow(n.lastApplied, n'.lastApplied)
  }

  lemma MemberAdvances(me: Member, me': Member, s: Step)
    requires Pipelined(me) && ActorMoves(me, me', s) && Uncut(me.node, me'.node)
    ensures Pipelined(me') && IndicesAdvance(me.node, me'.node)
  {
    if s.ApplyCommits? { EmitPipelined(me); } else { MovesPipelined(me, me'); }
    hide Pipelined, Uncut;
  }

  lemma UncutStep(r: Run, k: nat, a: Id)
    requires UncutRun(r) && k < |r.steps|
    ensures |r.states| == |r.steps| + 1 && !r.steps[k].Restart?
    ensures Enabled(r.states[k], r.steps[k]) && r.states[k + 1] == Next(r.states[k], r.steps[k])
    ensures a in r.states[k].members && a in r.states[k + 1].members ==>
      Uncut(r.states[k].members[a].node, r.states[k + 1].members[a].node)
  {
    hide Init, Enabled, Next, Uncut;
  }

  lemma StepAdvances(c: Cluster, s: Step, c': Cluster, a: Id)
    requires Enabled(c, s) && !s.Restart? && c' == Next(c, s) && a in c'.members
    requires a in c.members ==> Pipelined(c.members[a]) && Uncut(c.members[a].node, c'.members[a].node)
    ensures a in c.members && Pipelined(c'.members[a]) && IndicesAdvance(c.members[a].node, c'.members[a].node)
  {
    hide Enabled, Next, Pipelined, Uncut, ActorMoves, IndicesAdvance;
    StepMoves(c, s);
    if a == Actor(s) {
      MemberAdvances(c.members[a], c'.members[a], s);
    } else {
      NothingMoves(c.members[a].node);
    }
  }

  lemma NothingMoves(n: Node)
    ensures IndicesAdvance(n, n)
  {
  }

  lemma StartsPipelined(r: Run, a: Id)
    requires UncutRun(r)
    ensures |r.states| == |r.steps| + 1 && (a in r.states[0].members ==> Pipelined(r.states[0].members[a]))
  {
    hide Enabled, Next, Uncut;
  }

  /**
   At every moment of an uncut run every node has emitted exactly its log up to `lastApplied`, in order
   and once each, however its commit messages repeat or batch; neither index ever moves back.
   */
  lemma {:induction false} EmittedIsLog(r: Run, k: nat, a: Id)
    requires UncutRun(r) && k < |r.states| && a in r.states[k].members
    ensures Pipelined(r.states[k].members[a])
    ensures k > 0 ==>
      a in r.states[k - 1].members && IndicesAdvance(r.states[k - 1].members[a].node, r.states[k].members[a].node)
  {
    hide UncutRun, Pipelined, IndicesAdvance, Enabled, Next, Uncut;
    StartsPipelined(r, a);
    if k > 0 {
      var c, s := r.states[k - 1], r.steps[k - 1];
      UncutStep(r, k - 1, a);
      if a in c.members { EmittedIsLog(r, k - 1, a); }
      StepAdvances(c, s, r.states[k], a);
    }
  }
}
