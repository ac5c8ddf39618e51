/**
 The cluster as a state machine: the nodes, every message ever sent, and a record
 of what happened that the proofs refer to. A message stays available after it is
 delivered, so delivery may be late, repeated, out of order, or never happen.
 */
module Cluster {
  import opened Messages
  import opened Metadata
  import opened Replica

  type Log = seq<LogEntry>

  /**
   A node with what surrounds it: its metadata file, the vote calls still waiting for
   their one reply, the voters counted in the current candidacy, and the entries sent
   on its commit channel.
   */
  datatype Member = Member(
    node: Node,
    meta: MetaState,
    calls: set<(Id, nat)>,
    tally: set<Id>,
    sent: seq<CommitEntry>)

  datatype Message =
    | VoteRequest(to: Id, vote: RequestVote)
    | VoteReply(cand: Id, from: Id, callTerm: nat, granted: RequestVoteReply)
    | AppendRequest(to: Id, req: AppendEntries)
    | AppendReply(leader: Id, from: Id, req: AppendEntries, reply: AppendEntriesReply)

  /** A vote as it was cast: for whom, and the voter's log at that moment. */
  datatype Grant = Grant(cand: Id, log: Log)

  /** A won election: the leader, the voters it counted, and the leader's log, which grows with each submit. */
  datatype Reign = Reign(leader: Id, voters: set<Id>, log: Log)

  /**
   `grants`, `reigns` and `acks` are history: no step reads them. `acks` holds, for a node and a
   term, how long a prefix of that term's leader log the node has accepted while in that term.
   */
  datatype Cluster = Cluster(
    members: map<Id, Member>,
    net: set<Message>,
    grants: map<(Id, nat), Grant>,
    reigns: map<nat, Reign>,
    acks: map<(Id, nat), nat>)

  datatype Step =
    | Timeout(i: Id)
    | ClientSubmit(i: Id, cmd: Command)
    | Heartbeat(i: Id)
    | ApplyCommits(i: Id)
    | Deliver(m: Message)
    | Crash(i: Id)
    | Restart(i: Id, restored: Option<Log>)

  /** The member that takes the step. */
  function Actor(s: Step): Id {
    match s
    case Deliver(VoteRequest(to, _)) => to
    case Deliver(VoteReply(cand, _, _, _)) => cand
    case Deliver(AppendRequest(to, _)) => to
    case Deliver(AppendReply(leader, _, _, _)) => leader
    case _ => s.i
  }

  ghost predicate Enabled(c: Cluster, s: Step) {
    && Actor(s) in c.members
    && var me := c.members[Actor(s)];
    && (s.Restart? || me.node.role != Dead)
    && match s
       case Timeout(_) => me.node.role == Follower || me.node.role == Candidate
       case ClientSubmit(_, _) => true
       case Heartbeat(_) => true
       case ApplyCommits(_) => SendCommitsDefined(me.node)
       case Crash(_) => true
       case Restart(_, _) => true
       case Deliver(m) =>
         && m in c.net
         && match m
            case VoteReply(_, from, callTerm, _) => (from, callTerm) in me.calls
            case AppendReply(_, _, req, reply) => AeResultDefined(me.node, InsertAt(req), reply)
            case _ => true
  }

  /** A member after a handler: the new node, with what the handler stored. */
  function Handled<R>(me: Member, o: Outcome<R>): Member {
    me.(node := o.node, meta := SavedAll(me.meta, o.saves))
  }

  function Put(c: Cluster, i: Id, me: Member): Cluster {
    c.(members := c.members[i := me])
  }

  function AckOf(c: Cluster, v: Id, t: nat): nat {
    if (v, t) in c.acks then c.acks[(v, t)] else 0
  }

  function Max(a: nat, b: nat): nat {
    if a < b then b else a
  }

  // Each of the following gives the cluster after one kind of step.

  ghost function AfterTimeout(c: Cluster, i: Id): Cluster
    requires i in c.members
  {
    var me := c.members[i];
    var o := StartElection(me.node);
    var me' := Handled(me, o).(calls := me.calls + set p | p in me.node.peers :: (p, o.node.term), tally := {i});
    Put(c, i, me').(
    net := c.net + set p | p in me.node.peers :: VoteRequest(p, o.reply),
    grants := c.grants[(i, o.node.term) := Grant(i, me.node.logs)])
  }

  ghost function AfterVoteRequest(c: Cluster, i: Id, vote: RequestVote): Cluster
    requires i in c.members
  {
    var me := c.members[i];
    var o := OnRequestVote(me.node, vote);
    var c' := Put(c, i, Handled(me, o));
    if o.reply.None? then c' else
    var c'' := c'.(net := c.net + {VoteReply(vote.candidateId, i, vote.term, o.reply.value)});
    if o.reply.value.voted && (i, vote.term) !in c.grants
    then c''.(grants := c.grants[(i, vote.term) := Grant(vote.candidateId, me.node.logs)])
    else c''
  }

  ghost function AfterVoteReply(c: Cluster, i: Id, from: Id, callTerm: nat, granted: RequestVoteReply): Cluster
    requires i in c.members
  {
    var me := c.members[i];
    var o := OnVoteResult(me.node, granted.term, granted.voted);
    var counted := me.node.role == Candidate && granted.term == me.node.term && granted.voted;
    var me' := Handled(me, o).(calls := me.calls - {(from, callTerm)},
                               tally := if counted then me.tally + {from} else me.tally);
    var c' := Put(c, i, me');
    if counted && me'.node.role == Leader
    then c'.(reigns := c.reigns[me'.node.term := Reign(i, me'.tally, me'.node.logs)],
             acks := c.acks[(i, me'.node.term) := |me'.node.logs|])
    else c'
  }

  ghost function AfterSubmit(c: Cluster, i: Id, cmd: Command): Cluster
    requires i in c.members
  {
    var me := c.members[i];
    var me' := Handled(me, Submit(me.node, cmd));
    var c' := Put(c, i, me');
    var t := me.node.term;
    if me.node.role == Leader && t in c.reigns
    then c'.(reigns := c.reigns[t := c.reigns[t].(log := me'.node.logs)],
             acks := c.acks[(i, t) := |me'.node.logs|])
    else c'
  }

  ghost function AfterHeartbeat(c: Cluster, i: Id): Cluster
    requires i in c.members
  {
    var me := c.members[i];
    var n := me.node;
    if n.role == Leader
    then Put(c, i, me.(node := SendAes(n))).(
         net := c.net + set p | p in n.peers :: AppendRequest(p, Request(n, NextFor(n, p))))
    else c
  }

  ghost function AfterAppendRequest(c: Cluster, i: Id, req: AppendEntries): Cluster
    requires i in c.members
  {
    var me := c.members[i];
    var o := OnAppendEntries(me.node, req);
    var c' := Put(c, i, Handled(me, o));
    if o.reply.None? then c' else
    var c'' := c'.(net := c.net + {AppendReply(req.leader, i, req, o.reply.value)});
    if o.reply.value.success
    then c''.(acks := c.acks[(i, req.term) := Max(AckOf(c, i, req.term), SentLength(req))])
    else c''
  }

  ghost function AfterAppendReply(c: Cluster, i: Id, from: Id, req: AppendEntries, reply: AppendEntriesReply): Cluster
    requires i in c.members && AeResultDefined(c.members[i].node, InsertAt(req), reply)
  {
    var me := c.members[i];
    Put(c, i, Handled(me, OnAeResult(me.node, from, InsertAt(req), reply)))
  }

  ghost function AfterApply(c: Cluster, i: Id): Cluster
    requires i in c.members && SendCommitsDefined(c.members[i].node)
  {
    var me := c.members[i];
    var o := SendCommits(me.node);
    Put(c, i, Handled(me, o).(sent := me.sent + o.reply))
  }

  /** A stopped or panicked actor handles nothing more. */
  ghost function AfterCrash(c: Cluster, i: Id): Cluster
    requires i in c.members
  {
    Put(c, i, c.members[i].(node := c.members[i].node.(role := Dead)))
  }

  /**
   A new process. `restored` is what the log file decodes to, and may be anything; term, vote and last-applied
   then come from the metadata file. If either file is refused the whole restore fails, `restored` is None, and
   the process starts from nothing, whatever had been stored.
   */
  ghost function AfterRestart(c: Cluster, i: Id, restored: Option<Log>): Cluster
    requires i in c.members
  {
    var me := c.members[i];
    var st := if restored.Some? then me.meta.Restored() else NOTHING_STORED;
    var n := Node(i, me.node.peers, st.term, st.votedFor, 0, restored.GetOr([]), None, st.lastApplied,
                  Follower, map[], map[]);
    Put(c, i, Member(n, MetaState(me.meta.disk, None), {}, {}, []))
  }

  /** The restart loses nothing: the restore succeeds, or no term or vote was ever stored. */
  predicate Remembers(me: Member, restored: Option<Log>) {
    restored.Some? || SameVote(me.meta.Restored(), NOTHING_STORED)
  }

  ghost function Next(c: Cluster, s: Step): Cluster
    requires Enabled(c, s)
  {
    match s
    case Timeout(i) => AfterTimeout(c, i)
    case ClientSubmit(i, cmd) => AfterSubmit(c, i, cmd)
    case Heartbeat(i) => AfterHeartbeat(c, i)
    case ApplyCommits(i) => AfterApply(c, i)
    case Crash(i) => AfterCrash(c, i)
    case Restart(i, restored) => AfterRestart(c, i, restored)
    case Deliver(VoteRequest(to, vote)) => AfterVoteRequest(c, to, vote)
    case Deliver(VoteReply(cand, from, callTerm, granted)) => AfterVoteReply(c, cand, from, callTerm, granted)
    case Deliver(AppendRequest(to, req)) => AfterAppendRequest(c, to, req)
    case Deliver(AppendReply(leader, from, req, reply)) => AfterAppendReply(c, leader, from, req, reply)
  }

  /** Every node fresh, with an empty metadata file; each node's peers are the others, once each. */
  ghost predicate Init(c: Cluster) {
    && c.net == {} && c.grants == map[] && c.reigns == map[] && c.acks == map[]
    && forall i :: i in c.members ==>
         && ProperPeers(c, i)
         && c.members[i] == Member(Node(i, c.members[i].node.peers, 0, None, 0, [], None, None, Follower, map[], map[]),
                                   MetaState(None, None), {}, {}, [])
  }

  ghost predicate ProperPeers(c: Cluster, i: Id)
    requires i in c.members
  {
    var peers := c.members[i].node.peers;
    && (forall j, k :: 0 <= j < k < |peers| ==> peers[j] != peers[k])
    && (forall p :: p in peers <==> p in c.members && p != i)
  }

  /** A run: the states it passes through and the steps between them. */
  datatype Run = Run(states: seq<Cluster>, steps: seq<Step>) {

    ghost predicate Valid() {
      && |states| == |steps| + 1
      && Init(states[0])
      && forall k :: 0 <= k < |steps| ==> Enabled(states[k], steps[k]) && states[k + 1] == Next(states[k], steps[k])
    }

    predicate RestartFree() {
      forall k :: 0 <= k < |steps| ==> !steps[k].Restart?
    }

    /** No restart loses a stored term or vote. */
    ghost predicate Remembering()
      requires Valid()
    {
      forall k :: 0 <= k < |steps| && steps[k].Restart? ==> Remembers(states[k].members[steps[k].i], steps[k].restored)
    }
  }
}
