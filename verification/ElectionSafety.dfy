/**
 Election safety (section 5.2 of the Raft paper): no run, with any delays, losses,
 repetitions, crashes and restarts that can read what was stored, has two leaders in one term.
 */
module ElectionSafety {
  import opened Messages
  import opened Metadata
  import opened Replica
  import opened Cluster
  import opened Quorums

  /** A member is well formed, and its metadata file would restore exactly its term and vote. */
  ghost predicate MemberOk(c: Cluster, i: Id)
    requires i in c.members
  {
    var me := c.members[i];
    && ProperPeers(c, i)
    && me.node.id == i
    && me.meta.Faithful()
    && SameVote(me.meta.Restored(), me.node.Persistent())
    && (forall p, t :: (p, t) in me.calls ==> p in me.node.peers && t <= me.node.term)
  }

  /** A vote is recorded once per voter and term, and the voter still stands by it while in that term. */
  ghost predicate GrantOk(c: Cluster, v: Id, t: nat)
    requires (v, t) in c.grants
  {
    && v in c.members
    && c.grants[(v, t)].cand in c.members
    && t <= c.members[v].node.term
    && (t == c.members[v].node.term ==> c.members[v].node.votedFor == Some(c.grants[(v, t)].cand))
  }

  ghost predicate VotedFor(c: Cluster, v: Id, t: nat, cand: Id) {
    (v, t) in c.grants && c.grants[(v, t)].cand == cand
  }

  ghost predicate VoteOk(c: Cluster, v: Id)
    requires v in c.members
  {
    var n := c.members[v].node;
    n.votedFor.Some? ==> VotedFor(c, v, n.term, n.votedFor.value)
  }

  ghost predicate ElectionMessageOk(c: Cluster, m: Message) {
    match m
    case VoteRequest(to, vote) =>
      vote.candidateId in c.members && VotedFor(c, vote.candidateId, vote.term, vote.candidateId)
    case VoteReply(cand, from, callTerm, granted) =>
      granted.voted ==> granted.term == callTerm && VotedFor(c, from, callTerm, cand)
    case _ => true
  }

  /** The counted votes of a candidate are votes for it, each from a call that is no longer open. */
  ghost predicate TallyOk(c: Cluster, i: Id)
    requires i in c.members
  {
    var me := c.members[i];
    me.node.role == Candidate ==>
      && me.node.voteCount == |me.tally|
      && i in me.tally
      && (forall p :: p in me.tally ==> VotedFor(c, p, me.node.term, i))
      && (forall p :: p in me.tally && p != i ==> (p, me.node.term) !in me.calls)
  }

  ghost predicate ReignOk(c: Cluster, t: nat)
    requires t in c.reigns
  {
    var r := c.reigns[t];
    && r.leader in c.members
    && r.voters <= c.members.Keys
    && |r.voters| * 2 > |c.members|
    && (forall v :: v in r.voters ==> VotedFor(c, v, t, r.leader))
    && t <= c.members[r.leader].node.term
    && (t == c.members[r.leader].node.term ==> c.members[r.leader].node.role != Candidate)
  }

  ghost predicate LeaderOk(c: Cluster, i: Id)
    requires i in c.members
  {
    var n := c.members[i].node;
    n.role == Leader ==> n.term in c.reigns && c.reigns[n.term].leader == i
  }

  ghost predicate Sound(c: Cluster) {
    && (forall i :: i in c.members ==> MemberOk(c, i))
    && (forall i :: i in c.members ==> VoteOk(c, i))
    && (forall i :: i in c.members ==> TallyOk(c, i))
    && (forall i :: i in c.members ==> LeaderOk(c, i))
    && (forall v, t :: (v, t) in c.grants ==> GrantOk(c, v, t))
    && (forall m :: m in c.net ==> ElectionMessageOk(c, m))
    && (forall t :: t in c.reigns ==> ReignOk(c, t))
  }

  // ---------------------------------------------------------------- single steps

  lemma PeersCount(c: Cluster, i: Id)
    requires i in c.members && ProperPeers(c, i)
    ensures |c.members| == |c.members[i].node.peers| + 1
  {
    var peers := c.members[i].node.peers;
    DistinctCount(peers);
    assert c.members.Keys == Elements(peers) + {i};
    assert |c.members| == |c.members.Keys|;
  }

  /** Grants only accumulate, so a vote once recorded stays recorded. */
  ghost predicate Extends(c: Cluster, c': Cluster) {
    && c.members.Keys == c'.members.Keys
    && (forall k :: k in c.grants ==> k in c'.grants && c'.grants[k] == c.grants[k])
  }

  lemma Facts(c: Cluster, i: Id)
    requires Sound(c) && i in c.members
    ensures MemberOk(c, i) && VoteOk(c, i) && TallyOk(c, i) && LeaderOk(c, i)
    ensures |c.members| == |c.members.Keys|
  {
  }

  lemma MessageFacts(c: Cluster, m: Message)
    requires Sound(c) && m in c.net
    ensures ElectionMessageOk(c, m)
  {
  }

  lemma VoterFacts(c: Cluster, v: Id, t: nat)
    requires Sound(c)
    ensures (v, t) in c.grants ==> GrantOk(c, v, t)
  {
  }

  lemma ReignFacts(c: Cluster, t: nat)
    requires Sound(c)
    ensures t in c.reigns ==> ReignOk(c, t)
  {
  }

  /** What every step does to the voting record: `i` moves forward, stands by its vote, and only `i` changes. */
  ghost predicate Moves(c: Cluster, c': Cluster, i: Id) {
    && i in c.members && Extends(c, c')
    && (forall j :: j in c.members && j != i ==> c'.members[j] == c.members[j])
    && var n, n' := c.members[i].node, c'.members[i].node;
    && n'.id == n.id && n'.peers == n.peers
    && n'.term >= n.term
    && (n'.term == n.term && n.votedFor.Some? ==> n'.votedFor == n.votedFor)
    && (n'.term == n.term && n'.role == Candidate ==> n.role == Candidate)
  }

  lemma GrantsCarry(c: Cluster, c': Cluster, i: Id)
    requires Moves(c, c', i)
    requires forall v, t :: (v, t) in c.grants ==> GrantOk(c, v, t)
    requires forall v, t :: (v, t) in c'.grants && (v, t) !in c.grants ==> GrantOk(c', v, t)
    ensures forall v, t :: (v, t) in c'.grants ==> GrantOk(c', v, t)
  {
    forall v, t | (v, t) in c'.grants ensures GrantOk(c', v, t) {
      if (v, t) in c.grants { assert GrantOk(c, v, t); }
    }
  }

  lemma MemberCarries(c: Cluster, c': Cluster, i: Id, j: Id)
    requires Moves(c, c', i) && j in c'.members && (j in c.members ==> MemberOk(c, j) && VoteOk(c, j))
    requires c'.members[i].meta.Faithful() && SameVote(c'.members[i].meta.Restored(), c'.members[i].node.Persistent())
    requires forall p, t :: (p, t) in c'.members[i].calls ==>
      p in c.members[i].node.peers && t <= c'.members[i].node.term
    requires VoteOk(c', i)
    ensures MemberOk(c', j) && VoteOk(c', j)
  {
  }

  lemma MembersCarry(c: Cluster, c': Cluster, i: Id)
    requires Moves(c, c', i)
    requires forall j :: j in c.members ==> MemberOk(c, j) && VoteOk(c, j)
    requires c'.members[i].meta.Faithful() && SameVote(c'.members[i].meta.Restored(), c'.members[i].node.Persistent())
    requires forall p, t :: (p, t) in c'.members[i].calls ==>
      p in c.members[i].node.peers && t <= c'.members[i].node.term
    requires VoteOk(c', i)
    ensures forall j :: j in c'.members ==> MemberOk(c', j) && VoteOk(c', j)
  {
    hide VoteOk, MemberOk, Moves;
    forall j | j in c'.members ensures MemberOk(c', j) && VoteOk(c', j) {
      MemberCarries(c, c', i, j);
    }
  }

  lemma RolesCarry(c: Cluster, c': Cluster, i: Id)
    requires Moves(c, c', i)
    requires forall j :: j in c.members ==> TallyOk(c, j) && LeaderOk(c, j)
    requires forall t :: t in c.reigns ==> t in c'.reigns && c'.reigns[t].leader == c.reigns[t].leader
    requires TallyOk(c', i) && LeaderOk(c', i)
    ensures forall j :: j in c'.members ==> TallyOk(c', j) && LeaderOk(c', j)
  {
    forall j | j in c'.members ensures TallyOk(c', j) && LeaderOk(c', j) {
      assert TallyOk(c, j) && LeaderOk(c, j);
    }
  }

  lemma ReignsCarry(c: Cluster, c': Cluster, i: Id)
    requires Moves(c, c', i)
    requires forall t :: t in c.reigns ==> ReignOk(c, t)
    requires forall t :: t in c.reigns ==>
      t in c'.reigns && c'.reigns[t].leader == c.reigns[t].leader && c'.reigns[t].voters == c.reigns[t].voters
    requires forall t :: t in c'.reigns && t !in c.reigns ==> ReignOk(c', t)
    ensures forall t :: t in c'.reigns ==> ReignOk(c', t)
  {
    assert |c.members| == |c.members.Keys| == |c'.members|;
    forall t | t in c'.reigns ensures ReignOk(c', t) {
      if t in c.reigns { assert ReignOk(c, t); }
    }
  }

  lemma MessagesCarry(c: Cluster, c': Cluster)
    requires Extends(c, c')
    requires forall m :: m in c.net ==> ElectionMessageOk(c, m)
    requires forall m :: m in c'.net && m !in c.net ==> ElectionMessageOk(c', m)
    ensures forall m :: m in c'.net ==> ElectionMessageOk(c', m)
  {
    forall m | m in c'.net ensures ElectionMessageOk(c', m) {
      if m in c.net { assert ElectionMessageOk(c, m); }
    }
  }

  /** The actor of a step, afterwards: its file agrees with it, its calls are to peers, and its role is earned. */
  ghost predicate ActorOk(c': Cluster, i: Id) {
    && i in c'.members
    && c'.members[i].meta.Faithful() && SameVote(c'.members[i].meta.Restored(), c'.members[i].node.Persistent())
    && (forall p, t :: (p, t) in c'.members[i].calls ==> p in c'.members[i].node.peers && t <= c'.members[i].node.term)
    && VoteOk(c', i) && TallyOk(c', i) && LeaderOk(c', i)
  }

  ghost predicate NewGrantsOk(c: Cluster, c': Cluster) {
    forall v, t :: (v, t) in c'.grants && (v, t) !in c.grants ==> GrantOk(c', v, t)
  }

  ghost predicate NewReignsOk(c: Cluster, c': Cluster) {
    && (forall t :: t in c.reigns ==>
          t in c'.reigns && c'.reigns[t].leader == c.reigns[t].leader && c'.reigns[t].voters == c.reigns[t].voters)
    && (forall t :: t in c'.reigns && t !in c.reigns ==> ReignOk(c', t))
  }

  ghost predicate NewMessagesOk(c: Cluster, c': Cluster) {
    forall m :: m in c'.net && m !in c.net ==> ElectionMessageOk(c', m)
  }

  /** A step is sound if it moves forward and what is new about it is in order. */
  lemma Carry(c: Cluster, c': Cluster, i: Id)
    requires Sound(c) && Moves(c, c', i) && ActorOk(c', i)
    requires NewGrantsOk(c, c') && NewReignsOk(c, c') && NewMessagesOk(c, c')
    ensures Sound(c')
  {
    hide ProperPeers, Extends, GrantOk, ReignOk, TallyOk, VoteOk, LeaderOk;
    GrantsCarry(c, c', i);
    MembersCarry(c, c', i);
    RolesCarry(c, c', i);
    ReignsCarry(c, c', i);
    MessagesCarry(c, c');
  }

  lemma TimeoutMoves(c: Cluster, i: Id)
    requires i in c.members && MemberOk(c, i) && (i, c.members[i].node.term + 1) !in c.grants
    ensures var c' := AfterTimeout(c, i);
            && Moves(c, c', i) && ActorOk(c', i)
            && NewGrantsOk(c, c') && NewReignsOk(c, c') && NewMessagesOk(c, c')
  {
    hide ProperPeers, LastLog;
    var c' := AfterTimeout(c, i);
    assert VotedFor(c', i, c.members[i].node.term + 1, i);
    CandidateOk(c, i);
    hide ActorOk, StartElection, SavedAll;
    CandidateNode(c.members[i].node);
  }

  lemma CandidateNode(n: Node)
    ensures var o := StartElection(n);
            && o.node.id == n.id && o.node.peers == n.peers && o.node.term == n.term + 1 && o.node.role == Candidate
            && o.node.votedFor == Some(n.id) && o.reply.term == n.term + 1 && o.reply.candidateId == n.id
  {
  }

  lemma CandidateOk(c: Cluster, i: Id)
    requires i in c.members && MemberOk(c, i)
    ensures ActorOk(AfterTimeout(c, i), i)
  {
    hide LastLog;
    var c' := AfterTimeout(c, i);
    StoresNeverLoseTheVote(c.members[i].meta, StartElection(c.members[i].node).saves);
    assert VotedFor(c', i, c.members[i].node.term + 1, i);
    assert |{i}| == 1;
  }

  lemma TimeoutSound(c: Cluster, i: Id)
    requires Sound(c) && Enabled(c, Timeout(i))
    ensures Sound(AfterTimeout(c, i)) && Moves(c, AfterTimeout(c, i), i)
  {
    assert MemberOk(c, i);
    var t := c.members[i].node.term + 1;
    assert (i, t) in c.grants ==> GrantOk(c, i, t);
    TimeoutMoves(c, i);
    hide Sound, Moves, ActorOk, NewGrantsOk, NewReignsOk, NewMessagesOk, Extends;
    Carry(c, AfterTimeout(c, i), i);
  }

  lemma QuietRefusal(me: Member, vote: RequestVote)
    requires me.meta.Faithful() && SameVote(me.meta.Restored(), me.node.Persistent())
    requires OnRequestVote(me.node, vote).reply != Some(RequestVoteReply(vote.term, true))
    ensures Quiet(me, Handled(me, OnRequestVote(me.node, vote)))
    ensures OnRequestVote(me.node, vote).reply.Some? ==> !OnRequestVote(me.node, vote).reply.value.voted
  {
    hide UpToDate, LastLog;
    StoresNeverLoseTheVote(me.meta, OnRequestVote(me.node, vote).saves);
  }

  lemma RefusedCluster(c: Cluster, i: Id, vote: RequestVote)
    requires i in c.members
    requires OnRequestVote(c.members[i].node, vote).reply.Some? ==>
      !OnRequestVote(c.members[i].node, vote).reply.value.voted
    ensures var c' := AfterVoteRequest(c, i, vote);
            && c'.members == c.members[i := Handled(c.members[i], OnRequestVote(c.members[i].node, vote))]
            && c'.grants == c.grants && c'.reigns == c.reigns
            && forall m :: m in c'.net && m !in c.net ==> m.VoteReply? && !m.granted.voted
  {
    hide OnRequestVote;
  }

  lemma RefusalSound(c: Cluster, i: Id, vote: RequestVote)
    requires Sound(c) && i in c.members
    requires OnRequestVote(c.members[i].node, vote).reply != Some(RequestVoteReply(vote.term, true))
    ensures Sound(AfterVoteRequest(c, i, vote)) && Moves(c, AfterVoteRequest(c, i, vote), i)
  {
    hide Sound, Quiet, VoteOk, TallyOk, LeaderOk, Moves;
    Facts(c, i);
    QuietRefusal(c.members[i], vote);
    RefusedCluster(c, i, vote);
    hide AfterVoteRequest, OnRequestVote;
    QuietSound(c, AfterVoteRequest(c, i, vote), i);
  }

  /** A granted vote is new, or repeats the one this node already stands by. */
  lemma GrantMoves(c: Cluster, i: Id, vote: RequestVote)
    requires i in c.members && VoteOk(c, i)
    requires vote.candidateId in c.members
    requires OnRequestVote(c.members[i].node, vote).reply == Some(RequestVoteReply(vote.term, true))
    requires (i, vote.term) in c.grants ==> GrantOk(c, i, vote.term)
    ensures var c' := AfterVoteRequest(c, i, vote);
            && Moves(c, c', i) && VotedFor(c', i, vote.term, vote.candidateId)
            && NewGrantsOk(c, c') && NewReignsOk(c, c') && NewMessagesOk(c, c')
  {
    var c' := AfterVoteRequest(c, i, vote);
    GrantingNode(c.members[i].node, vote);
    hide OnRequestVote;
    GrantedCluster(c, i, vote);
    hide AfterVoteRequest;
    VoteRecorded(c, c', i, vote);
    RecordedOk(c, c', i, vote);
    hide VotedFor, VoteOk, GrantOk, NewGrantsOk, NewMessagesOk;
  }

  lemma RecordedOk(c: Cluster, c': Cluster, i: Id, vote: RequestVote)
    requires VotedFor(c', i, vote.term, vote.candidateId) && i in c'.members && vote.candidateId in c'.members
    requires c'.members[i].node.term == vote.term && c'.members[i].node.votedFor == Some(vote.candidateId)
    requires c'.net == c.net + {VoteReply(vote.candidateId, i, vote.term, RequestVoteReply(vote.term, true))}
    requires forall k :: k in c'.grants ==> k in c.grants || k == (i, vote.term)
    ensures NewGrantsOk(c, c') && NewMessagesOk(c, c')
  {
  }

  lemma VoteRecorded(c: Cluster, c': Cluster, i: Id, vote: RequestVote)
    requires i in c.members && VoteOk(c, i)
    requires (i, vote.term) in c.grants ==> GrantOk(c, i, vote.term)
    requires c.members[i].node.term <= vote.term
    requires vote.term == c.members[i].node.term && c.members[i].node.votedFor.Some? ==>
      c.members[i].node.votedFor == Some(vote.candidateId)
    requires c'.grants == if (i, vote.term) in c.grants then c.grants
                          else c.grants[(i, vote.term) := Grant(vote.candidateId, c.members[i].node.logs)]
    ensures VotedFor(c', i, vote.term, vote.candidateId)
  {
  }

  lemma GrantedCluster(c: Cluster, i: Id, vote: RequestVote)
    requires i in c.members && OnRequestVote(c.members[i].node, vote).reply == Some(RequestVoteReply(vote.term, true))
    ensures var c' := AfterVoteRequest(c, i, vote);
            && c'.members == c.members[i := Handled(c.members[i], OnRequestVote(c.members[i].node, vote))]
            && c'.net == c.net + {VoteReply(vote.candidateId, i, vote.term, RequestVoteReply(vote.term, true))}
            && c'.reigns == c.reigns && c'.acks == c.acks
            && c'.grants == if (i, vote.term) in c.grants then c.grants
                            else c.grants[(i, vote.term) := Grant(vote.candidateId, c.members[i].node.logs)]
  {
    hide OnRequestVote;
  }

  lemma GrantingNode(n: Node, vote: RequestVote)
    requires OnRequestVote(n, vote).reply == Some(RequestVoteReply(vote.term, true))
    ensures var n' := OnRequestVote(n, vote).node;
            && n'.id == n.id && n'.peers == n.peers && n'.votedFor == Some(vote.candidateId)
            && n.term <= n'.term == vote.term
            && (n'.term == n.term && n.votedFor.Some? ==> n'.votedFor == n.votedFor)
            && (n'.term == n.term ==> n'.role == n.role)
  {
  }

  /** A member that has just granted `vote`. */
  ghost predicate Granted(me: Member, me': Member, vote: RequestVote) {
    && me'.calls == me.calls && me'.tally == me.tally
    && me'.meta.Faithful() && SameVote(me'.meta.Restored(), me'.node.Persistent())
    && me'.node.votedFor == Some(vote.candidateId) && me'.node.term == vote.term
    && (|| me'.node.role == Follower
        || (me'.node.term == me.node.term && me'.node.role == me.node.role && me'.node.voteCount == me.node.voteCount))
  }

  lemma Granting(me: Member, vote: RequestVote)
    requires OnRequestVote(me.node, vote).reply == Some(RequestVoteReply(vote.term, true))
    requires me.meta.Faithful()
    ensures Granted(me, Handled(me, OnRequestVote(me.node, vote)), vote)
  {
    StoresNeverLoseTheVote(me.meta, OnRequestVote(me.node, vote).saves);
  }

  lemma GrantActor(c: Cluster, c': Cluster, i: Id, vote: RequestVote)
    requires Moves(c, c', i) && MemberOk(c, i) && TallyOk(c, i) && LeaderOk(c, i)
    requires Granted(c.members[i], c'.members[i], vote)
    requires c'.reigns == c.reigns
    requires VotedFor(c', i, vote.term, vote.candidateId)
    ensures ActorOk(c', i)
  {
    hide ProperPeers;
  }

  lemma GrantSound(c: Cluster, i: Id, vote: RequestVote)
    requires Sound(c) && Enabled(c, Deliver(VoteRequest(i, vote)))
    requires OnRequestVote(c.members[i].node, vote).reply == Some(RequestVoteReply(vote.term, true))
    ensures Sound(AfterVoteRequest(c, i, vote)) && Moves(c, AfterVoteRequest(c, i, vote), i)
  {
    assert ElectionMessageOk(c, VoteRequest(i, vote));
    assert (i, vote.term) in c.grants ==> GrantOk(c, i, vote.term);
    hide Sound, Moves, ActorOk, NewGrantsOk, NewReignsOk, NewMessagesOk, Extends;
    hide OnRequestVote, Granted, VoteOk, TallyOk, LeaderOk, GrantOk, ElectionMessageOk, ProperPeers;
    Facts(c, i);
    GrantMoves(c, i, vote);
    Granting(c.members[i], vote);
    GrantActor(c, AfterVoteRequest(c, i, vote), i, vote);
    Carry(c, AfterVoteRequest(c, i, vote), i);
  }

  lemma VoteRequestSound(c: Cluster, i: Id, vote: RequestVote)
    requires Sound(c) && Enabled(c, Deliver(VoteRequest(i, vote)))
    ensures Sound(AfterVoteRequest(c, i, vote)) && Moves(c, AfterVoteRequest(c, i, vote), i)
  {
    if OnRequestVote(c.members[i].node, vote).reply == Some(RequestVoteReply(vote.term, true)) {
      GrantSound(c, i, vote);
    } else {
      RefusalSound(c, i, vote);
    }
  }

  /** A member that neither votes nor counts votes in this step; it may step down to a later term. */
  ghost predicate Quiet(me: Member, me': Member) {
    && me'.node.id == me.node.id && me'.node.peers == me.node.peers
    && me'.meta.Faithful() && SameVote(me'.meta.Restored(), me'.node.Persistent())
    && me'.calls <= me.calls
    && (|| (me'.node.term == me.node.term && me'.node.votedFor == me.node.votedFor)
        || (me'.node.term > me.node.term && me'.node.votedFor == None))
    && (me'.node.role == Candidate ==>
          && me.node.role == Candidate && me'.node.term == me.node.term
          && me'.node.voteCount == me.node.voteCount && me'.tally == me.tally)
    && (me'.node.role == Leader ==> me.node.role == Leader && me'.node.term == me.node.term)
  }

  lemma QuietSound(c: Cluster, c': Cluster, i: Id)
    requires Sound(c) && i in c.members && i in c'.members && Quiet(c.members[i], c'.members[i])
    requires c'.members == c.members[i := c'.members[i]] && c'.grants == c.grants
    requires c'.reigns.Keys == c.reigns.Keys
    requires forall t :: t in c.reigns ==>
      c'.reigns[t].leader == c.reigns[t].leader && c'.reigns[t].voters == c.reigns[t].voters
    requires forall m :: m in c'.net && m !in c.net ==>
      m.AppendRequest? || m.AppendReply? || (m.VoteReply? && !m.granted.voted)
    ensures Sound(c') && Moves(c, c', i)
  {
    hide Sound;
    Facts(c, i);
    Carry(c, c', i);
  }

  /** A candidate that reaches a quorum is the first to win its term. */
  lemma FirstToWin(c: Cluster, i: Id, voters: set<Id>)
    requires i in c.members && c.members[i].node.role == Candidate
    requires c.members[i].node.term in c.reigns ==> ReignOk(c, c.members[i].node.term)
    requires voters <= c.members.Keys && |voters| * 2 > |c.members|
    requires forall v :: v in voters ==> VotedFor(c, v, c.members[i].node.term, i)
    ensures c.members[i].node.term !in c.reigns
  {
    var t := c.members[i].node.term;
    if t in c.reigns {
      var v := MajoritiesMeet(c.members.Keys, voters, c.reigns[t].voters);
      assert false;
    }
  }

  ghost predicate Wins(n: Node, granted: RequestVoteReply) {
    n.role == Candidate && granted.term == n.term && granted.voted && n.voteCount + 1 >= n.Quorum()
  }

  /** Counting one more vote: the voter was not counted before, and the vote is for this candidate. */
  lemma CountedVote(c: Cluster, i: Id, from: Id, callTerm: nat, granted: RequestVoteReply)
    requires Sound(c) && Enabled(c, Deliver(VoteReply(i, from, callTerm, granted)))
    requires c.members[i].node.role == Candidate && granted.voted && granted.term == c.members[i].node.term
    ensures callTerm == granted.term
    ensures from !in c.members[i].tally && VotedFor(c, from, callTerm, i)
    ensures c.members[i].tally + {from} <= c.members.Keys
    ensures forall p :: p in c.members[i].tally + {from} ==> VotedFor(c, p, callTerm, i)
    ensures Wins(c.members[i].node, granted) ==>
      |c.members[i].tally + {from}| * 2 > |c.members| && callTerm !in c.reigns
  {
    hide Sound;
    var me := c.members[i];
    Facts(c, i);
    MessageFacts(c, VoteReply(i, from, callTerm, granted));
    assert from in me.node.peers;
    forall p | p in me.tally + {from} ensures p in c.members && VotedFor(c, p, me.node.term, i) {
      assert VotedFor(c, p, me.node.term, i);
      VoterFacts(c, p, me.node.term);
    }
    if Wins(me.node, granted) {
      PeersCount(c, i);
      assert |me.tally + {from}| == |me.tally| + 1;
      ReignFacts(c, me.node.term);
      hide MemberOk, VoteOk, LeaderOk, ReignOk, VotedFor;
      FirstToWin(c, i, me.tally + {from});
    }
  }

  /** One counted vote, in terms of what the election cares about. */
  ghost predicate Counts(c: Cluster, c': Cluster, i: Id, from: Id) {
    && i in c.members && c'.members.Keys == c.members.Keys && c'.grants == c.grants && c'.net == c.net
    && (forall j :: j in c.members && j != i ==> c'.members[j] == c.members[j])
    && var me, me' := c.members[i], c'.members[i];
    && me.node.role == Candidate
    && me'.node.id == me.node.id && me'.node.peers == me.node.peers
    && me'.node.term == me.node.term && me'.node.votedFor == me.node.votedFor
    && me'.node.voteCount == me.node.voteCount + 1
    && me'.tally == me.tally + {from} && me'.meta == me.meta
    && me'.calls == me.calls - {(from, me.node.term)}
    && if me'.node.voteCount >= me.node.Quorum()
       then me'.node.role == Leader && c'.reigns == c.reigns[me.node.term := Reign(i, me'.tally, me'.node.logs)]
       else me'.node.role == Candidate && c'.reigns == c.reigns
  }

  lemma CountingNode(n: Node, granted: RequestVoteReply)
    requires n.role == Candidate && granted.voted && granted.term == n.term
    ensures var o := OnVoteResult(n, granted.term, granted.voted);
            && o.saves == [] && o.node.id == n.id && o.node.peers == n.peers && o.node.term == n.term
            && o.node.votedFor == n.votedFor && o.node.voteCount == n.voteCount + 1 && o.node.logs == n.logs
            && o.node.role == if o.node.voteCount >= n.Quorum() then Leader else Candidate
  {
  }

  lemma CountingVote(c: Cluster, i: Id, from: Id, granted: RequestVoteReply)
    requires i in c.members
    requires c.members[i].node.role == Candidate && granted.voted && granted.term == c.members[i].node.term
    ensures Counts(c, AfterVoteReply(c, i, from, granted.term, granted), i, from)
  {
    CountingNode(c.members[i].node, granted);
    hide OnVoteResult;
  }

  lemma CountMoves(c: Cluster, c': Cluster, i: Id, from: Id)
    requires Counts(c, c', i, from)
    requires forall p :: p in c.members[i].tally + {from} ==> VotedFor(c, p, c.members[i].node.term, i)
    requires c.members[i].tally + {from} <= c.members.Keys
    requires c'.members[i].node.role == Leader ==>
      |c.members[i].tally + {from}| * 2 > |c.members| && c.members[i].node.term !in c.reigns
    ensures Moves(c, c', i) && NewGrantsOk(c, c') && NewReignsOk(c, c') && NewMessagesOk(c, c')
  {
    assert |c'.members| == |c'.members.Keys| == |c.members.Keys| == |c.members|;
  }

  lemma CountActor(c: Cluster, c': Cluster, i: Id, from: Id)
    requires Counts(c, c', i, from) && MemberOk(c, i) && VoteOk(c, i) && TallyOk(c, i)
    requires from !in c.members[i].tally && VotedFor(c, from, c.members[i].node.term, i)
    ensures ActorOk(c', i)
  {
    hide ProperPeers;
    assert |c.members[i].tally + {from}| == |c.members[i].tally| + 1;
    assert forall p :: p in c'.members[i].tally ==> VotedFor(c', p, c.members[i].node.term, i);
  }

  lemma CountedVoteSound(c: Cluster, i: Id, from: Id, callTerm: nat, granted: RequestVoteReply)
    requires Sound(c) && Enabled(c, Deliver(VoteReply(i, from, callTerm, granted)))
    requires c.members[i].node.role == Candidate && granted.voted && granted.term == c.members[i].node.term
    ensures var c' := AfterVoteReply(c, i, from, callTerm, granted);
            Sound(c') && Moves(c, c', i)
  {
    hide Sound, Moves, ActorOk, NewGrantsOk, NewReignsOk, NewMessagesOk, Extends, AfterVoteReply;
    hide MemberOk, TallyOk, VoteOk, LeaderOk, VotedFor;
    CountedVote(c, i, from, callTerm, granted);
    CountingVote(c, i, from, granted);
    Facts(c, i);
    var c' := AfterVoteReply(c, i, from, callTerm, granted);
    CountMoves(c, c', i, from);
    CountActor(c, c', i, from);
    Carry(c, c', i);
  }

  lemma VoteReplySound(c: Cluster, i: Id, from: Id, callTerm: nat, granted: RequestVoteReply)
    requires Sound(c) && Enabled(c, Deliver(VoteReply(i, from, callTerm, granted)))
    ensures var c' := AfterVoteReply(c, i, from, callTerm, granted);
            Sound(c') && Moves(c, c', i)
  {
    hide Sound;
    if c.members[i].node.role == Candidate && granted.term == c.members[i].node.term && granted.voted {
      CountedVoteSound(c, i, from, callTerm, granted);
    } else {
      hide VoteOk, TallyOk, LeaderOk, Moves;
      Facts(c, i);
      StoresNeverLoseTheVote(c.members[i].meta, OnVoteResult(c.members[i].node, granted.term, granted.voted).saves);
      QuietSound(c, AfterVoteReply(c, i, from, callTerm, granted), i);
    }
  }

  lemma QuietAppend(me: Member, req: AppendEntries)
    requires me.meta.Faithful() && SameVote(me.meta.Restored(), me.node.Persistent())
    ensures Quiet(me, Handled(me, OnAppendEntries(me.node, req)))
  {
    StoresNeverLoseTheVote(me.meta, OnAppendEntries(me.node, req).saves);
  }

  lemma QuietAeResult(me: Member, peer: Id, ni: nat, reply: AppendEntriesReply)
    requires me.meta.Faithful() && SameVote(me.meta.Restored(), me.node.Persistent())
    requires AeResultDefined(me.node, ni, reply)
    ensures Quiet(me, Handled(me, OnAeResult(me.node, peer, ni, reply)))
  {
    StoresNeverLoseTheVote(me.meta, OnAeResult(me.node, peer, ni, reply).saves);
  }

  lemma AppendedCluster(c: Cluster, i: Id, req: AppendEntries)
    requires i in c.members
    ensures var c' := AfterAppendRequest(c, i, req);
            && c'.members == c.members[i := Handled(c.members[i], OnAppendEntries(c.members[i].node, req))]
            && c'.grants == c.grants && c'.reigns == c.reigns
            && forall m :: m in c'.net && m !in c.net ==> m.AppendReply?
  {
    hide OnAppendEntries;
  }

  lemma AppendRequestSound(c: Cluster, i: Id, req: AppendEntries)
    requires Sound(c) && i in c.members
    ensures Sound(AfterAppendRequest(c, i, req)) && Moves(c, AfterAppendRequest(c, i, req), i)
  {
    hide Sound, OnAppendEntries, Quiet, VoteOk, TallyOk, LeaderOk, Moves;
    Facts(c, i);
    QuietAppend(c.members[i], req);
    AppendedCluster(c, i, req);
    hide AfterAppendRequest;
    QuietSound(c, AfterAppendRequest(c, i, req), i);
  }

  lemma AppendReplySound(c: Cluster, i: Id, from: Id, req: AppendEntries, reply: AppendEntriesReply)
    requires Sound(c) && i in c.members && AeResultDefined(c.members[i].node, InsertAt(req), reply)
    ensures Sound(AfterAppendReply(c, i, from, req, reply)) && Moves(c, AfterAppendReply(c, i, from, req, reply), i)
  {
    hide Sound, OnAeResult;
    Facts(c, i);
    QuietAeResult(c.members[i], from, InsertAt(req), reply);
    QuietSound(c, AfterAppendReply(c, i, from, req, reply), i);
  }

  lemma SubmitSound(c: Cluster, i: Id, cmd: Command)
    requires Sound(c) && i in c.members
    ensures Sound(AfterSubmit(c, i, cmd)) && Moves(c, AfterSubmit(c, i, cmd), i)
  {
    hide Sound;
    Facts(c, i);
    StoresNeverLoseTheVote(c.members[i].meta, Submit(c.members[i].node, cmd).saves);
    QuietSound(c, AfterSubmit(c, i, cmd), i);
  }

  lemma HeartbeatSound(c: Cluster, i: Id)
    requires Sound(c) && i in c.members
    ensures Sound(AfterHeartbeat(c, i)) && Moves(c, AfterHeartbeat(c, i), i)
  {
    hide Sound;
    Facts(c, i);
    if c.members[i].node.role == Leader {
      QuietSound(c, AfterHeartbeat(c, i), i);
    }
  }

  lemma ApplySound(c: Cluster, i: Id)
    requires Sound(c) && i in c.members && SendCommitsDefined(c.members[i].node)
    ensures Sound(AfterApply(c, i)) && Moves(c, AfterApply(c, i), i)
  {
    hide Sound;
    Facts(c, i);
    QuietSound(c, AfterApply(c, i), i);
  }

  lemma CrashSound(c: Cluster, i: Id)
    requires Sound(c) && i in c.members
    ensures Sound(AfterCrash(c, i)) && Moves(c, AfterCrash(c, i), i)
  {
    hide Sound;
    Facts(c, i);
    QuietSound(c, AfterCrash(c, i), i);
  }

  lemma RestartSound(c: Cluster, i: Id, restored: Option<Log>)
    requires Sound(c) && i in c.members && Remembers(c.members[i], restored)
    ensures Sound(AfterRestart(c, i, restored)) && Moves(c, AfterRestart(c, i, restored), i)
  {
    hide Sound;
    Facts(c, i);
    QuietSound(c, AfterRestart(c, i, restored), i);
  }

  /**
   A restarted process stands by its term and vote, and the invariant survives, if and only if its restore
   succeeds or nothing had been stored.
   */
  lemma RestartSoundIff(c: Cluster, i: Id, restored: Option<Log>)
    requires Sound(c) && i in c.members
    ensures var n, c' := c.members[i].node, AfterRestart(c, i, restored);
            && (Sound(c') <==> Remembers(c.members[i], restored))
            && (SameVote(c'.members[i].node.Persistent(), n.Persistent()) <==> Remembers(c.members[i], restored))
  {
    hide Sound;
    Facts(c, i);
    var c' := AfterRestart(c, i, restored);
    if Remembers(c.members[i], restored) {
      RestartSound(c, i, restored);
    } else if Sound(c') {
      Facts(c', i);
      assert false;
    }
  }

  lemma StepSound(c: Cluster, s: Step)
    requires Sound(c) && Enabled(c, s) && (s.Restart? ==> Remembers(c.members[s.i], s.restored))
    ensures Sound(Next(c, s)) && Moves(c, Next(c, s), Actor(s))
  {
    hide Sound, Moves;
    match s {
      case Timeout(i) => TimeoutSound(c, i);
      case ClientSubmit(i, cmd) => SubmitSound(c, i, cmd);
      case Heartbeat(i) => HeartbeatSound(c, i);
      case ApplyCommits(i) => ApplySound(c, i);
      case Crash(i) => CrashSound(c, i);
      case Restart(i, restored) => RestartSound(c, i, restored);
      case Deliver(VoteRequest(to, vote)) => VoteRequestSound(c, to, vote);
      case Deliver(VoteReply(cand, from, callTerm, granted)) => VoteReplySound(c, cand, from, callTerm, granted);
      case Deliver(AppendRequest(to, req)) => AppendRequestSound(c, to, req);
      case Deliver(AppendReply(leader, from, req, reply)) => AppendReplySound(c, leader, from, req, reply);
    }
  }

  // ---------------------------------------------------------------- whole runs

  lemma {:induction false} RunSound(r: Run, k: nat)
    requires r.Valid() && r.Remembering() && k < |r.states|
    ensures Sound(r.states[k])
  {
    hide Sound, Init, Next, Moves;
    if k == 0 {
      InitSound(r.states[0]);
    } else {
      RunSound(r, k - 1);
      StepSound(r.states[k - 1], r.steps[k - 1]);
    }
  }

  lemma InitSound(c: Cluster)
    requires Init(c)
    ensures Sound(c)
  {
    forall i | i in c.members ensures MemberOk(c, i) {
      assert ProperPeers(c, i);
    }
  }

  lemma MovesExtend(c: Cluster, c': Cluster, i: Id)
    requires Moves(c, c', i)
    ensures Extends(c, c')
  {
  }

  lemma ExtendsOn(a: Cluster, b: Cluster, c: Cluster)
    requires Extends(a, b) && Extends(b, c)
    ensures Extends(a, c)
  {
  }

  lemma ExtendsItself(c: Cluster)
    ensures Extends(c, c)
  {
  }

  /** Recorded votes survive from any moment of a run to any later one. */
  lemma {:induction false} RunExtends(r: Run, j: nat, k: nat)
    requires r.Valid() && r.Remembering() && j <= k < |r.states|
    ensures Extends(r.states[j], r.states[k])
    decreases k
  {
    hide Sound, Moves, Extends, Next, Init;
    if j < k {
      RunExtends(r, j, k - 1);
      RunSound(r, k - 1);
      StepSound(r.states[k - 1], r.steps[k - 1]);
      MovesExtend(r.states[k - 1], r.states[k], Actor(r.steps[k - 1]));
      ExtendsOn(r.states[j], r.states[k - 1], r.states[k]);
    } else {
      ExtendsItself(r.states[j]);
    }
  }

  /** Two leaders of the same term, seen at any two moments of any run that forgets no vote, are the same node. */
  lemma ElectionSafety(r: Run, j: nat, k: nat, a: Id, b: Id)
    requires r.Valid() && r.Remembering() && j < |r.states| && k < |r.states|
    requires a in r.states[j].members && r.states[j].members[a].node.role == Leader
    requires b in r.states[k].members && r.states[k].members[b].node.role == Leader
    requires r.states[j].members[a].node.term == r.states[k].members[b].node.term
    ensures a == b
  {
    if j > k {
      ElectionSafety(r, k, j, b, a);
    } else {
      var c, c' := r.states[j], r.states[k];
      var t := c.members[a].node.term;
      RunSound(r, j);
      RunSound(r, k);
      RunExtends(r, j, k);
      assert LeaderOk(c, a) && LeaderOk(c', b) && ReignOk(c, t) && ReignOk(c', t);
      assert |c.members| == |c.members.Keys| && |c'.members| == |c'.members.Keys|;
      var v := MajoritiesMeet(c.members.Keys, c.reigns[t].voters, c'.reigns[t].voters);
      assert VotedFor(c, v, t, a) && VotedFor(c', v, t, b);
    }
  }
}
