/** Every restart-free step keeps the log invariant; hence Log Matching holds in every restart-free run. */
module LogSteps {
  import opened Messages
  import opened Replica
  import opened Cluster
  import opened ElectionSafety
  import opened Lineage
  import opened LogSafety

  // ---------------------------------------------------------------- steps that leave logs and votes alone

  ghost predicate Bystands(n: Node, n': Node) {
    && n'.logs == n.logs && n'.term >= n.term
    && (n'.role == Leader ==> n.role == Leader && n'.term == n.term)
    && (n'.role == Candidate ==> n.role == Candidate && n'.term == n.term)
  }

  ghost predicate SameHistory(c: Cluster, c': Cluster) {
    c'.reigns == c.reigns && c'.grants == c.grants && c'.acks == c.acks
  }

  /** What is held against fewer leaders is held against more. */
  lemma HeldLonger(c: Cluster, c': Cluster, v: Id, log: Log, hi: nat, hi': nat)
    requires c'.reigns == c.reigns && c'.acks == c.acks && hi <= hi' && Held(c, v, log, hi)
    requires forall t :: (v, t) in c.acks ==> t < hi
    ensures Held(c', v, log, hi')
  {
    forall t, k: nat |
      t < hi' && (v, t) in c'.acks && t in c'.reigns && k <= c'.acks[(v, t)] && k <= |c'.reigns[t].log| &&
      Unchallenged(c'.reigns, t, k, hi')
      ensures c'.reigns[t].log[..k] <= log
    {
      assert Unchallenged(c.reigns, t, k, hi);
    }
  }

  lemma AckedSoFar(c: Cluster, i: Id)
    requires Logged(c) && i in c.members
    ensures forall t :: (i, t) in c.acks ==> t < c.members[i].node.term + 1
  {
    forall t | (i, t) in c.acks ensures t < c.members[i].node.term + 1 {
      assert AckOk(c, i, t);
    }
  }

  lemma AckFact(c: Cluster, v: Id, t: nat)
    requires Logged(c)
    ensures (v, t) in c.acks ==> AckOk(c, v, t)
  {
  }

  lemma MessageFact(c: Cluster, m: Message)
    requires Logged(c) && m in c.net
    ensures LogMessageOk(c, m)
  {
  }

  lemma GrantFact(c: Cluster, v: Id, t: nat)
    requires Sound(c) && Logged(c)
    ensures (v, t) in c.grants ==> GrantOk(c, v, t) && GrantLogOk(c, v, t)
  {
    hide GrantOk, GrantLogOk;
  }

  lemma LogFacts(c: Cluster, i: Id)
    requires Logged(c) && i in c.members
    ensures NodeLogOk(c, i) && Kept(c, i) && ReignsTraced(c.reigns)
  {
  }

  lemma BystanderKeeps(c: Cluster, c': Cluster, i: Id)
    requires Logged(c) && Moves(c, c', i) && SameHistory(c, c')
    requires Bystands(c.members[i].node, c'.members[i].node)
    ensures NodeLogOk(c', i) && Kept(c', i) && ReignsTraced(c'.reigns)
    ensures Evolves(c, c', i) && NewAcksOk(c', i)
    ensures NewGrantLogsOk(c, c') && NewReignLogsOk(c, c')
  {
    hide Logged, ReignsTraced, Held, Traced;
    LogFacts(c, i);
    AckedSoFar(c, i);
    AckFact(c, i, c'.members[i].node.term);
    HeldLonger(c, c', i, c.members[i].node.logs, c.members[i].node.term + 1, c'.members[i].node.term + 1);
  }

  lemma BystanderLogged(c: Cluster, c': Cluster, i: Id)
    requires Sound(c) && Sound(c') && Logged(c) && Moves(c, c', i) && SameHistory(c, c')
    requires Bystands(c.members[i].node, c'.members[i].node) && NewLogMessagesOk(c, c')
    ensures Logged(c') && Evolves(c, c', i)
  {
    hide Sound, Logged, Moves, Bystands, SameHistory, NewLogMessagesOk;
    BystanderKeeps(c, c', i);
    hide NodeLogOk, Kept, ReignsTraced, Evolves, NewAcksOk, NewGrantLogsOk, NewReignLogsOk;
    LogCarry(c, c', i);
  }

  // ---------------------------------------------------------------- elections

  lemma TimeoutNews(c: Cluster, i: Id)
    requires i in c.members && NodeLogOk(c, i) && Kept(c, i) && c.members[i].node.id == i
    requires (i, c.members[i].node.term + 1) !in c.grants
    requires forall t :: (i, t) in c.acks ==> t < c.members[i].node.term + 1
    ensures var c' := AfterTimeout(c, i);
            && NodeLogOk(c', i) && Kept(c', i) && NewAcksOk(c', i)
            && NewGrantLogsOk(c, c') && NewReignLogsOk(c, c') && NewLogMessagesOk(c, c')
  {
    var c' := AfterTimeout(c, i);
    var n, t := c.members[i].node, c.members[i].node.term + 1;
    assert c'.reigns == c.reigns && c'.acks == c.acks;
    assert c'.members[i].node.term == t && c'.members[i].node.logs == n.logs;
    HeldLonger(c, c', i, n.logs, t, t);
    HeldLonger(c, c', i, n.logs, t, t + 1);
    assert VotedFor(c', i, t, i) && c'.grants[(i, t)].log == n.logs;
    hide Held, Traced;
    assert GrantLogOk(c', i, t) && VoterKept(c', i, t);
  }

  lemma TimeoutLogged(c: Cluster, i: Id)
    requires Sound(c) && Logged(c) && Enabled(c, Timeout(i))
    requires Sound(AfterTimeout(c, i)) && Moves(c, AfterTimeout(c, i), i)
    ensures Logged(AfterTimeout(c, i)) && Evolves(c, AfterTimeout(c, i), i)
  {
    hide Sound, Logged, Moves, ProperPeers, GrantLogOk;
    var t := c.members[i].node.term + 1;
    Facts(c, i);
    GrantFact(c, i, t);
    LogFacts(c, i);
    AckedSoFar(c, i);
    TimeoutNews(c, i);
    assert AfterTimeout(c, i).reigns == c.reigns && AfterTimeout(c, i).acks == c.acks;
    hide MemberOk, VoteOk, TallyOk, LeaderOk, GrantOk;
    hide NodeLogOk, Kept, ReignsTraced, NewAcksOk, NewGrantLogsOk, NewReignLogsOk, NewLogMessagesOk, AfterTimeout;
    LogCarry(c, AfterTimeout(c, i), i);
  }

  /** The vote `i` casts here is new to the record. */
  ghost predicate FreshVote(c: Cluster, i: Id, vote: RequestVote)
    requires i in c.members
  {
    && OnRequestVote(c.members[i].node, vote).reply == Some(RequestVoteReply(vote.term, true))
    && (i, vote.term) !in c.grants
  }

  lemma FreshVoteIsFresh(c: Cluster, i: Id, vote: RequestVote)
    requires i in c.members && FreshVote(c, i, vote)
    ensures (i, vote.term) !in c.grants
  {
  }

  lemma NotAVoterYet(c: Cluster, i: Id, t: nat)
    requires Sound(c) && (i, t) !in c.grants
    ensures t in c.reigns ==> i !in c.reigns[t].voters
  {
    if t in c.reigns { assert ReignOk(c, t); }
  }

  /** At the moment of an undecided vote the voter's log holds all it acknowledged before. */
  lemma VoterHolds(c: Cluster, c': Cluster, i: Id, t: nat)
    requires i in c.members && Kept(c, i) && c'.reigns == c.reigns && c'.acks == c.acks
    requires c.members[i].node.term <= t && t !in c.reigns
    requires forall t0 :: (i, t0) in c.acks ==> t0 < c.members[i].node.term + 1
    ensures Held(c', i, c.members[i].node.logs, t)
  {
    var n := c.members[i].node;
    forall t0, k: nat |
      t0 < t && (i, t0) in c'.acks && t0 in c'.reigns && k <= c'.acks[(i, t0)] && k <= |c'.reigns[t0].log| &&
      Unchallenged(c'.reigns, t0, k, t)
      ensures c'.reigns[t0].log[..k] <= n.logs
    {
      assert Unchallenged(c.reigns, t0, k, n.term + 1);
    }
  }

  lemma FreshGrantOk(c: Cluster, c': Cluster, i: Id, vote: RequestVote)
    requires Sound(c) && Logged(c) && i in c.members && VoteRequest(i, vote) in c.net
    requires (i, vote.term) !in c.grants && c.members[i].node.term <= vote.term
    requires UpToDate(LastEntry(vote.lastLogIndex, vote.lastLogTerm), LastLog(c.members[i].node.logs))
    requires c'.reigns == c.reigns && c'.acks == c.acks
    requires c'.grants == c.grants[(i, vote.term) := Grant(vote.candidateId, c.members[i].node.logs)]
    ensures GrantLogOk(c', i, vote.term) && VoterKept(c', i, vote.term)
  {
    hide Sound, Logged, Held, Traced, GrantOk;
    MessageFact(c, VoteRequest(i, vote));
    GrantFact(c, vote.candidateId, vote.term);
    NotAVoterYet(c, i, vote.term);
    LogFacts(c, i);
    AckedSoFar(c, i);
    if vote.term !in c.reigns { VoterHolds(c, c', i, vote.term); }
  }

  lemma AckBound(c: Cluster, i: Id, t: nat)
    requires i in c.members && ((i, t) in c.acks ==> AckOk(c, i, t))
    ensures (i, t) in c.acks ==> t < c.members[i].node.term + 1
  {
  }

  lemma AckStays(c: Cluster, c': Cluster, i: Id, t: nat)
    requires (i, t) in c.acks && AckOk(c, i, t) && i in c'.members && c'.reigns == c.reigns && c'.acks == c.acks
    requires c.members[i].node.term <= c'.members[i].node.term
    ensures AckOk(c', i, t)
  {
  }

  lemma FreshVoteNode(c: Cluster, c': Cluster, i: Id)
    requires i in c.members && i in c'.members && NodeLogOk(c, i) && Bystands(c.members[i].node, c'.members[i].node)
    requires c'.reigns == c.reigns && (forall k :: k in c.grants ==> k in c'.grants && c'.grants[k] == c.grants[k])
    ensures NodeLogOk(c', i)
  {
  }

  lemma FreshVoteMoves(c: Cluster, i: Id, vote: RequestVote)
    requires i in c.members && NodeLogOk(c, i) && Kept(c, i) && FreshVote(c, i, vote)
    requires forall t :: (i, t) in c.acks ==> AckOk(c, i, t)
    ensures var c' := AfterVoteRequest(c, i, vote);
            && c'.reigns == c.reigns && c'.acks == c.acks
            && c'.grants == c.grants[(i, vote.term) := Grant(vote.candidateId, c.members[i].node.logs)]
            && c.members[i].node.term <= vote.term
            && UpToDate(LastEntry(vote.lastLogIndex, vote.lastLogTerm), LastLog(c.members[i].node.logs))
            && NodeLogOk(c', i) && Kept(c', i) && NewAcksOk(c', i) && NewLogMessagesOk(c, c')
  {
    hide Held, Traced, TermsWithin, AckOk;
    var c' := AfterVoteRequest(c, i, vote);
    var n, n' := c.members[i].node, c'.members[i].node;
    assert Bystands(n, n');
    forall t: nat ensures (i, t) in c.acks ==> t < n.term + 1 { AckBound(c, i, t); }
    HeldLonger(c, c', i, n.logs, n.term + 1, n'.term + 1);
    FreshVoteNode(c, c', i);
    hide NodeLogOk;
    if (i, n'.term) in c'.acks { AckStays(c, c', i, n'.term); }
  }

  lemma FreshVoteLogged(c: Cluster, i: Id, vote: RequestVote)
    requires Sound(c) && Logged(c) && Enabled(c, Deliver(VoteRequest(i, vote))) && FreshVote(c, i, vote)
    requires Sound(AfterVoteRequest(c, i, vote)) && Moves(c, AfterVoteRequest(c, i, vote), i)
    ensures Logged(AfterVoteRequest(c, i, vote)) && Evolves(c, AfterVoteRequest(c, i, vote), i)
  {
    hide Sound, Logged, Moves, FreshVote, NodeLogOk, Kept, AckOk, AfterVoteRequest;
    forall t: nat ensures (i, t) in c.acks ==> AckOk(c, i, t) { AckFact(c, i, t); }
    LogFacts(c, i);
    assert (i, vote.term) !in c.grants by { FreshVoteIsFresh(c, i, vote); }
    FreshVoteMoves(c, i, vote);
    FreshGrantOk(c, AfterVoteRequest(c, i, vote), i, vote);
    hide ReignsTraced, LastLog, UpToDate, NewAcksOk, NewLogMessagesOk, AfterVoteRequest, GrantLogOk, VoterKept, AckOk;
    LogCarry(c, AfterVoteRequest(c, i, vote), i);
  }

  lemma StaleVoteBystands(c: Cluster, i: Id, vote: RequestVote)
    requires i in c.members && !FreshVote(c, i, vote)
    ensures var c' := AfterVoteRequest(c, i, vote);
            && SameHistory(c, c') && Bystands(c.members[i].node, c'.members[i].node)
            && (forall m :: m in c'.net && m !in c.net ==> m.VoteReply?)
  {
    VotingNode(c.members[i].node, vote);
    hide OnRequestVote, Bystands;
  }

  lemma VotingNode(n: Node, vote: RequestVote)
    ensures var o := OnRequestVote(n, vote);
            Bystands(n, o.node) && (o.reply.Some? && o.reply.value.voted ==> o.reply.value.term == vote.term)
  {
  }

  lemma VoteRequestLogged(c: Cluster, i: Id, vote: RequestVote)
    requires Sound(c) && Logged(c) && Enabled(c, Deliver(VoteRequest(i, vote)))
    requires Sound(AfterVoteRequest(c, i, vote)) && Moves(c, AfterVoteRequest(c, i, vote), i)
    ensures Logged(AfterVoteRequest(c, i, vote)) && Evolves(c, AfterVoteRequest(c, i, vote), i)
  {
    hide Sound, Logged, Moves, FreshVote, AfterVoteRequest, Bystands;
    if FreshVote(c, i, vote) {
      FreshVoteLogged(c, i, vote);
    } else {
      StaleVoteBystands(c, i, vote);
      BystanderLogged(c, AfterVoteRequest(c, i, vote), i);
    }
  }

  // ---------------------------------------------------------------- winning

  /** The effect of winning: a new reign that starts from the winner's log, which the winner acknowledges. */
  ghost predicate Crowned(c: Cluster, c': Cluster, i: Id) {
    && i in c.members && i in c'.members
    && var n, n' := c.members[i].node, c'.members[i].node;
    && n.role == Candidate && n'.role == Leader && n'.term == n.term && n'.logs == n.logs
    && c'.grants == c.grants && c'.net == c.net
    && c'.reigns == c.reigns[n.term := Reign(i, c'.members[i].tally, n.logs)]
    && c'.acks == c.acks[(i, n.term) := |n.logs|]
  }

  lemma CrownedReigns(c: Cluster, c': Cluster, i: Id)
    requires Crowned(c, c', i) && NodeLogOk(c, i) && ReignsTraced(c.reigns)
    requires c.members[i].node.term !in c.reigns
    requires (i, c.members[i].node.term) in c.grants ==> GrantLogOk(c, i, c.members[i].node.term)
    ensures ReignsTraced(c'.reigns) && NodeLogOk(c', i) && NewReignLogsOk(c, c') && NewAcksOk(c', i)
  {
    var n := c.members[i].node;
    assert ReignsGrow(c.reigns, c'.reigns);
    TracedGrows(n.logs, c.reigns, c'.reigns);
    forall t | t in c'.reigns ensures Traced(c'.reigns[t].log, c'.reigns) && TermsWithin(c'.reigns[t].log, t) {
      if t in c.reigns { TracedGrows(c.reigns[t].log, c.reigns, c'.reigns); }
    }
    hide Traced;
  }

  lemma CrownedEvolves(c: Cluster, c': Cluster, i: Id)
    requires Crowned(c, c', i) && Moves(c, c', i) && c.members[i].node.term !in c.reigns
    requires (i, c.members[i].node.term) in c.acks ==> AckOk(c, i, c.members[i].node.term)
    ensures Evolves(c, c', i) && NewGrantLogsOk(c, c') && NewLogMessagesOk(c, c')
  {
    hide Moves;
    assert (i, c.members[i].node.term) !in c.acks;
  }

  lemma CrownedKeeps(c: Cluster, c': Cluster, i: Id)
    requires Crowned(c, c', i) && c.members[i].node.term !in c.reigns
    ensures Kept(c', i)
  {
    var t := c.members[i].node.term;
    forall t0, k: nat |
      t0 < t + 1 && (i, t0) in c'.acks && t0 in c'.reigns && k <= c'.acks[(i, t0)] && k <= |c'.reigns[t0].log| &&
      Unchallenged(c'.reigns, t0, k, t + 1)
      ensures c'.reigns[t0].log[..k] <= c'.members[i].node.logs
    {
      assert t in c'.reigns;
    }
  }

  lemma CrownedLogged(c: Cluster, c': Cluster, i: Id)
    requires Sound(c) && Sound(c') && Logged(c) && Crowned(c, c', i) && Moves(c, c', i)
    requires c.members[i].node.term !in c.reigns
    ensures Logged(c') && Evolves(c, c', i)
  {
    var t := c.members[i].node.term;
    hide Sound, Logged, Moves, Crowned, NodeLogOk, Kept, ReignsTraced, AckOk, GrantLogOk, GrantOk;
    LogFacts(c, i);
    AckFact(c, i, t);
    GrantFact(c, i, t);
    CrownedReigns(c, c', i);
    CrownedEvolves(c, c', i);
    CrownedKeeps(c, c', i);
    hide Evolves, NewAcksOk, NewGrantLogsOk, NewReignLogsOk, NewLogMessagesOk;
    LogCarry(c, c', i);
  }

  lemma WinnerCrowned(c: Cluster, i: Id, from: Id, callTerm: nat, granted: RequestVoteReply)
    requires i in c.members && Wins(c.members[i].node, granted)
    ensures Crowned(c, AfterVoteReply(c, i, from, callTerm, granted), i)
  {
  }

  lemma LoserBystands(c: Cluster, i: Id, from: Id, callTerm: nat, granted: RequestVoteReply)
    requires i in c.members && !Wins(c.members[i].node, granted)
    ensures var c' := AfterVoteReply(c, i, from, callTerm, granted);
            SameHistory(c, c') && c'.net == c.net && Bystands(c.members[i].node, c'.members[i].node)
  {
  }

  lemma VoteReplyLogged(c: Cluster, i: Id, from: Id, callTerm: nat, granted: RequestVoteReply)
    requires Sound(c) && Logged(c) && Enabled(c, Deliver(VoteReply(i, from, callTerm, granted)))
    requires var c' := AfterVoteReply(c, i, from, callTerm, granted); Sound(c') && Moves(c, c', i)
    ensures Logged(AfterVoteReply(c, i, from, callTerm, granted))
    ensures Evolves(c, AfterVoteReply(c, i, from, callTerm, granted), i)
  {
    var c' := AfterVoteReply(c, i, from, callTerm, granted);
    hide Sound, Logged, Moves, AfterVoteReply, Crowned, Bystands, SameHistory, VotedFor;
    if Wins(c.members[i].node, granted) {
      CountedVote(c, i, from, callTerm, granted);
      WinnerCrowned(c, i, from, callTerm, granted);
      CrownedLogged(c, c', i);
    } else {
      LoserBystands(c, i, from, callTerm, granted);
      BystanderLogged(c, c', i);
    }
  }

  // ---------------------------------------------------------------- submitting

  /** The effect of a submit: the leader's own log and the log of its reign grow by one entry of its term. */
  ghost predicate Extended(c: Cluster, c': Cluster, i: Id) {
    && i in c.members && i in c'.members
    && var n, n' := c.members[i].node, c'.members[i].node;
    && n.role == Leader && n'.role == Leader && n'.term == n.term && n.term in c.reigns
    && |n'.logs| == |n.logs| + 1 && n'.logs[..|n.logs|] == n.logs && n'.logs[|n.logs|].term == n.term
    && c'.grants == c.grants && c'.net == c.net
    && c'.reigns == c.reigns[n.term := c.reigns[n.term].(log := n'.logs)]
    && c'.acks == c.acks[(i, n.term) := |n'.logs|]
  }

  lemma ExtendedEvolves(c: Cluster, c': Cluster, i: Id)
    requires Extended(c, c', i) && Moves(c, c', i) && NodeLogOk(c, i) && LeaderOk(c, i)
    requires (i, c.members[i].node.term) in c.acks ==> AckOk(c, i, c.members[i].node.term)
    ensures Evolves(c, c', i) && NewGrantLogsOk(c, c') && NewLogMessagesOk(c, c')
    ensures NewReignLogsOk(c, c')
  {
    hide Moves, Traced;
  }

  lemma ExtendedReigns(c: Cluster, c': Cluster, i: Id)
    requires Extended(c, c', i) && NodeLogOk(c, i) && ReignsTraced(c.reigns)
    requires c.members[i].node.term >= 1
    requires ReignsGrow(c.reigns, c'.reigns)
    ensures ReignsTraced(c'.reigns) && NodeLogOk(c', i) && NewAcksOk(c', i)
  {
    var n, n' := c.members[i].node, c'.members[i].node;
    var e := n'.logs[|n.logs|];
    assert n'.logs == n.logs + [e];
    TracedGrows(n.logs, c.reigns, c'.reigns);
    TracedAppend(n.logs, e, c'.reigns);
    forall t | t in c'.reigns ensures Traced(c'.reigns[t].log, c'.reigns) && TermsWithin(c'.reigns[t].log, t) {
      if t != n.term { TracedGrows(c.reigns[t].log, c.reigns, c'.reigns); }
    }
    hide Traced;
  }

  lemma ExtendedKeeps(c: Cluster, c': Cluster, i: Id)
    requires Extended(c, c', i) && Evolves(c, c', i) && ReignsTraced(c.reigns) && Kept(c, i)
    requires forall t :: (i, t) in c.acks ==> AckOk(c, i, t)
    ensures Kept(c', i)
  {
    hide Moves, ReignsTraced;
    var n, n' := c.members[i].node, c'.members[i].node;
    forall t, k: nat |
      t < n.term + 1 && (i, t) in c'.acks && t in c'.reigns && k <= c'.acks[(i, t)] && k <= |c'.reigns[t].log| &&
      Unchallenged(c'.reigns, t, k, n.term + 1)
      ensures c'.reigns[t].log[..k] <= n'.logs
    {
      if t != n.term {
        assert AckOk(c, i, t);
        UnchallengedBefore(c.reigns, c'.reigns, i, t, k, n.term + 1);
      }
    }
  }

  lemma ExtendedBase(c: Cluster, c': Cluster, i: Id)
    requires Logged(c) && Extended(c, c', i)
    ensures i in c.members && c.members[i].node.term >= 1
  {
    assert ReignBaseOk(c, c.members[i].node.term);
  }

  lemma ExtendedLogged(c: Cluster, c': Cluster, i: Id)
    requires Sound(c) && Sound(c') && Logged(c) && Extended(c, c', i) && Moves(c, c', i)
    ensures Logged(c') && Evolves(c, c', i)
  {
    hide Sound, Logged, Moves, Extended, NodeLogOk, Kept, ReignsTraced, AckOk, MemberOk, VoteOk, TallyOk, LeaderOk;
    ExtendedBase(c, c', i);
    Facts(c, i);
    LogFacts(c, i);
    forall t: nat ensures (i, t) in c.acks ==> AckOk(c, i, t) { AckFact(c, i, t); }
    ExtendedEvolves(c, c', i);
    EvolvingReignsGrow(c.reigns, c'.reigns, i);
    ExtendedReigns(c, c', i);
    ExtendedKeeps(c, c', i);
    hide Evolves, NewAcksOk, NewGrantLogsOk, NewReignLogsOk, NewLogMessagesOk, ReignsGrow;
    LogCarry(c, c', i);
  }

  lemma SubmitLogged(c: Cluster, i: Id, cmd: Command)
    requires Sound(c) && Logged(c) && i in c.members
    requires Sound(AfterSubmit(c, i, cmd)) && Moves(c, AfterSubmit(c, i, cmd), i)
    ensures Logged(AfterSubmit(c, i, cmd)) && Evolves(c, AfterSubmit(c, i, cmd), i)
  {
    hide Sound, Logged, Moves, MemberOk, VoteOk, TallyOk;
    Facts(c, i);
    if c.members[i].node.role == Leader {
      ExtendedLogged(c, AfterSubmit(c, i, cmd), i);
    } else {
      BystanderLogged(c, AfterSubmit(c, i, cmd), i);
    }
  }

  // ---------------------------------------------------------------- accepting entries

  ghost predicate Accepts(n: Node, req: AppendEntries) {
    n.role != Dead && req.term >= n.term && PrevOk(n.logs, req)
  }

  /** The effect of accepting a request: adopt the sender's log, acknowledge its length, and say so. */
  ghost predicate Accepted(c: Cluster, c': Cluster, i: Id, req: AppendEntries) {
    && i in c.members && i in c'.members && BuiltBy(req, c.reigns)
    && var n, n' := c.members[i].node, c'.members[i].node;
    && n'.term == req.term && n.term <= req.term
    && (n'.role == Leader || n'.role == Candidate ==> n'.role == n.role && n.term == req.term)
    && n'.logs == Adopt(n.logs, SentLog(req, c.reigns))
    && c'.grants == c.grants && c'.reigns == c.reigns
    && c'.acks == c.acks[(i, req.term) := Max(AckOf(c, i, req.term), SentLength(req))]
    && c'.net == c.net + {AppendReply(req.leader, i, req, AppendEntriesReply(req.term, true, None, None))}
  }

  lemma Accepting(c: Cluster, i: Id, req: AppendEntries)
    requires i in c.members && Accepts(c.members[i].node, req)
    requires BuiltBy(req, c.reigns) && ReignsTraced(c.reigns) && Traced(c.members[i].node.logs, c.reigns)
    ensures Accepted(c, AfterAppendRequest(c, i, req), i, req)
  {
    hide ReignsTraced, Traced, BuiltBy, Splice, Adopt, PrevOk;
    AcceptingNode(c.members[i].node, req);
    SpliceIsAdopt(c.members[i].node.logs, req, c.reigns);
    hide OnAppendEntries;
  }

  lemma AcceptingNode(n: Node, req: AppendEntries)
    requires Accepts(n, req)
    ensures var o := OnAppendEntries(n, req);
            && PrevOk(n.logs, req) && InsertAt(req) <= |n.logs|
            && o.node.logs == Splice(n.logs, InsertAt(req), req.entries)
            && o.node.term == req.term && n.term <= req.term
            && (o.node.role == Leader || o.node.role == Candidate ==> o.node.role == n.role && n.term == req.term)
            && o.reply == Some(AppendEntriesReply(req.term, true, None, None))
  {
    hide Splice;
  }

  lemma AcceptedNode(c: Cluster, c': Cluster, i: Id, req: AppendEntries)
    requires Accepted(c, c', i, req) && NodeLogOk(c, i) && ReignsTraced(c.reigns) && LeaderOk(c, i) && i != req.leader
    requires (i, req.term) in c.acks ==> AckOk(c, i, req.term)
    ensures NodeLogOk(c', i) && NewAcksOk(c', i)
  {
    var n, sent := c.members[i].node, SentLog(req, c.reigns);
    TracedPrefix(c.reigns[req.term].log, c.reigns, SentLength(req));
    AdoptTraced(n.logs, sent, c.reigns);
    hide Traced;
  }

  lemma AcceptedEvolves(c: Cluster, c': Cluster, i: Id, req: AppendEntries)
    requires Accepted(c, c', i, req) && Moves(c, c', i) && i != req.leader
    ensures Evolves(c, c', i) && NewGrantLogsOk(c, c') && NewReignLogsOk(c, c') && NewLogMessagesOk(c, c')
  {
    hide Moves, Adopt;
  }

  /** Accepting keeps every acknowledged prefix that this and earlier leaders agree with. */
  lemma AcceptedKeeps(c: Cluster, c': Cluster, i: Id, req: AppendEntries)
    requires Accepted(c, c', i, req) && Kept(c, i)
    requires forall t :: (i, t) in c.acks ==> AckOk(c, i, t)
    ensures Kept(c', i)
  {
    var n, n', sent := c.members[i].node, c'.members[i].node, SentLog(req, c.reigns);
    var full := c.reigns[req.term].log;
    forall t, k: nat |
      t < req.term + 1 && (i, t) in c'.acks && t in c'.reigns && k <= c'.acks[(i, t)] && k <= |c'.reigns[t].log| &&
      Unchallenged(c'.reigns, t, k, req.term + 1)
      ensures c'.reigns[t].log[..k] <= n'.logs
    {
      var p := c.reigns[t].log[..k];
      if t == req.term && k <= SentLength(req) {
        assert p <= sent <= n'.logs;
      } else {
        assert (i, t) in c.acks && AckOk(c, i, t) && k <= c.acks[(i, t)];
        assert Unchallenged(c.reigns, t, k, n.term + 1);
        assert p <= full;
        AdoptKeeps(p, n.logs, sent, full);
      }
    }
  }

  lemma AcceptedLogged(c: Cluster, c': Cluster, i: Id, req: AppendEntries)
    requires Sound(c) && Sound(c') && Logged(c) && i in c.members
    requires Moves(c, c', i) && Accepted(c, c', i, req) && i != req.leader
    ensures Logged(c') && Evolves(c, c', i)
  {
    hide Sound, Logged, Moves, NodeLogOk, Kept, ReignsTraced, AckOk, MemberOk, VoteOk, TallyOk, LeaderOk, Accepted;
    Facts(c, i);
    LogFacts(c, i);
    forall t: nat ensures (i, t) in c.acks ==> AckOk(c, i, t) { AckFact(c, i, t); }
    AcceptedNode(c, c', i, req);
    AcceptedEvolves(c, c', i, req);
    AcceptedKeeps(c, c', i, req);
    assert c'.reigns == c.reigns by { AcceptedReigns(c, c', i, req); }
    hide Evolves, NewAcksOk, NewGrantLogsOk, NewReignLogsOk, NewLogMessagesOk;
    LogCarry(c, c', i);
  }

  lemma AcceptedReigns(c: Cluster, c': Cluster, i: Id, req: AppendEntries)
    requires Accepted(c, c', i, req)
    ensures c'.reigns == c.reigns
  {
  }

  lemma RefusedBystands(c: Cluster, i: Id, req: AppendEntries)
    requires i in c.members && !Accepts(c.members[i].node, req)
    ensures var c' := AfterAppendRequest(c, i, req);
            && SameHistory(c, c') && Bystands(c.members[i].node, c'.members[i].node)
            && (forall m :: m in c'.net && m !in c.net ==>
                  m.AppendReply? && m.leader == req.leader && m.from == i && m.req == req && !m.reply.success)
  {
    RefusingNode(c.members[i].node, req);
    hide OnAppendEntries;
  }

  lemma RefusingNode(n: Node, req: AppendEntries)
    requires !Accepts(n, req)
    ensures var o := OnAppendEntries(n, req); Bystands(n, o.node) && (o.reply.Some? ==> !o.reply.value.success)
  {
  }

  lemma AcceptLogged(c: Cluster, i: Id, req: AppendEntries)
    requires Sound(c) && Logged(c) && i in c.members && Accepts(c.members[i].node, req)
    requires BuiltBy(req, c.reigns) && i != req.leader
    requires Sound(AfterAppendRequest(c, i, req)) && Moves(c, AfterAppendRequest(c, i, req), i)
    ensures Logged(AfterAppendRequest(c, i, req)) && Evolves(c, AfterAppendRequest(c, i, req), i)
  {
    hide Sound, Logged, Moves, AfterAppendRequest, Accepts, Accepted, ReignsTraced, Kept, BuiltBy, Traced;
    LogFacts(c, i);
    Accepting(c, i, req);
    AcceptedLogged(c, AfterAppendRequest(c, i, req), i, req);
  }

  lemma RefuseLogged(c: Cluster, i: Id, req: AppendEntries)
    requires Sound(c) && Logged(c) && i in c.members && !Accepts(c.members[i].node, req)
    requires BuiltBy(req, c.reigns) && i != req.leader
    requires Sound(AfterAppendRequest(c, i, req)) && Moves(c, AfterAppendRequest(c, i, req), i)
    ensures Logged(AfterAppendRequest(c, i, req)) && Evolves(c, AfterAppendRequest(c, i, req), i)
  {
    hide Sound, Logged, Moves, AfterAppendRequest, Accepts, Bystands, BuiltBy;
    RefusedBystands(c, i, req);
    BystanderLogged(c, AfterAppendRequest(c, i, req), i);
  }

  lemma AppendRequestLogged(c: Cluster, i: Id, req: AppendEntries)
    requires Sound(c) && Logged(c) && i in c.members && AppendRequest(i, req) in c.net
    requires Sound(AfterAppendRequest(c, i, req)) && Moves(c, AfterAppendRequest(c, i, req), i)
    ensures Logged(AfterAppendRequest(c, i, req)) && Evolves(c, AfterAppendRequest(c, i, req), i)
  {
    hide Sound, Logged, Moves, AfterAppendRequest, Accepts, BuiltBy;
    MessageFact(c, AppendRequest(i, req));
    if Accepts(c.members[i].node, req) {
      AcceptLogged(c, i, req);
    } else {
      RefuseLogged(c, i, req);
    }
  }

  // ---------------------------------------------------------------- the remaining steps

  lemma RequestsBuilt(c: Cluster, i: Id)
    requires i in c.members && NodeLogOk(c, i) && LeaderOk(c, i) && c.members[i].node.role == Leader
    requires c.members[i].node.id == i && i !in c.members[i].node.peers
    ensures NewLogMessagesOk(c, AfterHeartbeat(c, i))
  {
    var c', n := AfterHeartbeat(c, i), c.members[i].node;
    assert n.term in c.reigns && c.reigns[n.term].leader == i && c.reigns[n.term].log == n.logs
           && c'.reigns == c.reigns;
    hide NodeLogOk, LeaderOk, BuiltBy;
    forall m | m in c'.net && m !in c.net ensures LogMessageOk(c', m) {
      var p :| p in n.peers && m == AppendRequest(p, Request(n, NextFor(n, p)));
      hide AfterHeartbeat;
      RequestIsBuilt(n, NextFor(n, p), c.reigns);
      hide Request, NextFor;
    }
  }

  lemma HeartbeatLogged(c: Cluster, i: Id)
    requires Sound(c) && Logged(c) && i in c.members
    requires Sound(AfterHeartbeat(c, i)) && Moves(c, AfterHeartbeat(c, i), i)
    ensures Logged(AfterHeartbeat(c, i)) && Evolves(c, AfterHeartbeat(c, i), i)
  {
    hide Sound, Logged, Moves, VoteOk, TallyOk, NodeLogOk, Kept, ReignsTraced, LeaderOk, NewLogMessagesOk;
    if c.members[i].node.role == Leader {
      Facts(c, i);
      LogFacts(c, i);
      RequestsBuilt(c, i);
      BystanderLogged(c, AfterHeartbeat(c, i), i);
    }
  }

  lemma AppendReplyLogged(c: Cluster, i: Id, from: Id, req: AppendEntries, reply: AppendEntriesReply)
    requires Sound(c) && Logged(c) && i in c.members && AeResultDefined(c.members[i].node, InsertAt(req), reply)
    requires var c' := AfterAppendReply(c, i, from, req, reply); Sound(c') && Moves(c, c', i)
    ensures Logged(AfterAppendReply(c, i, from, req, reply)) && Evolves(c, AfterAppendReply(c, i, from, req, reply), i)
  {
    hide Sound, Logged, Moves;
    BystanderLogged(c, AfterAppendReply(c, i, from, req, reply), i);
  }

  lemma ApplyLogged(c: Cluster, i: Id)
    requires Sound(c) && Logged(c) && i in c.members && SendCommitsDefined(c.members[i].node)
    requires Sound(AfterApply(c, i)) && Moves(c, AfterApply(c, i), i)
    ensures Logged(AfterApply(c, i)) && Evolves(c, AfterApply(c, i), i)
  {
    hide Sound, Logged, Moves;
    BystanderLogged(c, AfterApply(c, i), i);
  }

  lemma CrashLogged(c: Cluster, i: Id)
    requires Sound(c) && Logged(c) && i in c.members
    requires Sound(AfterCrash(c, i)) && Moves(c, AfterCrash(c, i), i)
    ensures Logged(AfterCrash(c, i)) && Evolves(c, AfterCrash(c, i), i)
  {
    hide Sound, Logged, Moves;
    BystanderLogged(c, AfterCrash(c, i), i);
  }

  lemma StepLogged(c: Cluster, s: Step)
    requires Sound(c) && Logged(c) && Enabled(c, s) && !s.Restart?
    ensures Sound(Next(c, s)) && Logged(Next(c, s)) && Evolves(c, Next(c, s), Actor(s))
  {
    hide Sound, Logged, Moves, Evolves, AfterTimeout, AfterSubmit, AfterHeartbeat, AfterApply, AfterCrash;
    hide AfterVoteRequest, AfterVoteReply, AfterAppendRequest, AfterAppendReply;
    StepSound(c, s);
    match s {
      case Timeout(i) => TimeoutLogged(c, i);
      case ClientSubmit(i, cmd) => SubmitLogged(c, i, cmd);
      case Heartbeat(i) => HeartbeatLogged(c, i);
      case ApplyCommits(i) => ApplyLogged(c, i);
      case Crash(i) => CrashLogged(c, i);
      case Deliver(VoteRequest(to, vote)) => VoteRequestLogged(c, to, vote);
      case Deliver(VoteReply(cand, from, callTerm, granted)) => VoteReplyLogged(c, cand, from, callTerm, granted);
      case Deliver(AppendRequest(to, req)) => AppendRequestLogged(c, to, req);
      case Deliver(AppendReply(leader, from, req, reply)) => AppendReplyLogged(c, leader, from, req, reply);
    }
  }

  // ---------------------------------------------------------------- whole runs

  lemma {:induction false} RunLogged(r: Run, k: nat)
    requires r.Valid() && r.RestartFree() && k < |r.states|
    ensures Sound(r.states[k]) && Logged(r.states[k])
  {
    hide Sound, Logged;
    if k == 0 {
      InitSound(r.states[0]);
      InitLogged(r.states[0]);
    } else {
      RunLogged(r, k - 1);
      StepLogged(r.states[k - 1], r.steps[k - 1]);
    }
  }

  lemma InitLogged(c: Cluster)
    requires Init(c)
    ensures Logged(c)
  {
  }

  /**
   Log Matching (section 5.3 of the Raft paper): in every state of every restart-free run, two
   nodes whose logs have the same term at an index agree on everything up to that index.
   */
  lemma LogMatching(r: Run, k: nat, a: Id, b: Id, idx: nat)
    requires r.Valid() && r.RestartFree() && k < |r.states|
    requires a in r.states[k].members && b in r.states[k].members
    requires var la, lb := r.states[k].members[a].node.logs, r.states[k].members[b].node.logs;
             idx < |la| && idx < |lb| && la[idx].term == lb[idx].term
    ensures r.states[k].members[a].node.logs[..idx + 1] == r.states[k].members[b].node.logs[..idx + 1]
  {
    var c := r.states[k];
    RunLogged(r, k);
    LogFacts(c, a);
    LogFacts(c, b);
    SameTermSamePrefix(c.members[a].node.logs, c.members[b].node.logs, c.reigns, idx);
  }

  /**
   In every state of every restart-free run, log terms are at least 1, never decrease, and stay within the node's
   term.
   */
  lemma LogTermsOrdered(r: Run, k: nat, a: Id, j: nat, idx: nat)
    requires r.Valid() && r.RestartFree() && k < |r.states| && a in r.states[k].members
    requires j <= idx < |r.states[k].members[a].node.logs|
    ensures var n := r.states[k].members[a].node; 1 <= n.logs[j].term <= n.logs[idx].term <= n.term
  {
    RunLogged(r, k);
    LogFacts(r.states[k], a);
    TermsSorted(r.states[k].members[a].node.logs, r.states[k].reigns, j, idx);
  }
}
