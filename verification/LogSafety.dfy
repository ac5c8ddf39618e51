/**
 What every restart-free run keeps about logs: all logs are traced to the leaders that wrote
 them, and a node that accepted a leader's prefix holds it until some later leader contradicts it.
 */
module LogSafety {
  import opened Messages
  import opened Replica
  import opened Cluster
  import opened ElectionSafety
  import opened Lineage

  // ---------------------------------------------------------------- the invariant

  ghost predicate NodeLogOk(c: Cluster, i: Id)
    requires i in c.members
  {
    var n := c.members[i].node;
    && Traced(n.logs, c.reigns)
    && TermsWithin(n.logs, n.term)
    && (n.role == Leader ==> n.term in c.reigns && n.logs == c.reigns[n.term].log)
    && (n.role == Candidate ==>
          n.term in c.reigns || (VotedFor(c, i, n.term, i) && n.logs == c.grants[(i, n.term)].log))
  }

  /** A vote was cast for a candidate whose log, when it asked, was at least as up to date as the voter's. */
  ghost predicate GrantLogOk(c: Cluster, v: Id, t: nat)
    requires (v, t) in c.grants
  {
    var g := c.grants[(v, t)];
    && t >= 1
    && Traced(g.log, c.reigns)
    && TermsWithin(g.log, t)
    && (v == g.cand ==> TermsWithin(g.log, t - 1))
    && VotedFor(c, g.cand, t, g.cand)
    && UpToDate(LastLog(c.grants[(g.cand, t)].log), LastLog(g.log))
  }

  ghost predicate ReignBaseOk(c: Cluster, t: nat)
    requires t in c.reigns
  {
    var r := c.reigns[t];
    t >= 1 && VotedFor(c, r.leader, t, r.leader) && c.grants[(r.leader, t)].log <= r.log
  }

  ghost predicate LogMessageOk(c: Cluster, m: Message) {
    match m
    case VoteRequest(to, vote) =>
      && VotedFor(c, vote.candidateId, vote.term, vote.candidateId)
      && LastLog(c.grants[(vote.candidateId, vote.term)].log) == LastEntry(vote.lastLogIndex, vote.lastLogTerm)
    case AppendRequest(to, req) =>
      BuiltBy(req, c.reigns) && to != req.leader
    case AppendReply(leader, from, req, reply) =>
      BuiltBy(req, c.reigns) && leader == req.leader && from != leader &&
      (reply.success ==>
         reply.term == req.term && (from, req.term) in c.acks && c.acks[(from, req.term)] >= SentLength(req))
    case _ => true
  }

  ghost predicate AckOk(c: Cluster, v: Id, t: nat)
    requires (v, t) in c.acks
  {
    && v in c.members && t in c.reigns
    && t <= c.members[v].node.term
    && c.acks[(v, t)] <= |c.reigns[t].log|
  }

  /** Every leader of a term strictly between `t` and `hi` has the first `k` entries of term t's leader. */
  ghost predicate Unchallenged(rs: map<nat, Reign>, t: nat, k: nat, hi: nat)
    requires t in rs && k <= |rs[t].log|
  {
    forall t' :: t' in rs && t < t' < hi ==> rs[t].log[..k] <= rs[t'].log
  }

  /**
   `log`, a log of node `v` from before term `hi`, holds all that `v` acknowledged and no leader before `hi`
   contradicts.
   */
  ghost predicate Held(c: Cluster, v: Id, log: Log, hi: nat) {
    forall t, k: nat ::
      t < hi && (v, t) in c.acks && t in c.reigns && k <= c.acks[(v, t)] && k <= |c.reigns[t].log| &&
      Unchallenged(c.reigns, t, k, hi) ==>
        c.reigns[t].log[..k] <= log
  }

  ghost predicate Kept(c: Cluster, i: Id)
    requires i in c.members
  {
    Held(c, i, c.members[i].node.logs, c.members[i].node.term + 1)
  }

  /** Votes that decided, or may yet decide, an election. */
  ghost predicate VoterKept(c: Cluster, v: Id, t: nat)
    requires (v, t) in c.grants
  {
    t !in c.reigns || v in c.reigns[t].voters ==> Held(c, v, c.grants[(v, t)].log, t)
  }

  ghost predicate Logged(c: Cluster) {
    && ReignsTraced(c.reigns)
    && (forall i :: i in c.members ==> NodeLogOk(c, i))
    && (forall i :: i in c.members ==> Kept(c, i))
    && (forall v, t :: (v, t) in c.grants ==> GrantLogOk(c, v, t))
    && (forall v, t :: (v, t) in c.grants ==> VoterKept(c, v, t))
    && (forall t :: t in c.reigns ==> ReignBaseOk(c, t))
    && (forall v, t :: (v, t) in c.acks ==> AckOk(c, v, t))
    && (forall m :: m in c.net ==> LogMessageOk(c, m))
  }

  // ---------------------------------------------------------------- how states evolve

  /** A reign's log changes only when its leader appends an entry of its own term. */
  ghost predicate Appended(t: nat, r: Reign, r': Reign) {
    && r'.leader == r.leader && r'.voters == r.voters
    && (r'.log == r.log || (|r'.log| == |r.log| + 1 && r.log <= r'.log && r'.log[|r.log|].term == t))
  }

  ghost predicate ReignsEvolve(rs: map<nat, Reign>, rs': map<nat, Reign>, i: Id) {
    forall t :: t in rs ==>
      t in rs' && Appended(t, rs[t], rs'[t]) && (rs'[t].log != rs[t].log ==> rs[t].leader == i)
  }

  /** Only `i` acknowledges anything, and only in its current term. */
  ghost predicate AcksEvolve(c: Cluster, c': Cluster, i: Id)
    requires i in c'.members
  {
    && (forall k :: k in c.acks ==> k in c'.acks && c'.acks[k] >= c.acks[k])
    && (forall v, t :: (v, t) in c'.acks && (v != i || t != c'.members[i].node.term) ==>
          (v, t) in c.acks && c'.acks[(v, t)] == c.acks[(v, t)])
  }

  ghost predicate Evolves(c: Cluster, c': Cluster, i: Id) {
    Moves(c, c', i) && ReignsEvolve(c.reigns, c'.reigns, i) && AcksEvolve(c, c', i)
  }

  lemma EvolvingReignsGrow(rs: map<nat, Reign>, rs': map<nat, Reign>, i: Id)
    requires ReignsEvolve(rs, rs', i)
    ensures ReignsGrow(rs, rs')
  {
  }

  lemma UnchallengedBefore(rs: map<nat, Reign>, rs': map<nat, Reign>, i: Id, t: nat, k: nat, hi: nat)
    requires ReignsEvolve(rs, rs', i) && ReignsTraced(rs)
    requires t in rs && k <= |rs[t].log|
    ensures t in rs' && rs'[t].log[..k] == rs[t].log[..k]
    ensures k <= |rs'[t].log| && Unchallenged(rs', t, k, hi) ==> Unchallenged(rs, t, k, hi)
  {
    assert Appended(t, rs[t], rs'[t]);
    var p := rs[t].log[..k];
    if Unchallenged(rs', t, k, hi) {
      forall t' | t' in rs && t < t' < hi ensures p <= rs[t'].log {
        assert Appended(t', rs[t'], rs'[t']);
        assert p <= rs'[t'].log;
        if rs'[t'].log != rs[t'].log {
          var e := rs'[t'].log[|rs[t'].log|];
          assert rs'[t'].log == rs[t'].log + [e];
          PrefixNotCompleted(p, rs[t'].log, e, t);
        }
      }
    }
  }

  /** What a log held, it still holds: later appends cannot remove a contradiction. */
  lemma HeldStays(c: Cluster, c': Cluster, i: Id, v: Id, log: Log, hi: nat)
    requires Evolves(c, c', i) && ReignsTraced(c.reigns) && Held(c, v, log, hi)
    requires forall t :: (v, t) in c.acks ==> AckOk(c, v, t)
    requires v != i || hi <= c'.members[i].node.term
    ensures Held(c', v, log, hi)
  {
    hide Moves, ReignsTraced;
    forall t, k: nat |
      t < hi && (v, t) in c'.acks && t in c'.reigns && k <= c'.acks[(v, t)] && k <= |c'.reigns[t].log| &&
      Unchallenged(c'.reigns, t, k, hi)
      ensures c'.reigns[t].log[..k] <= log
    {
      assert (v, t) in c.acks && AckOk(c, v, t);
      UnchallengedBefore(c.reigns, c'.reigns, i, t, k, hi);
    }
  }

  // ---------------------------------------------------------------- carrying the invariant over a step

  lemma NodesCarry(c: Cluster, c': Cluster, i: Id)
    requires Evolves(c, c', i)
    requires forall j :: j in c.members ==> NodeLogOk(c, j)
    requires forall j :: j in c'.members ==> LeaderOk(c', j)
    requires NodeLogOk(c', i)
    ensures forall j :: j in c'.members ==> NodeLogOk(c', j)
  {
    EvolvingReignsGrow(c.reigns, c'.reigns, i);
    forall j | j in c'.members ensures NodeLogOk(c', j) {
      assert NodeLogOk(c, j) && LeaderOk(c', j);
      TracedGrows(c.members[j].node.logs, c.reigns, c'.reigns);
    }
  }

  lemma KeptCarry(c: Cluster, c': Cluster, i: Id)
    requires Evolves(c, c', i) && ReignsTraced(c.reigns)
    requires forall j :: j in c.members ==> Kept(c, j)
    requires forall v, t :: (v, t) in c.acks ==> AckOk(c, v, t)
    requires Kept(c', i)
    ensures forall j :: j in c'.members ==> Kept(c', j)
  {
    hide AckOk, ReignsTraced, Held;
    forall j | j in c'.members ensures Kept(c', j) {
      if j != i {
        assert Kept(c, j);
        HeldStays(c, c', i, j, c.members[j].node.logs, c.members[j].node.term + 1);
      }
    }
  }

  ghost predicate NewGrantLogsOk(c: Cluster, c': Cluster) {
    forall v, t :: (v, t) in c'.grants && (v, t) !in c.grants ==> GrantLogOk(c', v, t) && VoterKept(c', v, t)
  }

  lemma GrantLogCarries(c: Cluster, c': Cluster, i: Id, v: Id, t: nat)
    requires Evolves(c, c', i) && (v, t) in c.grants && GrantLogOk(c, v, t)
    ensures (v, t) in c'.grants && GrantLogOk(c', v, t)
  {
    EvolvingReignsGrow(c.reigns, c'.reigns, i);
    TracedGrows(c.grants[(v, t)].log, c.reigns, c'.reigns);
  }

  lemma VoterKeptCarries(c: Cluster, c': Cluster, i: Id, v: Id, t: nat)
    requires Evolves(c, c', i) && ReignsTraced(c.reigns)
    requires (v, t) in c.grants && VoterKept(c, v, t) && GrantOk(c, v, t)
    requires forall v, t :: (v, t) in c.acks ==> AckOk(c, v, t)
    ensures (v, t) in c'.grants && VoterKept(c', v, t)
  {
    hide ReignsTraced, Held, AckOk;
    if t !in c'.reigns || v in c'.reigns[t].voters {
      HeldStays(c, c', i, v, c.grants[(v, t)].log, t);
    }
  }

  lemma GrantLogsCarry(c: Cluster, c': Cluster, i: Id)
    requires Evolves(c, c', i) && ReignsTraced(c.reigns)
    requires forall v, t :: (v, t) in c.grants ==> GrantLogOk(c, v, t) && VoterKept(c, v, t) && GrantOk(c, v, t)
    requires forall v, t :: (v, t) in c.acks ==> AckOk(c, v, t)
    requires NewGrantLogsOk(c, c')
    ensures forall v, t :: (v, t) in c'.grants ==> GrantLogOk(c', v, t) && VoterKept(c', v, t)
  {
    hide Evolves, GrantLogOk, VoterKept, GrantOk, AckOk, ReignsTraced;
    forall v, t | (v, t) in c'.grants ensures GrantLogOk(c', v, t) && VoterKept(c', v, t) {
      if (v, t) in c.grants {
        GrantLogCarries(c, c', i, v, t);
        VoterKeptCarries(c, c', i, v, t);
      }
    }
  }

  ghost predicate NewReignLogsOk(c: Cluster, c': Cluster) {
    forall t :: t in c'.reigns && t !in c.reigns ==> ReignBaseOk(c', t)
  }

  lemma ReignBasesCarry(c: Cluster, c': Cluster, i: Id)
    requires Evolves(c, c', i) && NewReignLogsOk(c, c')
    requires forall t :: t in c.reigns ==> ReignBaseOk(c, t)
    ensures forall t :: t in c'.reigns ==> ReignBaseOk(c', t)
  {
    forall t | t in c'.reigns ensures ReignBaseOk(c', t) {
      if t in c.reigns { assert ReignBaseOk(c, t) && Appended(t, c.reigns[t], c'.reigns[t]); }
    }
  }

  ghost predicate NewAcksOk(c': Cluster, i: Id)
    requires i in c'.members
  {
    (i, c'.members[i].node.term) in c'.acks ==> AckOk(c', i, c'.members[i].node.term)
  }

  lemma AcksCarry(c: Cluster, c': Cluster, i: Id)
    requires Evolves(c, c', i) && NewAcksOk(c', i)
    requires forall v, t :: (v, t) in c.acks ==> AckOk(c, v, t)
    ensures forall v, t :: (v, t) in c'.acks ==> AckOk(c', v, t)
  {
    forall v, t | (v, t) in c'.acks ensures AckOk(c', v, t) {
      if v != i || t != c'.members[i].node.term {
        assert AckOk(c, v, t) && Appended(t, c.reigns[t], c'.reigns[t]);
      }
    }
  }

  ghost predicate NewLogMessagesOk(c: Cluster, c': Cluster) {
    forall m :: m in c'.net && m !in c.net ==> LogMessageOk(c', m)
  }

  lemma BuiltByCarries(req: AppendEntries, rs: map<nat, Reign>, rs': map<nat, Reign>, i: Id)
    requires BuiltBy(req, rs) && ReignsEvolve(rs, rs', i)
    ensures BuiltBy(req, rs') && SentLog(req, rs') == SentLog(req, rs)
  {
    assert Appended(req.term, rs[req.term], rs'[req.term]);
  }

  lemma LogMessagesCarry(c: Cluster, c': Cluster, i: Id)
    requires Evolves(c, c', i) && NewLogMessagesOk(c, c')
    requires forall m :: m in c.net ==> LogMessageOk(c, m)
    ensures forall m :: m in c'.net ==> LogMessageOk(c', m)
  {
    forall m | m in c'.net ensures LogMessageOk(c', m) {
      if m in c.net {
        assert LogMessageOk(c, m);
        hide BuiltBy;
        if m.AppendRequest? || m.AppendReply? { BuiltByCarries(m.req, c.reigns, c'.reigns, i); }
      }
    }
  }

  /** A step keeps the invariant if what is new about it is in order. */
  lemma LogCarry(c: Cluster, c': Cluster, i: Id)
    requires Sound(c) && Sound(c') && Logged(c) && Evolves(c, c', i)
    requires ReignsTraced(c'.reigns) && NodeLogOk(c', i) && Kept(c', i) && NewAcksOk(c', i)
    requires NewGrantLogsOk(c, c') && NewReignLogsOk(c, c') && NewLogMessagesOk(c, c')
    ensures Logged(c')
  {
    hide Evolves, ReignsTraced, NodeLogOk, Kept, NewAcksOk, NewGrantLogsOk, NewReignLogsOk, NewLogMessagesOk;
    hide GrantLogOk, VoterKept, GrantOk, AckOk, ReignBaseOk, LogMessageOk, MemberOk, TallyOk, ReignOk, LeaderOk;
    NodesCarry(c, c', i);
    KeptCarry(c, c', i);
    GrantLogsCarry(c, c', i);
    ReignBasesCarry(c, c', i);
    AcksCarry(c, c', i);
    LogMessagesCarry(c, c', i);
  }
}
