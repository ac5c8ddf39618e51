/**
 Leader completeness (section 5.4.3 of the Raft paper): once a majority has acknowledged, while
 in term t, an entry that the leader of t wrote in t, the leader of every later term holds it.
 */
module LeaderCompleteness {
  import opened Messages
  import opened Replica
  import opened Cluster
  import opened Quorums
  import opened ElectionSafety
  import opened Lineage
  import opened LogSafety
  import opened LogSteps

  ghost predicate AckedBy(c: Cluster, q: set<Id>, t: nat, i: nat) {
    && q <= c.members.Keys && |q| * 2 > |c.members|
    && forall v :: v in q ==> (v, t) in c.acks && c.acks[(v, t)] > i
  }

  /** Index `i` holds an entry of term `t` in the log of term t's leader, and a majority acknowledged it in term t. */
  ghost predicate Chosen(c: Cluster, t: nat, i: nat) {
    && t in c.reigns && i < |c.reigns[t].log| && c.reigns[t].log[i].term == t
    && exists q: set<Id> :: AckedBy(c, q, t, i)
  }

  /** The voter's log had the entry, so its last term is at least `t`. */
  lemma LastTermAtLeast(l: Log, p: Log, rs: map<nat, Reign>)
    requires Traced(l, rs) && ReignsTraced(rs) && |p| > 0 && p <= l
    ensures LastLog(l).term >= p[|p| - 1].term && LastLog(l).index == |l| - 1
  {
    assert l[|p| - 1] == p[|p| - 1];
    TermsSorted(l, rs, |p| - 1, |l| - 1);
  }

  /** A log ends inside the log of the leader of its last term. */
  lemma EndsInReign(l: Log, rs: map<nat, Reign>)
    requires Traced(l, rs) && |l| > 0
    ensures LastLog(l).term in rs && l <= rs[LastLog(l).term].log
  {
    assert l[..|l|] == l;
  }

  /** A candidate at least as up to date as a voter that holds `p` holds `p` too. */
  lemma CandidateHolds(p: Log, mine: Log, theirs: Log, rs: map<nat, Reign>, t: nat)
    requires ReignsTraced(rs) && Traced(mine, rs) && Traced(theirs, rs)
    requires |p| > 0 && p[|p| - 1].term == t && TermsWithin(p, t)
    requires p <= mine && UpToDate(LastLog(theirs), LastLog(mine))
    requires LastLog(theirs).term in rs && LastLog(theirs).term > t ==> p <= rs[LastLog(theirs).term].log
    ensures p <= theirs
  {
    LastTermAtLeast(mine, p, rs);
    assert t >= 1;
    assert |theirs| > 0;
    EndsInReign(mine, rs);
    EndsInReign(theirs, rs);
    var last := LastLog(theirs).term;
    if last == LastLog(mine).term {
      assert mine <= theirs;
    } else {
      assert theirs[|theirs| - 1] == rs[last].log[|theirs| - 1];
    }
  }

  /** A voter of a later leader that had acknowledged the entry still held it when it voted. */
  lemma VoterHeld(c: Cluster, t: nat, i: nat, t': nat, v: Id)
    requires Sound(c) && Logged(c) && t in c.reigns && t' in c.reigns && t < t' && i < |c.reigns[t].log|
    requires v in c.reigns[t'].voters && (v, t) in c.acks && c.acks[(v, t)] > i
    requires Unchallenged(c.reigns, t, i + 1, t')
    ensures VotedFor(c, v, t', c.reigns[t'].leader) && c.reigns[t].log[..i + 1] <= c.grants[(v, t')].log
  {
    assert ReignOk(c, t');
    assert VoterKept(c, v, t');
    hide Sound, Logged;
  }

  lemma CandidateOf(c: Cluster, v: Id, t': nat)
    requires Sound(c) && Logged(c) && t' in c.reigns && VotedFor(c, v, t', c.reigns[t'].leader)
    ensures var lead := c.reigns[t'].leader;
            && VotedFor(c, lead, t', lead)
            && Traced(c.grants[(lead, t')].log, c.reigns) && TermsWithin(c.grants[(lead, t')].log, t' - 1)
            && Traced(c.grants[(v, t')].log, c.reigns)
            && UpToDate(LastLog(c.grants[(lead, t')].log), LastLog(c.grants[(v, t')].log))
            && c.grants[(lead, t')].log <= c.reigns[t'].log
  {
    assert ReignBaseOk(c, t');
    hide Sound, Logged, Traced;
    GrantFact(c, v, t');
    GrantFact(c, c.reigns[t'].leader, t');
  }

  /** The log with which the leader of term `t` asked for votes. */
  ghost predicate WonWith(c: Cluster, t: nat, log: Log) {
    t in c.reigns && VotedFor(c, c.reigns[t].leader, t, c.reigns[t].leader)
      && c.grants[(c.reigns[t].leader, t)].log == log
  }

  lemma LogHeldByCandidate(c: Cluster, t: nat, i: nat, t': nat, v: Id) returns (won: Log)
    requires Sound(c) && Logged(c) && t in c.reigns && t' in c.reigns && t < t'
    requires i < |c.reigns[t].log| && c.reigns[t].log[i].term == t
    requires v in c.reigns[t'].voters && (v, t) in c.acks && c.acks[(v, t)] > i
    requires Unchallenged(c.reigns, t, i + 1, t')
    ensures WonWith(c, t', won) && c.reigns[t].log[..i + 1] <= won <= c.reigns[t'].log
  {
    hide Sound, Logged, Traced, ReignsTraced, UpToDate, TermsWithin;
    VoterHeld(c, t, i, t', v);
    CandidateOf(c, v, t');
    var lead := ReignFact(c, t');
    LogFacts(c, lead);
    won := c.grants[(c.reigns[t'].leader, t')].log;
    var p := c.reigns[t].log[..i + 1];
    OwnTerms(c.reigns, t, i + 1);
    LastTermBelow(won, t' - 1);
    CandidateHolds(p, c.grants[(v, t')].log, won, c.reigns, t);
  }

  lemma ReignFact(c: Cluster, t: nat) returns (lead: Id)
    requires Sound(c) && t in c.reigns
    ensures lead == c.reigns[t].leader && lead in c.members
    ensures c.reigns[t].voters <= c.members.Keys && |c.reigns[t].voters| * 2 > |c.members.Keys|
  {
    lead := c.reigns[t].leader;
    assert ReignOk(c, t);
  }

  lemma OwnTerms(rs: map<nat, Reign>, t: nat, n: nat)
    requires ReignsTraced(rs) && t in rs && n <= |rs[t].log|
    ensures TermsWithin(rs[t].log[..n], t)
  {
    hide Traced;
  }

  lemma LastTermBelow(l: Log, hi: nat)
    requires TermsWithin(l, hi)
    ensures LastLog(l).term <= hi
  {
  }

  /** Every later leader won with a log that has the chosen prefix, by induction over the leaders in between. */
  lemma {:induction false} ChosenPersists(c: Cluster, t: nat, i: nat, t': nat) returns (won: Log)
    requires Sound(c) && Logged(c) && Chosen(c, t, i) && t' in c.reigns && t < t'
    ensures WonWith(c, t', won) && c.reigns[t].log[..i + 1] <= won <= c.reigns[t'].log
    decreases t'
  {
    hide Sound, Logged;
    forall u | u in c.reigns && t < u < t' ensures c.reigns[t].log[..i + 1] <= c.reigns[u].log {
      var w := ChosenPersists(c, t, i, u);
    }
    hide WonWith;
    assert Unchallenged(c.reigns, t, i + 1, t');
    var q: set<Id> :| AckedBy(c, q, t, i);
    var lead := ReignFact(c, t');
    assert |c.members| == |c.members.Keys|;
    var v := MajoritiesMeet(c.members.Keys, q, c.reigns[t'].voters);
    hide Unchallenged;
    won := LogHeldByCandidate(c, t, i, t', v);
  }

  // ---------------------------------------------------------------- whole runs

  /** Votes, reigns and acknowledgements only accumulate along a restart-free run. */
  ghost predicate HistoryGrows(c: Cluster, c': Cluster) {
    && Extends(c, c')
    && (forall t :: t in c.reigns ==>
          t in c'.reigns && c'.reigns[t].leader == c.reigns[t].leader && c.reigns[t].log <= c'.reigns[t].log)
    && (forall k :: k in c.acks ==> k in c'.acks && c'.acks[k] >= c.acks[k])
  }

  lemma ChosenStays(c: Cluster, c': Cluster, t: nat, i: nat)
    requires Chosen(c, t, i) && HistoryGrows(c, c')
    ensures Chosen(c', t, i) && c'.reigns[t].log[..i + 1] == c.reigns[t].log[..i + 1]
  {
    var q: set<Id> :| AckedBy(c, q, t, i);
    assert |c.members| == |c.members.Keys| == |c'.members|;
    assert AckedBy(c', q, t, i);
  }

  lemma HistoryGrowsOn(a: Cluster, b: Cluster, c: Cluster)
    requires HistoryGrows(a, b) && HistoryGrows(b, c)
    ensures HistoryGrows(a, c)
  {
    forall t | t in a.reigns
      ensures t in c.reigns && c.reigns[t].leader == a.reigns[t].leader && a.reigns[t].log <= c.reigns[t].log
    {
      assert a.reigns[t].log <= b.reigns[t].log <= c.reigns[t].log;
    }
  }

  lemma EvolvingHistoryGrows(c: Cluster, c': Cluster, i: Id)
    requires Evolves(c, c', i)
    ensures HistoryGrows(c, c')
  {
    forall t | t in c.reigns
      ensures t in c'.reigns && c'.reigns[t].leader == c.reigns[t].leader && c.reigns[t].log <= c'.reigns[t].log
    {
      assert Appended(t, c.reigns[t], c'.reigns[t]);
    }
  }

  lemma HistoryItself(c: Cluster)
    ensures HistoryGrows(c, c)
  {
  }

  lemma RunStepGrows(r: Run, k: nat)
    requires r.Valid() && r.RestartFree() && k < |r.steps|
    ensures HistoryGrows(r.states[k], r.states[k + 1])
  {
    hide Sound, Logged, Evolves, Next, Init, HistoryGrows;
    RunLogged(r, k);
    StepLogged(r.states[k], r.steps[k]);
    EvolvingHistoryGrows(r.states[k], r.states[k + 1], Actor(r.steps[k]));
  }

  lemma {:induction false} RunHistoryGrows(r: Run, j: nat, k: nat)
    requires r.Valid() && r.RestartFree() && j <= k < |r.states|
    ensures HistoryGrows(r.states[j], r.states[k])
    decreases k
  {
    hide HistoryGrows, Init, Next, Enabled;
    if j == k {
      HistoryItself(r.states[j]);
    } else {
      RunHistoryGrows(r, j, k - 1);
      RunStepGrows(r, k - 1);
      HistoryGrowsOn(r.states[j], r.states[k - 1], r.states[k]);
    }
  }

  /**
   If an entry of term `t` is acknowledged by a majority in term `t` at any moment `j` of a restart-free
   run, then at every moment `k`, any leader of a later term has that entry, and all before it, in its log.
   */
  lemma LeaderCompleteness(r: Run, j: nat, k: nat, t: nat, i: nat, lead: Id)
    requires r.Valid() && r.RestartFree() && j < |r.states| && k < |r.states|
    requires Chosen(r.states[j], t, i)
    requires lead in r.states[k].members && r.states[k].members[lead].node.role == Leader
    requires r.states[k].members[lead].node.term > t
    ensures r.states[j].reigns[t].log[..i + 1] <= r.states[k].members[lead].node.logs
  {
    hide Sound, Logged, Chosen, Init, Next, Enabled;
    RunLogged(r, k);
    RunLogged(r, j);
    LeaderFacts(r.states[k], lead);
    if j <= k {
      RunHistoryGrows(r, j, k);
      ChosenStays(r.states[j], r.states[k], t, i);
      var won := ChosenPersists(r.states[k], t, i, r.states[k].members[lead].node.term);
    } else {
      RunHistoryGrows(r, k, j);
      var won := ChosenPersists(r.states[j], t, i, r.states[k].members[lead].node.term);
    }
  }

  lemma LeaderFacts(c: Cluster, i: Id)
    requires Sound(c) && Logged(c) && i in c.members && c.members[i].node.role == Leader
    ensures var t := c.members[i].node.term;
            && t in c.reigns && c.reigns[t].leader == i && c.reigns[t].log == c.members[i].node.logs
            && VotedFor(c, i, t, i) && c.grants[(i, t)].log <= c.members[i].node.logs
  {
    assert NodeLogOk(c, i) && LeaderOk(c, i);
    assert ReignBaseOk(c, c.members[i].node.term);
    hide Sound, Logged;
  }
}
