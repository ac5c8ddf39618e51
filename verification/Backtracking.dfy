/**
 Catching a follower up: what one request does to a follower's log, and why rejected requests
 always move the leader's next index down until one is accepted.
 */
module Backtracking {
  import opened Messages
  import opened Replica
  import opened Cluster
  import opened Lineage
  import opened ElectionSafety
  import opened LogSafety
  import opened LogSteps
  import opened LeaderCompleteness
  import Quorums

  // ---------------------------------------------------------------- one request

  /** A follower in the request's term keeps every prefix it shares with the sender, however old the request. */
  lemma AcknowledgedNeverErased(n: Node, req: AppendEntries, rs: map<nat, Reign>, k: nat)
    requires Traced(n.logs, rs) && ReignsTraced(rs) && BuiltBy(req, rs)
    requires k <= |rs[req.term].log| && rs[req.term].log[..k] <= n.logs
    ensures rs[req.term].log[..k] <= OnAppendEntries(n, req).node.logs
  {
    if Accepts(n, req) {
      AcceptedLogs(n, req, rs);
      SentIsPrefix(req, rs);
      hide OnAppendEntries, Traced, ReignsTraced, Accepts, BuiltBy, SentLog;
      AdoptKeeps(rs[req.term].log[..k], n.logs, SentLog(req, rs), rs[req.term].log);
    } else {
      RefusedLogs(n, req);
    }
  }

  lemma SentIsPrefix(req: AppendEntries, rs: map<nat, Reign>)
    requires BuiltBy(req, rs)
    ensures req.term in rs && SentLog(req, rs) <= rs[req.term].log
  {
  }

  lemma RefusedLogs(n: Node, req: AppendEntries)
    requires !Accepts(n, req)
    ensures OnAppendEntries(n, req).node.logs == n.logs
  {
    hide Splice;
  }

  lemma AcceptedLogs(n: Node, req: AppendEntries, rs: map<nat, Reign>)
    requires Traced(n.logs, rs) && ReignsTraced(rs) && BuiltBy(req, rs) && Accepts(n, req)
    ensures OnAppendEntries(n, req).node.logs == Adopt(n.logs, SentLog(req, rs))
    ensures OnAppendEntries(n, req).node.term == req.term && OnAppendEntries(n, req).node.role != Dead
    ensures OnAppendEntries(n, req).reply == Some(AppendEntriesReply(req.term, true, None, None))
  {
    SpliceIsAdopt(n.logs, req, rs);
    hide Splice, Traced, ReignsTraced, BuiltBy;
  }

  /** Handling the same request again leaves the log unchanged and is accepted again. */
  lemma RepeatIsIdle(n: Node, req: AppendEntries, rs: map<nat, Reign>)
    requires Traced(n.logs, rs) && ReignsTraced(rs) && BuiltBy(req, rs) && Accepts(n, req)
    ensures var n1 := OnAppendEntries(n, req).node;
            Accepts(n1, req) && OnAppendEntries(n1, req).node.logs == n1.logs
  {
    var n1 := OnAppendEntries(n, req).node;
    var sent := SentLog(req, rs);
    AcceptedLogs(n, req, rs);
    TracedPrefix(rs[req.term].log, rs, SentLength(req));
    AdoptTraced(n.logs, sent, rs);
    hide OnAppendEntries, Traced, ReignsTraced;
    PrevInSent(n1.logs, req, rs);
    AcceptedLogs(n1, req, rs);
  }

  lemma PrevInSent(log: Log, req: AppendEntries, rs: map<nat, Reign>)
    requires BuiltBy(req, rs) && SentLog(req, rs) <= log
    ensures PrevOk(log, req)
  {
    if req.prevLogIndex.Some? {
      assert SentLog(req, rs)[req.prevLogIndex.value] == log[req.prevLogIndex.value];
    }
  }

  /** In every restart-free run a node holds what it has acknowledged in its current term. */
  lemma AcknowledgedHeld(r: Run, k: nat, a: Id)
    requires r.Valid() && r.RestartFree() && k < |r.states| && a in r.states[k].members
    requires (a, r.states[k].members[a].node.term) in r.states[k].acks
    ensures var c := r.states[k]; var t := c.members[a].node.term;
            && t in c.reigns && c.acks[(a, t)] <= |c.reigns[t].log|
            && c.reigns[t].log[..c.acks[(a, t)]] <= c.members[a].node.logs
  {
    var c := r.states[k];
    var t := c.members[a].node.term;
    hide Sound, Logged, Init, Enabled, Next;
    RunLogged(r, k);
    LogFacts(c, a);
    AckFact(c, a, t);
    hide NodeLogOk, ReignsTraced;
    assert Unchallenged(c.reigns, t, c.acks[(a, t)], t + 1);
  }

  lemma BuiltByLater(req: AppendEntries, c: Cluster, c': Cluster)
    requires BuiltBy(req, c.reigns) && HistoryGrows(c, c')
    ensures BuiltBy(req, c'.reigns) && SentLog(req, c'.reigns) == SentLog(req, c.reigns)
  {
    assert c.reigns[req.term].log <= c'.reigns[req.term].log;
  }

  lemma AcceptingAcks(c: Cluster, a: Id, req: AppendEntries)
    requires a in c.members && Accepts(c.members[a].node, req)
    ensures var acks := AfterAppendRequest(c, a, req).acks;
            (a, req.term) in acks && acks[(a, req.term)] >= SentLength(req)
  {
    AcceptingNode(c.members[a].node, req);
    hide OnAppendEntries;
  }

  /** A node that holds all that a request carried accepts it and keeps its log. */
  lemma HeldIsIdle(n: Node, req: AppendEntries, rs: map<nat, Reign>)
    requires Traced(n.logs, rs) && ReignsTraced(rs) && BuiltBy(req, rs) && SentLog(req, rs) <= n.logs
    requires n.role != Dead && n.term == req.term
    ensures Accepts(n, req) && OnAppendEntries(n, req).node.logs == n.logs
  {
    PrevInSent(n.logs, req, rs);
    AcceptedLogs(n, req, rs);
    hide OnAppendEntries;
  }

  /**
   A request that was accepted at moment `j` is accepted again at any later moment of its term, and changes nothing.
   */
  lemma RedeliveryIsIdle(r: Run, j: nat, k: nat, a: Id, req: AppendEntries)
    requires r.Valid() && r.RestartFree() && j < |r.steps| && j < k < |r.states|
    requires r.steps[j] == Deliver(AppendRequest(a, req)) && a in r.states[j].members
    requires Accepts(r.states[j].members[a].node, req) && a in r.states[k].members
    requires r.states[k].members[a].node.term == req.term && r.states[k].members[a].node.role != Dead
    ensures var n := r.states[k].members[a].node;
            Accepts(n, req) && OnAppendEntries(n, req).node.logs == n.logs
  {
    hide Sound, Logged, Init, Enabled, Next, Accepts, BuiltBy, OnAppendEntries, Kept, Traced, ReignsTraced, TermsWithin;
    var c := r.states[k];
    StillAckedAt(r, j, k, a, req);
    AcknowledgedHeld(r, k, a);
    RunLogged(r, k);
    LogFacts(c, a);
    SentIsHeld(c.reigns, req, c.acks[(a, req.term)], c.members[a].node.logs);
    HeldIsIdle(c.members[a].node, req, c.reigns);
  }

  lemma StillAckedAt(r: Run, j: nat, k: nat, a: Id, req: AppendEntries)
    requires r.Valid() && r.RestartFree() && j < |r.steps| && j < k < |r.states| && a in r.states[j].members
    requires r.steps[j] == Deliver(AppendRequest(a, req)) && Accepts(r.states[j].members[a].node, req)
    ensures BuiltBy(req, r.states[k].reigns) && Acked(r.states[k], a, req)
  {
    hide Init, Enabled, Next, HistoryGrows, Accepts, BuiltBy, Acked;
    AcceptedAt(r, j, a, req);
    RunHistoryGrows(r, j, k);
    RunHistoryGrows(r, j + 1, k);
    BuiltByLater(req, r.states[j], r.states[k]);
    AckedLater(r.states[j + 1], r.states[k], a, req);
  }

  lemma SentIsHeld(rs: map<nat, Reign>, req: AppendEntries, acked: nat, logs: Log)
    requires BuiltBy(req, rs) && SentLength(req) <= acked <= |rs[req.term].log| && rs[req.term].log[..acked] <= logs
    ensures SentLog(req, rs) <= logs
  {
    assert SentLog(req, rs) == rs[req.term].log[..acked][..SentLength(req)];
  }

  lemma AcceptedAt(r: Run, j: nat, a: Id, req: AppendEntries)
    requires r.Valid() && r.RestartFree() && j < |r.steps| && a in r.states[j].members
    requires r.steps[j] == Deliver(AppendRequest(a, req)) && Accepts(r.states[j].members[a].node, req)
    ensures BuiltBy(req, r.states[j].reigns) && Acked(r.states[j + 1], a, req)
  {
    hide Sound, Logged, Init, Accepts, BuiltBy, AfterAppendRequest;
    RunLogged(r, j);
    MessageFact(r.states[j], AppendRequest(a, req));
    AcceptingAcks(r.states[j], a, req);
  }

  ghost predicate Acked(c: Cluster, a: Id, req: AppendEntries) {
    (a, req.term) in c.acks && c.acks[(a, req.term)] >= SentLength(req)
  }

  lemma AckedLater(c: Cluster, c': Cluster, a: Id, req: AppendEntries)
    requires HistoryGrows(c, c') && Acked(c, a, req)
    ensures Acked(c', a, req)
  {
  }

  // ---------------------------------------------------------------- rejections

  /**
   A rejection always moves the next index strictly down. Where the follower names a conflicting term that the
   leader also has, this needs both logs to be traced to the same leaders: equal terms at different indices do
   not meet across the conflict.
   */
  lemma BacktrackDescends(lead: Log, follow: Log, rs: map<nat, Reign>, req: AppendEntries, ni: nat, term: nat)
    requires Traced(lead, rs) && Traced(follow, rs)
    requires 1 <= ni <= |lead| && req.prevLogIndex == Some(ni - 1) && req.prevLogTerm == Some(lead[ni - 1].term)
    requires !PrevOk(follow, req)
    ensures Backtrack(lead, Conflict(follow, term, req)) < ni
  {
    if ni - 1 < |follow| {
      var last := LastOfTerm(lead, follow[ni - 1].term, |lead|);
      if last.Some? { SameLeaderBelow(lead, follow, rs, ni - 1, last.value); }
    }
  }

  /** An entry of the follower's term further up in the leader's log puts that term's leader at the conflict too. */
  lemma SameLeaderBelow(lead: Log, follow: Log, rs: map<nat, Reign>, idx: nat, last: nat)
    requires Traced(lead, rs) && Traced(follow, rs)
    requires idx < |follow| && idx < |lead| && last < |lead| && lead[last].term == follow[idx].term
    ensures last >= idx ==> lead[idx] == follow[idx]
  {
    var t := follow[idx].term;
    assert lead[..last + 1] <= rs[t].log && follow[..idx + 1] <= rs[t].log;
    if last >= idx {
      assert lead[..last + 1][idx] == rs[t].log[idx] == follow[..idx + 1][idx];
    }
  }

  /** Tracing is what makes it true: Log Matching between the two logs alone does not rule out going up. */
  lemma MatchingAloneIsNotEnough()
    ensures
      var e1, e2 := LogEntry(Unknown, 1), LogEntry(Unknown, 2);
      var lead, follow := [e1, e1, e2], [e1, e2];
      var req := AppendEntries(2, Id("a"), Some(1), Some(1), [e2], None);
      && (forall k :: 0 <= k < 2 && lead[k].term == follow[k].term ==> lead[..k + 1] == follow[..k + 1])
      && !PrevOk(follow, req) && Backtrack(lead, Conflict(follow, 2, req)) == 3 > 2
  {
    var e1, e2 := LogEntry(Unknown, 1), LogEntry(Unknown, 2);
    var lead, follow := [e1, e1, e2], [e1, e2];
    assert LastOfTerm(lead, 2, 3) == Some(2);
  }

  // ---------------------------------------------------------------- catching up

  /** `l` leads its term and `f` is reachable and not ahead of it; both logs come from the same leaders. */
  ghost predicate CanCatchUp(l: Node, f: Node, p: Id, rs: map<nat, Reign>) {
    && l.role == Leader && l.term in rs && rs[l.term].leader == l.id && rs[l.term].log == l.logs
    && p in l.peers
    && f.role != Dead && f.term <= l.term
    && ReignsTraced(rs) && Traced(f.logs, rs)
  }

  /** One exchange: the leader sends from its next index, the follower answers, the leader handles the answer. */
  ghost function Round(l: Node, f: Node, p: Id): (Node, Node)
    requires l.role == Leader && p in l.peers && f.role != Dead
  {
    var l1 := SendAes(l);
    var ni := NextFor(l, p);
    var o := OnAppendEntries(f, Request(l1, ni));
    (OnAeResult(l1, p, ni, o.reply.value).node, o.node)
  }

  /**
   A round either delivers the whole log, and brings the follower's commit index at least to the leader's, or leaves
   the follower's log alone and the next index lower.
   */
  lemma RoundProgress(l: Node, f: Node, p: Id, rs: map<nat, Reign>)
    requires CanCatchUp(l, f, p, rs)
    ensures var (l', f') := Round(l, f, p);
            && l'.logs == l.logs
            && if Accepts(f, Request(l, NextFor(l, p))) then f'.logs == Adopt(f.logs, l.logs) && Informed(l, f')
               else && CanCatchUp(l', f', p, rs) && f'.logs == f.logs && NextFor(l', p) < NextFor(l, p)
                    && l'.commitIndex == l.commitIndex
  {
    var ni, req := NextFor(l, p), Request(l, NextFor(l, p));
    RequestIsBuilt(l, ni, rs);
    if Accepts(f, req) {
      AcceptedLogs(f, req, rs);
      AcceptedInformed(l, f, p, rs);
      hide OnAppendEntries, Traced, ReignsTraced, Accepts, Adopt, Backtrack, AdvanceCommit, Informed;
    } else {
      RejectedRound(l, f, p, rs);
    }
  }

  /** The follower knows of everything the leader has committed, if that lies in the leader's log. */
  ghost predicate Informed(l: Node, f: Node) {
    l.commitIndex.Some? && l.commitIndex.value < |l.logs| ==>
      f.commitIndex.Some? && l.commitIndex.value <= f.commitIndex.value
  }

  /** A request carries its sender's commit index, whatever entries it carries. */
  lemma AcceptedInformed(l: Node, f: Node, p: Id, rs: map<nat, Reign>)
    requires CanCatchUp(l, f, p, rs) && Accepts(f, Request(l, NextFor(l, p)))
    ensures Informed(l, OnAppendEntries(f, Request(l, NextFor(l, p))).node)
  {
    var req := Request(l, NextFor(l, p));
    RequestIsBuilt(l, NextFor(l, p), rs);
    AcceptedLogs(f, req, rs);
    AcceptedFollows(f, req);
    assert req.leaderCommit == l.commitIndex;
    hide OnAppendEntries, Traced, ReignsTraced, Accepts, Request, BuiltBy;
  }

  lemma AcceptedFollows(n: Node, req: AppendEntries)
    requires Accepts(n, req)
    ensures var n' := OnAppendEntries(n, req).node;
            n'.commitIndex == FollowCommit(n.commitIndex, req.leaderCommit, |n'.logs|)
  {
    hide Splice, FollowCommit;
  }

  lemma Rejected(f: Node, req: AppendEntries)
    requires f.role != Dead && f.term <= req.term && !Accepts(f, req)
    ensures var o := OnAppendEntries(f, req);
            && o.reply == Some(Conflict(f.logs, req.term, req)) && !PrevOk(f.logs, req)
            && o.node.logs == f.logs && o.node.role != Dead && o.node.term == req.term
  {
  }

  lemma RejectedRound(l: Node, f: Node, p: Id, rs: map<nat, Reign>)
    requires CanCatchUp(l, f, p, rs) && !Accepts(f, Request(l, NextFor(l, p)))
    ensures var (l', f') := Round(l, f, p);
            && CanCatchUp(l', f', p, rs) && l'.logs == l.logs && f'.logs == f.logs && NextFor(l', p) < NextFor(l, p)
            && l'.commitIndex == l.commitIndex
            && NextFor(l', p) == Backtrack(l.logs, Conflict(f.logs, l.term, Request(l, NextFor(l, p))))
  {
    var ni, req := NextFor(l, p), Request(l, NextFor(l, p));
    Rejected(f, req);
    hide Accepts, OnAppendEntries;
    BacktrackDescends(l.logs, f.logs, rs, req, ni, l.term);
    ConflictIsRefusal(f.logs, l.term, req);
    RefusedResult(l, p, ni, Conflict(f.logs, l.term, req));
    hide Traced, ReignsTraced, Conflict, Backtrack, PrevOk, OnAeResult, NextFor;
  }

  lemma ConflictIsRefusal(logs: Log, term: nat, req: AppendEntries)
    ensures Conflict(logs, term, req).term == term && !Conflict(logs, term, req).success
  {
  }

  lemma RefusedResult(l: Node, p: Id, ni: nat, reply: AppendEntriesReply)
    requires l.role == Leader && p in l.peers && ni <= |l.logs|
    requires reply.term == l.term && !reply.success && Backtrack(l.logs, reply) <= |l.logs|
    ensures var l' := OnAeResult(SendAes(l), p, ni, reply).node;
            && l' == l.(nextIndex := l'.nextIndex) && NextFor(l', p) == Backtrack(l.logs, reply)
  {
    hide Backtrack;
  }

  ghost function Rounds(l: Node, f: Node, p: Id, n: nat): (Node, Node)
    requires l.role == Leader && p in l.peers && f.role != Dead
    decreases n
  {
    if n == 0 then (l, f)
    else
      var (l', f') := Round(l, f, p);
      if l'.role == Leader && p in l'.peers && f'.role != Dead then Rounds(l', f', p, n - 1) else (l', f')
  }

  // ---------------------------------------------------------------- how fast

  ghost function TermsUpTo(log: Log, t: nat): set<nat> {
    set j | 0 <= j < |log| && log[j].term <= t :: log[j].term
  }

  ghost function TermsOf(log: Log): set<nat> {
    set j | 0 <= j < |log| :: log[j].term
  }

  /**
   A rejection never moves the next index below what the two logs have in common, so no agreed entry is sent again in
   vain.
   */
  lemma NeverOvershoots(lead: Log, follow: Log, rs: map<nat, Reign>, req: AppendEntries, ni: nat, term: nat, m: nat)
    requires Traced(lead, rs) && Traced(follow, rs) && ReignsTraced(rs)
    requires 1 <= ni <= |lead| && req.prevLogIndex == Some(ni - 1) && req.prevLogTerm == Some(lead[ni - 1].term)
    requires !PrevOk(follow, req) && m <= |lead| && m <= |follow| && lead[..m] == follow[..m]
    ensures m <= Backtrack(lead, Conflict(follow, term, req)) < ni
  {
    hide Backtrack, Conflict, PrevOk, Traced, ReignsTraced;
    BacktrackDescends(lead, follow, rs, req, ni, term);
    if m > 0 {
      Ascending(lead, rs);
      Ascending(follow, rs);
      RefusalAt(lead, follow, req, ni);
      SharedStays(lead, follow, req, ni, term, m);
    }
  }

  lemma RefusalAt(lead: Log, follow: Log, req: AppendEntries, ni: nat)
    requires 1 <= ni <= |lead| && req.prevLogIndex == Some(ni - 1) && req.prevLogTerm == Some(lead[ni - 1].term)
    requires !PrevOk(follow, req)
    ensures ni <= |follow| ==> lead[ni - 1].term != follow[ni - 1].term
  {
  }

  ghost predicate TermsAscend(log: Log) {
    forall j, k :: 0 <= j <= k < |log| ==> log[j].term <= log[k].term
  }

  lemma Ascending(log: Log, rs: map<nat, Reign>)
    requires Traced(log, rs) && ReignsTraced(rs)
    ensures TermsAscend(log)
  {
    hide Traced, ReignsTraced;
    forall j, k | 0 <= j <= k < |log| ensures log[j].term <= log[k].term { TermsSorted(log, rs, j, k); }
  }

  lemma SharedStays(lead: Log, follow: Log, req: AppendEntries, ni: nat, term: nat, m: nat)
    requires TermsAscend(lead) && TermsAscend(follow) && 1 <= ni <= |lead| && req.prevLogIndex == Some(ni - 1)
    requires ni <= |follow| ==> lead[ni - 1].term != follow[ni - 1].term
    requires 0 < m <= |lead| && m <= |follow| && lead[..m] == follow[..m]
    ensures m <= Backtrack(lead, Conflict(follow, term, req))
  {
    assert lead[m - 1] == lead[..m][m - 1] == follow[m - 1];
    if ni <= |follow| {
      SharedBeforeConflict(lead, follow, ni - 1, m);
      hide RunStart, LastOfTerm;
      assert follow[m - 1].term <= follow[ni - 1].term;
    }
  }

  lemma SharedBeforeConflict(lead: Log, follow: Log, idx: nat, m: nat)
    requires idx < |lead| && idx < |follow| && lead[idx].term != follow[idx].term
    requires m <= |lead| && m <= |follow| && lead[..m] == follow[..m]
    ensures m <= idx
  {
    assert forall i :: 0 <= i < m ==> lead[i] == lead[..m][i] == follow[i];
  }

  /** If the next request is rejected as well, it is over an earlier term: each rejection disposes of a whole term. */
  lemma ConflictTermFalls(lead: Log, follow: Log, rs: map<nat, Reign>, req: AppendEntries, ni: nat, term: nat)
    requires Traced(lead, rs) && Traced(follow, rs) && ReignsTraced(rs)
    requires 1 <= ni <= |lead| && ni <= |follow| && req.prevLogIndex == Some(ni - 1)
    requires lead[ni - 1].term != follow[ni - 1].term
    ensures var next := Backtrack(lead, Conflict(follow, term, req));
            1 <= next < ni && lead[next - 1].term != follow[next - 1].term ==>
              follow[next - 1].term < follow[ni - 1].term
  {
    var next := Backtrack(lead, Conflict(follow, term, req));
    if 1 <= next < ni {
      TermsSorted(follow, rs, next - 1, ni - 1);
      hide Traced, ReignsTraced;
    }
  }

  /** How many rounds a follower may take: one for each term it must give up, one to meet its end, one to accept. */
  ghost function Budget(l: Node, f: Node, p: Id): nat {
    var ni := NextFor(l, p);
    if Accepts(f, Request(l, ni)) || ni == 0 then 1
    else if ni > |f.logs| then 2 + |TermsOf(f.logs)|
    else 1 + |TermsUpTo(f.logs, f.logs[ni - 1].term)|
  }

  lemma FewerTerms(log: Log, t: nat, i: nat)
    requires i < |log| && t < log[i].term
    ensures |TermsUpTo(log, t)| + 1 <= |TermsUpTo(log, log[i].term)|
  {
    var small, big := TermsUpTo(log, t), TermsUpTo(log, log[i].term);
    assert log[i].term in big && log[i].term !in small;
    assert small + {log[i].term} <= big;
    Quorums.SubsetCount(small + {log[i].term}, big);
  }

  lemma SomeTerms(log: Log, i: nat)
    requires i < |log|
    ensures 1 <= |TermsUpTo(log, log[i].term)| <= |TermsOf(log)|
  {
    assert {log[i].term} <= TermsUpTo(log, log[i].term) <= TermsOf(log);
    Quorums.SubsetCount({log[i].term}, TermsUpTo(log, log[i].term));
    Quorums.SubsetCount(TermsUpTo(log, log[i].term), TermsOf(log));
    assert |{log[i].term}| == 1;
  }

  /** A refused request whose previous index the follower has differs from it in term there. */
  lemma RefusedOverTerm(l: Node, f: Node, p: Id, rs: map<nat, Reign>)
    requires CanCatchUp(l, f, p, rs) && !Accepts(f, Request(l, NextFor(l, p)))
    ensures var ni := NextFor(l, p);
            && 1 <= ni <= |l.logs|
            && Request(l, ni).prevLogIndex == Some(ni - 1) && Request(l, ni).prevLogTerm == Some(l.logs[ni - 1].term)
            && (ni <= |f.logs| ==> l.logs[ni - 1].term != f.logs[ni - 1].term)
  {
    hide Traced, ReignsTraced;
  }

  lemma BudgetDrops(l: Node, f: Node, p: Id, rs: map<nat, Reign>)
    requires CanCatchUp(l, f, p, rs) && !Accepts(f, Request(l, NextFor(l, p)))
    ensures var (l', f') := Round(l, f, p); Budget(l', f', p) + 1 <= Budget(l, f, p)
  {
    var (l', f') := Round(l, f, p);
    RejectedRound(l, f, p, rs);
    RefusedOverTerm(l, f, p, rs);
    hide Round, Request, NextFor, CanCatchUp, Backtrack, Budget;
    if NextFor(l, p) > |f.logs| {
      TooShort(l.logs, f.logs, l.term, Request(l, NextFor(l, p)));
      hide Accepts;
      BudgetWithin(l', f', p);
      BudgetOverEnd(l, f, p);
    } else {
      BudgetOverTerm(l, f, p);
      if !Accepts(f', Request(l', NextFor(l', p))) {
        RefusedAgain(l, f, l', f', p, rs);
        hide Accepts;
        BudgetOverTerm(l', f', p);
        FewerTerms(f.logs, f.logs[NextFor(l', p) - 1].term, NextFor(l, p) - 1);
      } else {
        hide Accepts;
        BudgetOfOne(l', f', p);
        SomeTerms(f.logs, NextFor(l, p) - 1);
      }
    }
  }

  lemma BudgetOfOne(l: Node, f: Node, p: Id)
    requires Accepts(f, Request(l, NextFor(l, p)))
    ensures Budget(l, f, p) == 1
  {
  }

  lemma BudgetOverEnd(l: Node, f: Node, p: Id)
    requires NextFor(l, p) > |f.logs| && !Accepts(f, Request(l, NextFor(l, p)))
    ensures Budget(l, f, p) == 2 + |TermsOf(f.logs)|
  {
    hide Accepts, Request, NextFor, TermsUpTo, TermsOf;
  }

  lemma BudgetOverTerm(l: Node, f: Node, p: Id)
    requires 1 <= NextFor(l, p) <= |f.logs| && !Accepts(f, Request(l, NextFor(l, p)))
    ensures Budget(l, f, p) == 1 + |TermsUpTo(f.logs, f.logs[NextFor(l, p) - 1].term)|
  {
    hide Accepts, Request, NextFor, TermsUpTo, TermsOf;
  }

  lemma BudgetWithin(l: Node, f: Node, p: Id)
    requires NextFor(l, p) <= |f.logs|
    ensures Budget(l, f, p) <= 1 + |TermsOf(f.logs)|
  {
    hide Accepts, Request, NextFor, TermsUpTo, TermsOf;
    if NextFor(l, p) > 0 { SomeTerms(f.logs, NextFor(l, p) - 1); }
  }

  lemma TooShort(lead: Log, follow: Log, term: nat, req: AppendEntries)
    requires req.prevLogIndex.Some? && req.prevLogIndex.value >= |follow|
    ensures Backtrack(lead, Conflict(follow, term, req)) == |follow|
  {
  }

  lemma RefusedAgain(l: Node, f: Node, l': Node, f': Node, p: Id, rs: map<nat, Reign>)
    requires CanCatchUp(l, f, p, rs) && !Accepts(f, Request(l, NextFor(l, p))) && NextFor(l, p) <= |f.logs|
    requires CanCatchUp(l', f', p, rs) && !Accepts(f', Request(l', NextFor(l', p)))
    requires l'.logs == l.logs && f'.logs == f.logs && NextFor(l', p) < NextFor(l, p)
    requires NextFor(l', p) == Backtrack(l.logs, Conflict(f.logs, l.term, Request(l, NextFor(l, p))))
    ensures 1 <= NextFor(l', p) <= NextFor(l, p)
    ensures f.logs[NextFor(l', p) - 1].term < f.logs[NextFor(l, p) - 1].term
  {
    RefusedOverTerm(l, f, p, rs);
    RefusedOverTerm(l', f', p, rs);
    hide Accepts, Backtrack, Conflict, Traced, ReignsTraced, PrevOk, NextFor, Request;
    ConflictTermFalls(l.logs, f.logs, rs, Request(l, NextFor(l, p)), NextFor(l, p), l.term);
  }

  /**
   With a fixed leader log, all of it reaches the follower, and the follower's commit index the leader's, in at most one
   round more than the next index, and in at most two rounds more than the follower's log has terms.
   */
  lemma {:induction false} CatchesUp(l: Node, f: Node, p: Id, rs: map<nat, Reign>) returns (n: nat)
    requires CanCatchUp(l, f, p, rs)
    ensures 1 <= n <= NextFor(l, p) + 1 <= |l.logs| + 1
    ensures n <= Budget(l, f, p) <= 2 + |TermsOf(f.logs)|
    ensures l.logs <= Rounds(l, f, p, n).1.logs && Informed(l, Rounds(l, f, p, n).1)
    decreases NextFor(l, p)
  {
    hide Round, Traced, ReignsTraced, Accepts, Adopt, Request, Informed, Budget;
    RoundProgress(l, f, p, rs);
    AdoptHas(f.logs, l.logs);
    BudgetBound(l, f, p);
    var (l', f') := Round(l, f, p);
    if Accepts(f, Request(l, NextFor(l, p))) {
      n := 1;
      hide NextFor, CanCatchUp;
      assert Rounds(l, f, p, 1).1 == f';
    } else {
      BudgetDrops(l, f, p, rs);
      var m := CatchesUp(l', f', p, rs);
      n := m + 1;
      hide NextFor;
      assert Rounds(l, f, p, n) == Rounds(l', f', p, m);
      StillInformed(l, l', Rounds(l, f, p, n).1);
    }
  }

  lemma StillInformed(l: Node, l': Node, f: Node)
    requires l'.logs == l.logs && l'.commitIndex == l.commitIndex && Informed(l', f)
    ensures Informed(l, f)
  {
  }

  lemma BudgetBound(l: Node, f: Node, p: Id)
    ensures 1 <= Budget(l, f, p) <= 2 + |TermsOf(f.logs)|
  {
    hide Accepts, Request;
    var ni := NextFor(l, p);
    if 0 < ni <= |f.logs| { SomeTerms(f.logs, ni - 1); }
  }

  lemma AdoptHas(log: Log, theirs: Log)
    ensures theirs <= Adopt(log, theirs)
  {
  }

  /** In every restart-free run a leader can catch up every live peer that is not in a later term. */
  lemma LeadersCanCatchUp(r: Run, k: nat, a: Id, p: Id)
    requires r.Valid() && r.RestartFree() && k < |r.states|
    requires a in r.states[k].members && r.states[k].members[a].node.role == Leader && p in r.states[k].members
    requires p != a
    requires var f := r.states[k].members[p].node; f.role != Dead && f.term <= r.states[k].members[a].node.term
    ensures CanCatchUp(r.states[k].members[a].node, r.states[k].members[p].node, p, r.states[k].reigns)
  {
    var c := r.states[k];
    hide Sound, Logged, Init, Enabled, Next, Kept, VoteOk, TallyOk, Traced, ReignsTraced;
    RunLogged(r, k);
    LogFacts(c, a);
    LogFacts(c, p);
    Facts(c, a);
  }

  // ---------------------------------------------------------------- replies in flight

  /** A reply to a request of the leader's current term never reaches past its log. */
  lemma RepliesAreDefined(r: Run, k: nat, m: Message)
    requires r.Valid() && r.RestartFree() && k < |r.states| && m in r.states[k].net && m.AppendReply?
    requires m.leader in r.states[k].members && r.states[k].members[m.leader].node.role == Leader
    requires r.states[k].members[m.leader].node.term == m.req.term
    ensures AeResultDefined(r.states[k].members[m.leader].node, InsertAt(m.req), m.reply)
  {
    hide Sound, Logged, Init, Enabled, Next, Kept, Traced, ReignsTraced, TermsWithin;
    RunLogged(r, k);
    LogFacts(r.states[k], m.leader);
    MessageFact(r.states[k], m);
  }

  /** A rejection in the request's own term was made by some traced log that did not have the previous entry. */
  ghost predicate RejectedBy(m: Message, follow: Log, rs: map<nat, Reign>)
    requires m.AppendReply?
  {
    Traced(follow, rs) && !PrevOk(follow, m.req) && m.reply == Conflict(follow, m.reply.term, m.req)
  }

  ghost predicate RejectionOk(c: Cluster, m: Message) {
    m.AppendReply? && !m.reply.success && m.reply.term == m.req.term ==>
      exists follow: Log :: RejectedBy(m, follow, c.reigns)
  }

  lemma RejectionStays(c: Cluster, c': Cluster, m: Message)
    requires RejectionOk(c, m) && HistoryGrows(c, c')
    ensures RejectionOk(c', m)
  {
    if m.AppendReply? && !m.reply.success && m.reply.term == m.req.term {
      var follow: Log :| RejectedBy(m, follow, c.reigns);
      TracedGrows(follow, c.reigns, c'.reigns);
      assert RejectedBy(m, follow, c'.reigns);
    }
  }

  /** Append replies are only made by delivering the request they answer. */
  lemma RepliesComeFromRequests(c: Cluster, s: Step, m: Message)
    requires Enabled(c, s) && !s.Restart? && m in Next(c, s).net && m !in c.net && m.AppendReply?
    ensures s == Deliver(AppendRequest(m.from, m.req)) && m.from in c.members
    ensures OnAppendEntries(c.members[m.from].node, m.req).reply == Some(m.reply)
  {
    hide OnAppendEntries, OnRequestVote, OnVoteResult, OnAeResult, StartElection, Submit, SendCommits, SendAes, Request;
    if s.Deliver? {
      DeliveryReplies(c, s.m, m);
    }
  }

  lemma DeliveryReplies(c: Cluster, d: Message, m: Message)
    requires Enabled(c, Deliver(d)) && m in Next(c, Deliver(d)).net && m !in c.net && m.AppendReply?
    ensures d == AppendRequest(m.from, m.req) && m.from in c.members
    ensures OnAppendEntries(c.members[m.from].node, m.req).reply == Some(m.reply)
  {
    hide OnAppendEntries, OnRequestVote, OnVoteResult, OnAeResult, AeResultDefined;
  }

  lemma RejectingNode(n: Node, req: AppendEntries, reply: AppendEntriesReply)
    requires OnAppendEntries(n, req).reply == Some(reply) && !reply.success && reply.term == req.term
    ensures !PrevOk(n.logs, req) && reply == Conflict(n.logs, reply.term, req)
  {
    hide Splice, FollowCommit, PrevOk;
  }

  lemma NewRejectionOk(c: Cluster, s: Step, m: Message)
    requires Logged(c) && Enabled(c, s) && !s.Restart? && m in Next(c, s).net && m !in c.net
    ensures RejectionOk(c, m)
  {
    if m.AppendReply? && !m.reply.success && m.reply.term == m.req.term {
      RepliesComeFromRequests(c, s, m);
      hide Next, Enabled, Logged, Kept, ReignsTraced;
      RejectingNode(c.members[m.from].node, m.req, m.reply);
      LogFacts(c, m.from);
      assert RejectedBy(m, c.members[m.from].node.logs, c.reigns);
    }
  }

  lemma {:induction false} RunRejections(r: Run, k: nat, m: Message)
    requires r.Valid() && r.RestartFree() && k < |r.states| && m in r.states[k].net
    ensures RejectionOk(r.states[k], m)
    decreases k
  {
    hide Init, Next, Enabled, RejectionOk, Sound, Logged, HistoryGrows;
    if k == 0 {
      NothingSent(r);
    } else {
      RunStepGrows(r, k - 1);
      if m in r.states[k - 1].net {
        RunRejections(r, k - 1, m);
      } else {
        RunLogged(r, k - 1);
        NewRejectionOk(r.states[k - 1], r.steps[k - 1], m);
      }
      RejectionStays(r.states[k - 1], r.states[k], m);
    }
  }

  lemma NothingSent(r: Run)
    requires r.Valid()
    ensures r.states[0].net == {}
  {
    hide Next, Enabled;
  }

  /**
   Whenever a rejection of a request of the leader's current term arrives, however late, the leader's next index
   for the follower ends strictly below where that request started.
   */
  lemma RejectionDescends(r: Run, k: nat, m: Message)
    requires r.Valid() && r.RestartFree() && k < |r.states| && m in r.states[k].net && m.AppendReply?
    requires m.leader in r.states[k].members && r.states[k].members[m.leader].node.role == Leader
    requires !m.reply.success && r.states[k].members[m.leader].node.term == m.req.term == m.reply.term
    ensures var n := r.states[k].members[m.leader].node;
            && AeResultDefined(n, InsertAt(m.req), m.reply)
            && var n' := OnAeResult(n, m.from, InsertAt(m.req), m.reply).node;
            m.from in n'.nextIndex && n'.nextIndex[m.from] < InsertAt(m.req)
  {
    hide Sound, Logged, Init, Enabled, Next, Kept, Traced, ReignsTraced, TermsWithin;
    var c := r.states[k];
    RunLogged(r, k);
    LogFacts(c, m.leader);
    MessageFact(c, m);
    RunRejections(r, k, m);
    var follow: Log :| RejectedBy(m, follow, c.reigns);
    RejectedBelow(c.members[m.leader].node.logs, follow, c.reigns, m.req, m.reply);
    hide Backtrack, Conflict, PrevOk, BuiltBy;
  }

  lemma RejectedBelow(lead: Log, follow: Log, rs: map<nat, Reign>, req: AppendEntries, reply: AppendEntriesReply)
    requires Traced(lead, rs) && Traced(follow, rs) && BuiltBy(req, rs) && rs[req.term].log == lead
    requires !PrevOk(follow, req) && reply == Conflict(follow, reply.term, req)
    ensures Backtrack(lead, reply) < InsertAt(req) <= |lead|
  {
    hide Traced;
    BacktrackDescends(lead, follow, rs, req, InsertAt(req), reply.term);
  }
}
