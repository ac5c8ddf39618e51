/**
 What each handler does to a node, stated case by case for all nodes and messages: when a vote is given, what a later
 term does, which replies are ignored, what a rejection names, and what is emitted.
 */
module Answers {
  import opened Messages
  import opened Metadata
  import opened Replica
  import opened Cluster
  import opened ElectionSafety

  /** The states a handler stored end with the one the node is in. */
  ghost predicate StoresCurrent<R>(o: Outcome<R>) {
    |o.saves| > 0 && o.saves[|o.saves| - 1] == o.node.Persistent()
  }

  // ---------------------------------------------------------------- votes

  /** The node may still vote for `cand` in term `t`. */
  predicate Free(n: Node, t: nat, cand: Id) {
    t > n.term || (t == n.term && (n.votedFor == None || n.votedFor == Some(cand)))
  }

  /**
   A live node votes if and only if it may still vote for the candidate in that term and the candidate's log is up to
   date. It answers in the later of the two terms, and stores what it changed before it answers.
   */
  lemma VoteAnswer(n: Node, req: RequestVote)
    ensures n.role == Dead ==> OnRequestVote(n, req) == Outcome(n, [], None)
    ensures n.role != Dead ==>
      var o := OnRequestVote(n, req);
      var grants := Free(n, req.term, req.candidateId) &&
                    UpToDate(LastEntry(req.lastLogIndex, req.lastLogTerm), LastLog(n.logs));
      && o.reply == Some(RequestVoteReply(Max(n.term, req.term), grants))
      && o.node == n.(term := Max(n.term, req.term),
                      role := if req.term > n.term then Follower else n.role,
                      votedFor := if grants then Some(req.candidateId)
                                   else if req.term > n.term then None else n.votedFor)
      && (if grants || req.term > n.term then StoresCurrent(o) else o.saves == [])
  {
    hide UpToDate, LastLog;
  }

  /** A node that does not stand for election ignores every reply, and a candidate ignores those of earlier terms. */
  lemma IgnoredVote(n: Node, term: nat, voted: bool)
    requires n.role != Candidate || term < n.term
    ensures OnVoteResult(n, term, voted) == Outcome(n, [], ())
  {
  }

  /** A reply of the candidate's own term counts if it is a vote; the one that completes the quorum makes it leader. */
  lemma CountedVoteAnswer(n: Node, voted: bool)
    requires n.role == Candidate
    ensures var o := OnVoteResult(n, n.term, voted);
            && o.saves == []
            && o.node.(role := n.role, nextIndex := n.nextIndex, matchIndex := n.matchIndex) ==
               n.(voteCount := if voted then n.voteCount + 1 else n.voteCount)
            && (o.node.role == Leader <==> voted && (n.voteCount + 1) * 2 > |n.peers| + 1)
            && (o.node.role == Leader || o.node == n.(voteCount := o.node.voteCount))
  {
  }

  /** A new leader's first request to every peer starts behind its own last entry, and it counts nobody as matching. */
  lemma WinnerStartsFromItsEnd(n: Node, p: Id)
    requires n.role == Candidate && p in n.peers && OnVoteResult(n, n.term, true).node.role == Leader
    ensures var n' := OnVoteResult(n, n.term, true).node;
            && NextFor(n', p) == |n.logs| && MatchOf(n', p) == 0
            && Request(n', NextFor(n', p)).entries == []
            && Request(n', NextFor(n', p)).prevLogIndex == if |n.logs| == 0 then None else Some(|n.logs| - 1)
  {
  }

  // ---------------------------------------------------------------- replication

  /** Only a leader takes a command, at the end of its log, in its own term, and stores its state. */
  lemma SubmitAnswer(n: Node, cmd: Command)
    ensures n.role != Leader ==> Submit(n, cmd) == Outcome(n, [], ())
    ensures n.role == Leader ==>
      var o := Submit(n, cmd);
      && StoresCurrent(o) && o.node.(logs := n.logs) == n && n.logs <= o.node.logs
      && |o.node.logs| == |n.logs| + 1 && o.node.logs[|n.logs|] == LogEntry(cmd, n.term)
  {
  }

  /** A request of an earlier term is refused in the node's own term, and changes nothing. */
  lemma StaleRequest(n: Node, req: AppendEntries)
    requires n.role != Dead && req.term < n.term
    ensures OnAppendEntries(n, req) == Outcome(n, [], Some(AppendEntriesReply(n.term, false, None, None)))
  {
  }

  /**
   Any other request is answered in its own term: accepted if and only if the node has the previous entry. Refused or
   not, only log and commit index change besides what a later term changes.
   */
  lemma AppendAnswer(n: Node, req: AppendEntries)
    ensures n.role == Dead ==> OnAppendEntries(n, req) == Outcome(n, [], None)
    ensures n.role != Dead && req.term >= n.term ==>
      var o := OnAppendEntries(n, req);
      && o.reply.Some? && o.reply.value.term == req.term && (o.reply.value.success <==> PrevOk(n.logs, req))
      && o.node.(logs := n.logs, commitIndex := n.commitIndex) ==
         (if req.term > n.term then n.(term := req.term, role := Follower, votedFor := None) else n)
      && (!PrevOk(n.logs, req) ==> o.node.logs == n.logs && o.node.commitIndex == n.commitIndex)
      && (PrevOk(n.logs, req) ==> o.reply.value.conflictIndex == None && o.reply.value.conflictTerm == None)
      && (if PrevOk(n.logs, req) || req.term > n.term then StoresCurrent(o) else o.saves == [])
  {
    hide PrevOk, Splice, FollowCommit;
  }

  /**
   A refusal names the end of a log that is too short, or else the term found at the previous index and the first index
   of the run of entries of that term.
   */
  lemma RefusalNames(n: Node, req: AppendEntries)
    requires n.role != Dead && req.term >= n.term && !PrevOk(n.logs, req)
    ensures var reply := OnAppendEntries(n, req).reply.value;
            var idx := req.prevLogIndex.GetOr(0);
            && !reply.success && req.prevLogIndex.Some? && reply.conflictIndex.Some?
            && (idx >= |n.logs| ==> reply.conflictIndex == Some(|n.logs|) && reply.conflictTerm == None)
            && (idx < |n.logs| ==>
                  var first := reply.conflictIndex.value;
                  && reply.conflictTerm == Some(n.logs[idx].term) && first <= idx
                  && (forall k :: first <= k <= idx ==> n.logs[k].term == n.logs[idx].term)
                  && (first > 0 ==> n.logs[first - 1].term != n.logs[idx].term))
  {
    hide RunStart;
  }

  /**
   On acceptance the commit index never moves back, moves only to where both the announced index and the node's own log
   reach, and moves all the way to the nearer of the two.
   */
  lemma FollowAnswer(n: Node, req: AppendEntries)
    requires n.role != Dead && req.term >= n.term && PrevOk(n.logs, req)
    ensures var n' := OnAppendEntries(n, req).node;
            && (n.commitIndex.Some? ==> n'.commitIndex.Some? && n.commitIndex.value <= n'.commitIndex.value)
            && (n'.commitIndex == n.commitIndex ||
                (req.leaderCommit.Some? && n'.commitIndex.Some? &&
                 n'.commitIndex.value <= req.leaderCommit.value && n'.commitIndex.value < |n'.logs|))
            && (req.leaderCommit.Some? && |n'.logs| > 0 ==>
                n'.commitIndex.Some? &&
                (req.leaderCommit.value <= n'.commitIndex.value || |n'.logs| - 1 <= n'.commitIndex.value))
  {
    hide PrevOk, Splice;
  }

  /** Replies that are not for this leader's term, or reach a node that does not lead, change nothing. */
  lemma IgnoredReply(n: Node, peer: Id, ni: nat, reply: AppendEntriesReply)
    requires AeResultDefined(n, ni, reply) && reply.term <= n.term && (n.role != Leader || reply.term < n.term)
    ensures OnAeResult(n, peer, ni, reply) == Outcome(n, [], ())
  {
  }

  /** A reply of the leader's own term touches that peer's indices only, and the commit index only on success. */
  lemma ReplyAnswer(n: Node, peer: Id, ni: nat, reply: AppendEntriesReply)
    requires n.role == Leader && reply.term == n.term && ni <= |n.logs|
    ensures var o := OnAeResult(n, peer, ni, reply);
            && o.saves == []
            && o.node.(nextIndex := n.nextIndex, matchIndex := n.matchIndex, commitIndex := n.commitIndex) == n
            && (forall q :: q != peer ==> NextFor(o.node, q) == NextFor(n, q) && MatchOf(o.node, q) == MatchOf(n, q))
            && (!reply.success ==> o.node.commitIndex == n.commitIndex && MatchOf(o.node, peer) == MatchOf(n, peer))
            && (reply.success ==>
                  NextFor(o.node, peer) == |n.logs| &&
                  MatchOf(o.node, peer) == if |n.logs| == 0 then 0 else |n.logs| - 1)
  {
    hide AdvanceCommit, Backtrack;
  }

  /**
   A success leaves the commit index at the greatest index, from the old one on, whose entry has the leader's term and
   is counted on a strict majority, or where it was if there is none.
   */
  lemma CommitAnswer(n: Node, peer: Id, ni: nat, reply: AppendEntriesReply)
    requires n.role == Leader && reply.term == n.term && reply.success && ni <= |n.logs|
    ensures var n' := OnAeResult(n, peer, ni, reply).node;
            var lo := n.commitIndex.GetOr(0);
            && (forall i :: lo <= i && Committable(n', i) ==> n'.commitIndex.Some? && i <= n'.commitIndex.value)
            && (n'.commitIndex == n.commitIndex ||
                (n'.commitIndex.Some? && lo <= n'.commitIndex.value && Committable(n', n'.commitIndex.value)))
  {
    var n1 := n.(nextIndex := n.nextIndex[peer := |n.logs|],
                 matchIndex := n.matchIndex[peer := if |n.logs| == 0 then 0 else |n.logs| - 1]);
    var n' := OnAeResult(n, peer, ni, reply).node;
    assert n' == n1.(commitIndex := AdvanceCommit(n1));
    forall i: nat ensures Committable(n', i) <==> Committable(n1, i) { SameCounts(n1, n', n1.peers, i); }
    hide OnAeResult, Committable;
  }

  lemma {:induction false} SameCounts(a: Node, b: Node, peers: seq<Id>, i: nat)
    requires a.matchIndex == b.matchIndex
    ensures MatchCount(a, peers, i) == MatchCount(b, peers, i)
  {
    if |peers| > 0 { SameCounts(a, b, peers[..|peers| - 1], i); }
  }

  /**
   Laying entries over a log keeps everything before them, ends with every one of their terms in place, and keeps the
   rest of the log if and only if no term there was different or missing.
   */
  lemma SpliceAnswer(logs: Log, at: nat, entries: Log)
    requires at <= |logs|
    ensures var s := Splice(logs, at, entries);
            var agree := at + |entries| <= |logs| &&
                         forall j :: 0 <= j < |entries| ==> logs[at + j].term == entries[j].term;
            && |s| >= at + |entries| && s[..at] == logs[..at]
            && (forall j :: 0 <= j < |entries| ==> s[at + j].term == entries[j].term)
            && (if agree then s == logs else |s| == at + |entries| && s[|s| - 1] == entries[|entries| - 1])
  {
    OverlapTerms(logs, at, entries);
    if Overlap(logs, at, entries) < |entries| { Replaced(logs, at, entries); }
    hide Overlap;
  }

  lemma Replaced(logs: Log, at: nat, entries: Log)
    requires at <= |logs| && Overlap(logs, at, entries) < |entries|
    ensures var s := Splice(logs, at, entries);
            && |s| == at + |entries| && s[..at] == logs[..at] && s[|s| - 1] == entries[|entries| - 1]
            && forall j :: 0 <= j < |entries| ==> s[at + j].term == entries[j].term
  {
    OverlapTerms(logs, at, entries);
    var k, s := Overlap(logs, at, entries), Splice(logs, at, entries);
    assert s == logs[..at + k] + entries[k..];
    hide Overlap, Splice;
    forall j | 0 <= j < |entries| ensures s[at + j].term == entries[j].term {
      if j < k { assert s[at + j] == logs[at + j]; } else { assert s[at + j] == entries[k..][j - k]; }
    }
    assert s[..at] == logs[..at + k][..at];
  }

  lemma {:induction false} OverlapTerms(logs: Log, at: nat, entries: Log)
    ensures var k := Overlap(logs, at, entries);
            forall j :: 0 <= j < k ==> at + j < |logs| && logs[at + j].term == entries[j].term
    decreases |entries|
  {
    if at < |logs| && |entries| > 0 && logs[at].term == entries[0].term {
      OverlapTerms(logs, at + 1, entries[1..]);
      var k := Overlap(logs, at, entries);
      forall j | 0 <= j < k ensures at + j < |logs| && logs[at + j].term == entries[j].term {
        if j > 0 { assert entries[j] == entries[1..][j - 1]; }
      }
    }
  }

  /** After a success, the next request to that peer carries exactly what was submitted since. */
  lemma OnlyNewEntriesFollow(n: Node, peer: Id, ni: nat, reply: AppendEntriesReply, cmd: Command)
    requires n.role == Leader && reply.term == n.term && reply.success && ni <= |n.logs|
    ensures var n1 := OnAeResult(n, peer, ni, reply).node;
            var n2 := Submit(n1, cmd).node;
            && Request(n1, NextFor(n1, peer)).entries == []
            && Request(n2, NextFor(n2, peer)).entries == [LogEntry(cmd, n.term)]
  {
    hide AdvanceCommit;
  }

  // ---------------------------------------------------------------- later terms

  function CarriedTerm(d: Message): nat {
    match d
    case VoteRequest(_, vote) => vote.term
    case VoteReply(_, _, _, granted) => granted.term
    case AppendRequest(_, req) => req.term
    case AppendReply(_, _, _, reply) => reply.term
  }

  /** The message reaches a node that looks at its term: all do, except that vote replies are only for candidates. */
  ghost predicate Heeded(n: Node, d: Message) {
    n.role != Dead && (d.VoteReply? ==> n.role == Candidate)
  }

  /** What a later term does to a member, whatever message carries it. */
  ghost predicate Deposed(me: Member, me': Member, t: nat) {
    && me'.node.term == t && me'.node.role == Follower
    && me'.meta.Restored().term == t && SameVote(me'.meta.Restored(), me'.node.Persistent())
  }

  lemma VoteRequestDeposes(c: Cluster, i: Id, vote: RequestVote)
    requires i in c.members && c.members[i].node.role != Dead && vote.term > c.members[i].node.term
    requires c.members[i].meta.Faithful()
    ensures var c' := AfterVoteRequest(c, i, vote);
            && i in c'.members && Deposed(c.members[i], c'.members[i], vote.term)
            && c'.members[i].node.logs == c.members[i].node.logs
  {
    VoteAnswer(c.members[i].node, vote);
    StoresNeverLoseTheVote(c.members[i].meta, OnRequestVote(c.members[i].node, vote).saves);
    hide OnRequestVote, UpToDate, LastLog, SavedAll;
  }

  lemma VoteReplyDeposes(c: Cluster, i: Id, from: Id, callTerm: nat, granted: RequestVoteReply)
    requires i in c.members && c.members[i].node.role == Candidate && granted.term > c.members[i].node.term
    requires c.members[i].meta.Faithful()
    ensures var c' := AfterVoteReply(c, i, from, callTerm, granted);
            && i in c'.members && Deposed(c.members[i], c'.members[i], granted.term)
            && c'.members[i].node.logs == c.members[i].node.logs
  {
    StoresNeverLoseTheVote(c.members[i].meta, OnVoteResult(c.members[i].node, granted.term, granted.voted).saves);
    hide SavedAll;
  }

  lemma AppendRequestDeposes(c: Cluster, i: Id, req: AppendEntries)
    requires i in c.members && c.members[i].node.role != Dead && req.term > c.members[i].node.term
    requires c.members[i].meta.Faithful()
    ensures var c' := AfterAppendRequest(c, i, req);
            && i in c'.members && Deposed(c.members[i], c'.members[i], req.term)
            && (!PrevOk(c.members[i].node.logs, req) ==> c'.members[i].node.logs == c.members[i].node.logs)
  {
    AppendAnswer(c.members[i].node, req);
    StoresNeverLoseTheVote(c.members[i].meta, OnAppendEntries(c.members[i].node, req).saves);
    hide OnAppendEntries, PrevOk, SavedAll;
  }

  lemma AppendReplyDeposes(c: Cluster, i: Id, from: Id, req: AppendEntries, reply: AppendEntriesReply)
    requires i in c.members && reply.term > c.members[i].node.term && c.members[i].meta.Faithful()
    ensures var c' := AfterAppendReply(c, i, from, req, reply);
            && i in c'.members && Deposed(c.members[i], c'.members[i], reply.term)
            && c'.members[i].node.logs == c.members[i].node.logs
  {
    StoresNeverLoseTheVote(c.members[i].meta, OnAeResult(c.members[i].node, from, InsertAt(req), reply).saves);
    hide SavedAll;
  }

  /**
   Whoever hears of a later term, from whatever message and at whatever moment of a run, leaves its office, enters that
   term and has stored it. Its log stays as it was unless the message is a request that it accepts.
   */
  lemma LaterTermDeposes(r: Run, k: nat, d: Message)
    requires r.Valid() && r.Remembering() && k < |r.steps| && r.steps[k] == Deliver(d)
    requires var i := Actor(r.steps[k]);
             && i in r.states[k].members && Heeded(r.states[k].members[i].node, d)
             && CarriedTerm(d) > r.states[k].members[i].node.term
    ensures var i := Actor(r.steps[k]);
            && i in r.states[k + 1].members
            && Deposed(r.states[k].members[i], r.states[k + 1].members[i], CarriedTerm(d))
            && (!(d.AppendRequest? && PrevOk(r.states[k].members[i].node.logs, d.req)) ==>
                  r.states[k + 1].members[i].node.logs == r.states[k].members[i].node.logs)
  {
    var c, i := r.states[k], Actor(r.steps[k]);
    RunSound(r, k);
    hide Sound, Init;
    Facts(c, i);
    hide AfterVoteRequest, AfterVoteReply, AfterAppendRequest, AfterAppendReply, Deposed, PrevOk, VoteOk, TallyOk;
    hide LeaderOk;
    match d {
      case VoteRequest(to, vote) => VoteRequestDeposes(c, to, vote);
      case VoteReply(cand, from, callTerm, granted) => VoteReplyDeposes(c, cand, from, callTerm, granted);
      case AppendRequest(to, req) => AppendRequestDeposes(c, to, req);
      case AppendReply(leader, from, req, reply) => AppendReplyDeposes(c, leader, from, req, reply);
    }
  }

  // ---------------------------------------------------------------- emission

  /**
   Everything committed and not yet emitted goes out, in order, under the sender's term; afterwards nothing committed is
   left to emit.
   */
  lemma EmissionIsComplete(n: Node)
    requires SendCommitsDefined(n) && n.commitIndex.Some? && n.commitIndex.value < |n.logs|
    ensures var o := SendCommits(n);
            var from := ApplyFrom(n);
            && o.saves == [] && o.node.(lastApplied := n.lastApplied) == n
            && ApplyFrom(o.node) == Max(from, n.commitIndex.value + 1)
            && |o.reply| == ApplyFrom(o.node) - from
            && forall k :: 0 <= k < |o.reply| ==> o.reply[k] == CommitEntry(n.logs[from + k].command, n.term, from + k)
  {
  }

  lemma NothingToEmit(n: Node)
    requires n.commitIndex == None || n.commitIndex.value < ApplyFrom(n) || |n.logs| <= ApplyFrom(n)
    ensures SendCommitsDefined(n) && SendCommits(n) == Outcome(n, [], [])
  {
  }
}
