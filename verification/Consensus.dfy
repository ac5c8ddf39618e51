/**
 The consensus actor as an object whose handlers update its fields in place. Each handler is proved to
 take the node it started from to the node that module Replica says, and to store the same states.
 */
module Consensus {
  import opened Messages
  import opened Metadata
  import opened Replica

  // ---------------------------------------------------------------- the scans over the log

  /** Walks back from `idx` over entries of the same term. */
  method ScanRunStart(logs: seq<LogEntry>, idx: nat) returns (first: nat)
    requires idx < |logs|
    ensures first == RunStart(logs, idx)
  {
    var term := logs[idx].term;
    first := idx;
    while first > 0 && logs[first - 1].term == term
      invariant first <= idx && logs[first].term == term
      invariant RunStart(logs, first) == RunStart(logs, idx)
    {
      first := first - 1;
    }
  }

  /** Counts the entries that already agree in term with the log from `at` on. */
  method ScanOverlap(logs: seq<LogEntry>, at: nat, entries: seq<LogEntry>) returns (k: nat)
    ensures k == Overlap(logs, at, entries)
  {
    k := 0;
    while at + k < |logs| && k < |entries|
      invariant k <= |entries|
      invariant k + Overlap(logs, at + k, entries[k..]) == Overlap(logs, at, entries)
      decreases |entries| - k
    {
      if logs[at + k].term != entries[k].term {
        return;
      }
      assert entries[k..][1..] == entries[k + 1..];
      k := k + 1;
    }
  }

  /** Finds the last entry of term `t`, from the end. */
  method ScanLastOfTerm(logs: seq<LogEntry>, t: nat) returns (last: Option<nat>)
    ensures last == LastOfTerm(logs, t, |logs|)
  {
    var i := |logs|;
    while i > 0
      invariant 0 <= i <= |logs|
      invariant LastOfTerm(logs, t, i) == LastOfTerm(logs, t, |logs|)
    {
      i := i - 1;
      if logs[i].term == t {
        return Some(i);
      }
    }
    last := None;
  }

  /** One pass over the peers: itself, plus every peer whose match index has reached `i`. */
  method CountMatches(n: Node, i: nat) returns (count: nat)
    ensures count == 1 + MatchCount(n, n.peers, i)
  {
    count := 1;
    for k := 0 to |n.peers|
      invariant count == 1 + MatchCount(n, n.peers[..k], i)
    {
      assert n.peers[..k + 1][..k] == n.peers[..k];
      if (if n.peers[k] in n.matchIndex then n.matchIndex[n.peers[k]] else 0) >= i {
        count := count + 1;
      }
    }
    assert n.peers[..|n.peers|] == n.peers;
  }

  /** The nested loops over indices and peers that look for a new commit index. */
  method ScanCommit(n: Node) returns (commit: Option<nat>)
    ensures commit == AdvanceCommit(n)
    ensures forall i :: n.commitIndex.GetOr(0) <= i && Committable(n, i) ==> commit.Some? && i <= commit.value
    ensures commit != n.commitIndex ==>
      commit.Some? && n.commitIndex.GetOr(0) <= commit.value && Committable(n, commit.value)
    ensures n.commitIndex.Some? ==> commit.Some? && n.commitIndex.value <= commit.value
  {
    commit := n.commitIndex;
    var lo := n.commitIndex.GetOr(0);
    if lo >= |n.logs| {
      return;
    }
    for i := lo to |n.logs|
      invariant match LastCommittable(n, lo, i)
                case Some(x) => commit == Some(x)
                case None => commit == n.commitIndex
    {
      if n.logs[i].term == n.term {
        var count := CountMatches(n, i);
        if count * 2 > |n.peers| + 1 {
          commit := Some(i);
        }
      }
    }
  }

  // ---------------------------------------------------------------- one more step of a loop

  lemma SavedOne(m: MetaState, st: PersistentState)
    ensures SavedAll(m, []) == m && SavedAll(m, [st]) == Saved(m, st)
  {
    assert [st][..0] == [];
  }

  lemma SavedMore(m: MetaState, saves: seq<PersistentState>, st: PersistentState)
    ensures SavedAll(m, saves + [st]) == Saved(SavedAll(m, saves), st)
  {
    assert (saves + [st])[..|saves|] == saves;
  }

  /** `m` with every one of `peers` set to `v`. */
  function Reset(m: map<Id, nat>, peers: seq<Id>, v: nat): map<Id, nat> {
    m + map p | p in peers :: v
  }

  lemma ResetStep(m: map<Id, nat>, peers: seq<Id>, k: nat, v: nat)
    requires k < |peers|
    ensures Reset(m, peers[..k], v)[peers[k] := v] == Reset(m, peers[..k + 1], v)
  {
    assert peers[..k + 1] == peers[..k] + [peers[k]];
  }

  lemma ResetAll(m: map<Id, nat>, peers: seq<Id>, v: nat)
    ensures Reset(m, peers[..0], v) == m
    ensures Reset(m, peers[..|peers|], v) == Reset(m, peers, v)
  {
    assert peers[..|peers|] == peers;
  }

  lemma LeaderResets(n: Node)
    ensures StartLeader(n)
         == n.(role := Leader,
               nextIndex := Reset(n.nextIndex, n.peers, |n.logs|),
               matchIndex := Reset(n.matchIndex, n.peers, 0))
  {
    assert Reset(n.nextIndex, n.peers, |n.logs|) == StartLeader(n).nextIndex;
    assert Reset(n.matchIndex, n.peers, 0) == StartLeader(n).matchIndex;
  }

  lemma ResetEnds(n: Node)
    ensures Reset(n.nextIndex, n.peers[..0], |n.logs|) == n.nextIndex
    ensures Reset(n.matchIndex, n.peers[..0], 0) == n.matchIndex
    ensures n.(role := Leader,
               nextIndex := Reset(n.nextIndex, n.peers[..|n.peers|], |n.logs|),
               matchIndex := Reset(n.matchIndex, n.peers[..|n.peers|], 0)) == StartLeader(n)
  {
    hide Reset, StartLeader;
    ResetAll(n.nextIndex, n.peers, |n.logs|);
    ResetAll(n.matchIndex, n.peers, 0);
    LeaderResets(n);
  }

  /** The next indices after `peers` were served. */
  function Served(n: Node, peers: seq<Id>): map<Id, nat> {
    n.nextIndex + map p | p in peers :: NextFor(n, p)
  }

  lemma ServedStep(n: Node, peers: seq<Id>, k: nat)
    requires k < |peers|
    ensures Served(n, peers[..k])[peers[k] := NextFor(n, peers[k])] == Served(n, peers[..k + 1])
  {
    hide NextFor;
    assert peers[..k + 1] == peers[..k] + [peers[k]];
  }

  lemma ServedKeeps(n: Node, peers: seq<Id>, p: Id)
    ensures NextFor(n.(nextIndex := Served(n, peers)), p) == NextFor(n, p)
  {
  }

  lemma ServedEnds(n: Node)
    requires n.role == Leader
    ensures Served(n, n.peers[..0]) == n.nextIndex
    ensures n.(nextIndex := Served(n, n.peers[..|n.peers|])) == SendAes(n)
    ensures forall p :: NextFor(n, p) <= |n.logs|
  {
    assert n.peers[..|n.peers|] == n.peers;
  }

  lemma IdleUnlessLeader(n: Node)
    requires n.role != Leader
    ensures SendAes(n) == n
  {
  }

  lemma RequestIgnoresNext(n: Node, next: map<Id, nat>, ni: nat)
    requires ni <= |n.logs|
    ensures Request(n.(nextIndex := next), ni) == Request(n, ni)
  {
  }

  // ---------------------------------------------------------------- the actor

  class Actor {
    const id: Id
    const peers: seq<Id>
    const storage: MetadataStore

    var term: nat
    var votedFor: Option<Id>
    var voteCount: nat
    var logs: seq<LogEntry>
    var commitIndex: Option<nat>
    var lastApplied: Option<nat>
    var role: Role
    var nextIndex: map<Id, nat>
    var matchIndex: map<Id, nat>

    ghost function Snapshot(): Node
      reads this
    {
      Node(id, peers, term, votedFor, voteCount, logs, commitIndex, lastApplied, role, nextIndex, matchIndex)
    }

    ghost predicate Valid()
      reads this, storage
    {
      storage.State().Faithful()
    }

    /**
     A started process: `restored` is what the log file decodes to. If it is refused, the metadata is not used
     either, and the process starts from nothing.
     */
    constructor (id: Id, peers: seq<Id>, storage: MetadataStore, restored: Option<seq<LogEntry>>)
      requires storage.State().Faithful()
      ensures Valid() && this.storage == storage
      ensures var st := if restored.Some? then storage.State().Restored() else NOTHING_STORED;
              Snapshot() == Node(id, peers, st.term, st.votedFor, 0, restored.GetOr([]), None, st.lastApplied,
                                 Follower, map[], map[])
    {
      this.id, this.peers, this.storage := id, peers, storage;
      voteCount, commitIndex := 0, None;
      role, nextIndex, matchIndex := Follower, map[], map[];
      if restored.Some? {
        var st := if storage.disk.Some? then storage.disk.value else NOTHING_STORED;
        term, votedFor, lastApplied, logs := st.term, st.votedFor, st.lastApplied, restored.value;
      } else {
        term, votedFor, lastApplied, logs := 0, None, None, [];
      }
    }

    method PersistState()
      requires Valid()
      modifies storage
      ensures Valid() && storage.State() == Saved(old(storage.State()), Snapshot().Persistent())
    {
      var ok := storage.Store(PersistentState(term, votedFor, lastApplied), true);
    }

    method StepDown(newTerm: nat)
      requires Valid()
      modifies this, storage
      ensures Valid() && Snapshot() == BecomeFollower(old(Snapshot()), newTerm)
      ensures storage.State() == Saved(old(storage.State()), Snapshot().Persistent())
    {
      role, term, votedFor := Follower, newTerm, None;
      PersistState();
    }

    /** Adopts a newer term, as a follower that has not voted in it. */
    method CatchUpTerm(newTerm: nat) returns (ghost saves: seq<PersistentState>)
      requires Valid()
      modifies this, storage
      ensures Valid() && storage.State() == SavedAll(old(storage.State()), saves)
      ensures Snapshot() == if newTerm > old(term) then BecomeFollower(old(Snapshot()), newTerm) else old(Snapshot())
      ensures saves == if newTerm > old(term) then [Snapshot().Persistent()] else []
    {
      saves := [];
      SavedOne(storage.State(), BecomeFollower(Snapshot(), newTerm).Persistent());
      if newTerm > term {
        StepDown(newTerm);
        saves := [Snapshot().Persistent()];
      }
    }

    method HandleTimeout() returns (req: RequestVote)
      requires Valid()
      modifies this, storage
      ensures Valid()
      ensures var o := StartElection(old(Snapshot()));
              Snapshot() == o.node && req == o.reply && storage.State() == SavedAll(old(storage.State()), o.saves)
    {
      role, term, votedFor := Candidate, term + 1, Some(id);
      PersistState();
      voteCount := 1;
      if |logs| > 0 {
        req := RequestVote(term, id, |logs| - 1, logs[|logs| - 1].term);
      } else {
        req := RequestVote(term, id, 0, 0);
      }
    }

    method HandleRequestVote(req: RequestVote) returns (reply: Option<RequestVoteReply>)
      requires Valid()
      modifies this, storage
      ensures Valid()
      ensures var o := OnRequestVote(old(Snapshot()), req);
              Snapshot() == o.node && reply == o.reply && storage.State() == SavedAll(old(storage.State()), o.saves)
    {
      hide SavedAll, Saved;
      ghost var m := storage.State();
      SavedOne(m, Snapshot().Persistent());
      if role == Dead {
        return None;
      }
      var last := LastLog(logs);
      ghost var saves := CatchUpTerm(req.term);
      var upToDate := req.lastLogTerm > last.term || (req.lastLogTerm == last.term && req.lastLogIndex >= last.index);
      if req.term == term && (votedFor.None? || votedFor.value == req.candidateId) && upToDate {
        votedFor := Some(req.candidateId);
        PersistState();
        SavedMore(m, saves, Snapshot().Persistent());
        reply := Some(RequestVoteReply(term, true));
      } else {
        reply := Some(RequestVoteReply(term, false));
      }
    }

    method BecomeLeader()
      modifies this
      ensures Snapshot() == StartLeader(old(Snapshot()))
    {
      hide Reset, StartLeader;
      ResetEnds(Snapshot());
      role := Leader;
      for k := 0 to |peers|
        invariant Snapshot() == old(Snapshot()).(role := Leader, nextIndex := nextIndex, matchIndex := matchIndex)
        invariant nextIndex == Reset(old(nextIndex), peers[..k], |logs|)
        invariant matchIndex == Reset(old(matchIndex), peers[..k], 0)
      {
        ResetStep(old(nextIndex), peers, k, |logs|);
        ResetStep(old(matchIndex), peers, k, 0);
        nextIndex := nextIndex[peers[k] := |logs|];
        matchIndex := matchIndex[peers[k] := 0];
      }
    }

    method HandleVoteResult(replyTerm: nat, voted: bool)
      requires Valid()
      modifies this, storage
      ensures Valid()
      ensures var o := OnVoteResult(old(Snapshot()), replyTerm, voted);
              Snapshot() == o.node && storage.State() == SavedAll(old(storage.State()), o.saves)
    {
      if role != Candidate || replyTerm < term {
        return;
      }
      if replyTerm > term {
        StepDown(replyTerm);
        return;
      }
      if voted {
        voteCount := voteCount + 1;
        if voteCount >= (|peers| + 1) / 2 + 1 {
          BecomeLeader();
        }
      }
    }

    method HandleSubmit(cmd: Command)
      requires Valid()
      modifies this, storage
      ensures Valid()
      ensures var o := Submit(old(Snapshot()), cmd);
              Snapshot() == o.node && storage.State() == SavedAll(old(storage.State()), o.saves)
    {
      if role == Leader {
        logs := logs + [LogEntry(cmd, term)];
        PersistState();
      }
    }

    /** Sends each peer everything from its next index on. */
    method HandleSendAes() returns (sent: seq<(Id, nat, AppendEntries)>)
      modifies this
      ensures Snapshot() == SendAes(old(Snapshot()))
      ensures var n := old(Snapshot());
              if n.role == Leader
              then |sent| == |n.peers| && forall k :: 0 <= k < |sent| ==>
                     sent[k] == (n.peers[k], NextFor(n, n.peers[k]), Request(n, NextFor(n, n.peers[k])))
              else sent == []
    {
      hide Served, SendAes, Request, NextFor;
      sent := [];
      if role != Leader {
        IdleUnlessLeader(Snapshot());
        return;
      }
      ghost var n := Snapshot();
      ServedEnds(n);
      for k := 0 to |peers|
        invariant Snapshot() == n.(nextIndex := nextIndex)
        invariant nextIndex == Served(n, peers[..k])
        invariant |sent| == k
        invariant forall j :: 0 <= j < k ==>
          sent[j] == (peers[j], NextFor(n, peers[j]), Request(n, NextFor(n, peers[j])))
      {
        ServedStep(n, peers, k);
        ServedKeeps(n, peers[..k], peers[k]);
        var ni := ClampNext(peers[k]);
        var req := BuildRequest(ni);
        RequestIgnoresNext(n, nextIndex, ni);
        nextIndex := nextIndex[peers[k] := ni];
        sent := sent + [(peers[k], ni, req)];
      }
    }

    method ClampNext(p: Id) returns (ni: nat)
      ensures ni == NextFor(Snapshot(), p) <= |logs|
    {
      ni := if p in nextIndex then nextIndex[p] else |logs|;
      if ni > |logs| {
        ni := |logs|;
      }
    }

    method BuildRequest(ni: nat) returns (req: AppendEntries)
      requires ni <= |logs|
      ensures req == Request(Snapshot(), ni)
    {
      var prevIndex, prevTerm := None, None;
      if ni > 0 {
        prevIndex, prevTerm := Some(ni - 1), Some(logs[ni - 1].term);
      }
      req := AppendEntries(term, id, prevIndex, prevTerm, logs[ni..], commitIndex);
    }

    method HandleAppendEntries(req: AppendEntries) returns (reply: Option<AppendEntriesReply>)
      requires Valid()
      modifies this, storage
      ensures Valid()
      ensures var o := OnAppendEntries(old(Snapshot()), req);
              Snapshot() == o.node && reply == o.reply && storage.State() == SavedAll(old(storage.State()), o.saves)
    {
      hide SavedAll, Saved, Conflict, Splice, FollowCommit, PrevOk;
      ghost var m := storage.State();
      SavedOne(m, Snapshot().Persistent());
      if role == Dead {
        return None;
      }
      ghost var saves := CatchUpTerm(req.term);
      if req.term < term {
        return Some(AppendEntriesReply(term, false, None, None));
      }
      var prevOk := CheckPrev(req);
      if !prevOk {
        reply := Reject(req);
        return;
      }
      Install(req);
      PersistState();
      SavedMore(m, saves, Snapshot().Persistent());
      reply := Some(AppendEntriesReply(term, true, None, None));
    }

    method CheckPrev(req: AppendEntries) returns (prevOk: bool)
      ensures prevOk == PrevOk(logs, req)
      ensures prevOk ==> InsertAt(req) <= |logs|
    {
      if req.prevLogIndex.None? {
        return true;
      }
      if req.prevLogTerm.None? {
        return false;
      }
      var idx := req.prevLogIndex.value;
      prevOk := idx < |logs| && logs[idx].term == req.prevLogTerm.value;
    }

    /** Overwrites the log from the first entry whose term differs, and follows the leader's commit index. */
    method Install(req: AppendEntries)
      requires InsertAt(req) <= |logs|
      modifies this`logs, this`commitIndex
      ensures logs == Splice(old(logs), InsertAt(req), req.entries)
      ensures commitIndex == FollowCommit(old(commitIndex), req.leaderCommit, |logs|)
    {
      var at := if req.prevLogIndex.None? then 0 else req.prevLogIndex.value + 1;
      var k := ScanOverlap(logs, at, req.entries);
      if k < |req.entries| {
        logs := logs[..at + k] + req.entries[k..];
      }
      if req.leaderCommit.Some? && |logs| > 0 {
        var target := if req.leaderCommit.value < |logs| - 1 then req.leaderCommit.value else |logs| - 1;
        if commitIndex.None? || target > commitIndex.value {
          commitIndex := Some(target);
        }
      }
    }

    method Reject(req: AppendEntries) returns (reply: Option<AppendEntriesReply>)
      ensures reply == Some(Conflict(logs, term, req))
    {
      if req.prevLogIndex.None? {
        return Some(AppendEntriesReply(term, false, Some(0), None));
      }
      var idx := req.prevLogIndex.value;
      if idx >= |logs| {
        return Some(AppendEntriesReply(term, false, Some(|logs|), None));
      }
      var first := ScanRunStart(logs, idx);
      reply := Some(AppendEntriesReply(term, false, Some(first), Some(logs[idx].term)));
    }

    method HandleAeResult(peer: Id, ni: nat, reply: AppendEntriesReply)
      requires Valid() && AeResultDefined(Snapshot(), ni, reply)
      modifies this, storage
      ensures Valid()
      ensures var o := OnAeResult(old(Snapshot()), peer, ni, reply);
              Snapshot() == o.node && storage.State() == SavedAll(old(storage.State()), o.saves)
    {
      hide AdvanceCommit, Backtrack, SavedAll, Saved;
      SavedOne(storage.State(), BecomeFollower(Snapshot(), reply.term).Persistent());
      if reply.term > term {
        StepDown(reply.term);
        return;
      }
      var entries := logs[ni..];
      if role != Leader || term != reply.term {
        return;
      }
      if reply.success {
        nextIndex := nextIndex[peer := ni + |entries|];
        matchIndex := matchIndex[peer := if nextIndex[peer] == 0 then 0 else nextIndex[peer] - 1];
        commitIndex := ScanCommit(Node(id, peers, term, votedFor, voteCount, logs, commitIndex, lastApplied, role,
          nextIndex, matchIndex));
      } else {
        var next := Resume(reply);
        nextIndex := nextIndex[peer := next];
      }
    }

    /** Where to go on after a rejection. */
    method Resume(reply: AppendEntriesReply) returns (next: nat)
      ensures next == Backtrack(logs, reply)
    {
      next := reply.conflictIndex.GetOr(0);
      if reply.conflictTerm.Some? {
        var last := ScanLastOfTerm(logs, reply.conflictTerm.value);
        if last.Some? {
          next := last.value + 1;
        }
      }
    }

    /** Emits the entries that became committed since the last time. */
    method HandleSendCommits() returns (out: seq<CommitEntry>)
      requires SendCommitsDefined(Snapshot())
      modifies this`lastApplied
      ensures var o := SendCommits(old(Snapshot())); Snapshot() == o.node && out == o.reply
    {
      out := [];
      if commitIndex.None? {
        return;
      }
      var start := if lastApplied.None? then 0 else lastApplied.value + 1;
      if commitIndex.value >= start && start < |logs| {
        for i := start to commitIndex.value + 1
          invariant out == CommitsFrom(Snapshot(), start, i)
        {
          out := out + [CommitEntry(logs[i].command, term, i)];
        }
        lastApplied := commitIndex;
      }
    }
  }
}
