/**
 What one Raft node computes when it handles one message. Every handler of the
 actor loop is atomic, so each is a function from the node before to the node
 after; the class in module Consensus performs the same updates in place.
 */
module Replica {
  import opened Messages

  datatype Role = Follower | Candidate | Leader | Dead

  datatype Node = Node(
    id: Id,
    peers: seq<Id>,
    term: nat,
    votedFor: Option<Id>,
    voteCount: nat,
    logs: seq<LogEntry>,
    commitIndex: Option<nat>,
    lastApplied: Option<nat>,
    role: Role,
    nextIndex: map<Id, nat>,
    matchIndex: map<Id, nat>)
  {
    function Persistent(): PersistentState {
      PersistentState(term, votedFor, lastApplied)
    }

    function Quorum(): nat {
      (|peers| + 1) / 2 + 1
    }
  }

  /** The node after a handler, the states it stored on the way, and its reply. */
  datatype Outcome<+R> = Outcome(node: Node, saves: seq<PersistentState>, reply: R)

  // ---------------------------------------------------------------- elections

  datatype LastEntry = LastEntry(index: nat, term: nat)

  /** The last entry as announced in a vote request; an empty log announces (0, 0). */
  function LastLog(logs: seq<LogEntry>): LastEntry {
    if |logs| > 0 then LastEntry(|logs| - 1, logs[|logs| - 1].term) else LastEntry(0, 0)
  }

  predicate UpToDate(theirs: LastEntry, mine: LastEntry) {
    || theirs.term > mine.term
    || (theirs.term == mine.term && theirs.index >= mine.index)
  }

  function BecomeFollower(n: Node, term: nat): Node {
    n.(role := Follower, term := term, votedFor := None)
  }

  function StartElection(n: Node): Outcome<RequestVote> {
    var n1 := n.(role := Candidate, term := n.term + 1, votedFor := Some(n.id));
    var last := LastLog(n.logs);
    Outcome(n1.(voteCount := 1), [n1.Persistent()],
            RequestVote(n1.term, n.id, last.index, last.term))
  }

  function OnRequestVote(n: Node, req: RequestVote): Outcome<Option<RequestVoteReply>> {
    if n.role == Dead then
      Outcome(n, [], None)
    else
      var n1 := if req.term > n.term then BecomeFollower(n, req.term) else n;
      var saves := if req.term > n.term then [n1.Persistent()] else [];
      if && req.term == n1.term
         && (n1.votedFor == None || n1.votedFor == Some(req.candidateId))
         && UpToDate(LastEntry(req.lastLogIndex, req.lastLogTerm), LastLog(n.logs))
      then
        var n2 := n1.(votedFor := Some(req.candidateId));
        Outcome(n2, saves + [n2.Persistent()], Some(RequestVoteReply(n2.term, true)))
      else
        Outcome(n1, saves, Some(RequestVoteReply(n1.term, false)))
  }

  /** Leadership resets the indices of every peer: next to the log's end, match to 0. */
  function StartLeader(n: Node): Node {
    n.(role := Leader,
       nextIndex := n.nextIndex + map p | p in n.peers :: |n.logs|,
       matchIndex := n.matchIndex + map p | p in n.peers :: 0)
  }

  function OnVoteResult(n: Node, term: nat, voted: bool): Outcome<()> {
    if n.role != Candidate || term < n.term then
      Outcome(n, [], ())
    else if term > n.term then
      var n1 := BecomeFollower(n, term);
      Outcome(n1, [n1.Persistent()], ())
    else if voted then
      var n1 := n.(voteCount := n.voteCount + 1);
      Outcome(if n1.voteCount >= n1.Quorum() then StartLeader(n1) else n1, [], ())
    else
      Outcome(n, [], ())
  }

  // ---------------------------------------------------------------- replication

  function Submit(n: Node, cmd: Command): Outcome<()> {
    if n.role == Leader then
      var n1 := n.(logs := n.logs + [LogEntry(cmd, n.term)]);
      Outcome(n1, [n1.Persistent()], ())
    else
      Outcome(n, [], ())
  }

  /** The next index the leader uses for `p`, clamped to the end of its log. */
  function NextFor(n: Node, p: Id): nat {
    var ni := if p in n.nextIndex then n.nextIndex[p] else |n.logs|;
    if ni < |n.logs| then ni else |n.logs|
  }

  /** The request that carries everything from `ni` to the end of the leader's log. */
  function Request(n: Node, ni: nat): AppendEntries
    requires ni <= |n.logs|
  {
    AppendEntries(
      n.term, n.id,
      if ni == 0 then None else Some(ni - 1),
      if ni == 0 then None else Some(n.logs[ni - 1].term),
      n.logs[ni..],
      n.commitIndex)
  }

  function SendAes(n: Node): Node {
    if n.role == Leader then
      n.(nextIndex := n.nextIndex + map p | p in n.peers :: NextFor(n, p))
    else
      n
  }

  /** Where the entries of a request start. */
  function InsertAt(req: AppendEntries): nat {
    match req.prevLogIndex
    case Some(i) => i + 1
    case None => 0
  }

  /** The length of the sender's log when it built the request. */
  function SentLength(req: AppendEntries): nat {
    InsertAt(req) + |req.entries|
  }

  predicate PrevOk(logs: seq<LogEntry>, req: AppendEntries) {
    match (req.prevLogIndex, req.prevLogTerm)
    case (None, _) => true
    case (Some(idx), Some(term)) => idx < |logs| && logs[idx].term == term
    case (Some(idx), None) => false
  }

  /** The start of the run of equal terms that ends at `idx`. */
  function RunStart(logs: seq<LogEntry>, idx: nat): (first: nat)
    requires idx < |logs|
    ensures first <= idx
    ensures forall k :: first <= k <= idx ==> logs[k].term == logs[idx].term
    ensures first > 0 ==> logs[first - 1].term != logs[idx].term
  {
    if idx == 0 || logs[idx - 1].term != logs[idx].term then idx else RunStart(logs, idx - 1)
  }

  function Conflict(logs: seq<LogEntry>, term: nat, req: AppendEntries): AppendEntriesReply {
    match req.prevLogIndex
    case None => AppendEntriesReply(term, false, Some(0), None)
    case Some(idx) =>
      if idx >= |logs| then
        AppendEntriesReply(term, false, Some(|logs|), None)
      else
        AppendEntriesReply(term, false, Some(RunStart(logs, idx)), Some(logs[idx].term))
  }

  /** How many of `entries`, laid over `logs` from `at`, agree in term before the first that does not. */
  function Overlap(logs: seq<LogEntry>, at: nat, entries: seq<LogEntry>): (k: nat)
    ensures k <= |entries|
    ensures k > 0 ==> at + k <= |logs| && logs[at + k - 1].term == entries[k - 1].term
    ensures k < |entries| && at + k < |logs| ==> logs[at + k].term != entries[k].term
    decreases |entries|
  {
    if at < |logs| && |entries| > 0 && logs[at].term == entries[0].term then
      1 + Overlap(logs, at + 1, entries[1..])
    else
      0
  }

  function Splice(logs: seq<LogEntry>, at: nat, entries: seq<LogEntry>): seq<LogEntry>
    requires at <= |logs|
  {
    var k := Overlap(logs, at, entries);
    if k < |entries| then logs[..at + k] + entries[k..] else logs
  }

  /** A follower never moves its commit index back, nor past its own last entry. */
  function FollowCommit(commit: Option<nat>, leaderCommit: Option<nat>, len: nat): Option<nat> {
    if leaderCommit.None? || len == 0 then
      commit
    else
      var target := if leaderCommit.value < len - 1 then leaderCommit.value else len - 1;
      if commit.None? || target > commit.value then Some(target) else commit
  }

  function OnAppendEntries(n: Node, req: AppendEntries): Outcome<Option<AppendEntriesReply>> {
    if n.role == Dead then
      Outcome(n, [], None)
    else
      var n1 := if req.term > n.term then BecomeFollower(n, req.term) else n;
      var saves := if req.term > n.term then [n1.Persistent()] else [];
      if req.term < n1.term then
        Outcome(n1, saves, Some(AppendEntriesReply(n1.term, false, None, None)))
      else if !PrevOk(n1.logs, req) then
        Outcome(n1, saves, Some(Conflict(n1.logs, n1.term, req)))
      else
        var logs := Splice(n1.logs, InsertAt(req), req.entries);
        var n2 := n1.(logs := logs, commitIndex := FollowCommit(n1.commitIndex, req.leaderCommit, |logs|));
        Outcome(n2, saves + [n2.Persistent()], Some(AppendEntriesReply(n2.term, true, None, None)))
  }

  // ---------------------------------------------------------------- commit

  function MatchOf(n: Node, p: Id): nat {
    if p in n.matchIndex then n.matchIndex[p] else 0
  }

  /** How many of `peers` are recorded as holding index `i`. */
  function MatchCount(n: Node, peers: seq<Id>, i: nat): nat {
    if |peers| == 0 then 0
    else MatchCount(n, peers[..|peers| - 1], i) + if MatchOf(n, peers[|peers| - 1]) >= i then 1 else 0
  }

  /** Index `i` may be committed: an entry of the current term, counted on a strict majority. */
  predicate Committable(n: Node, i: nat) {
    && i < |n.logs|
    && n.logs[i].term == n.term
    && (1 + MatchCount(n, n.peers, i)) * 2 > |n.peers| + 1
  }

  /** The greatest committable index in `lo..hi`, if there is one. */
  function LastCommittable(n: Node, lo: nat, hi: nat): (r: Option<nat>)
    requires lo <= hi
    ensures r.Some? ==> lo <= r.value < hi && Committable(n, r.value)
    ensures forall i :: lo <= i < hi && Committable(n, i) ==> r.Some? && i <= r.value
    decreases hi
  {
    if lo == hi then None
    else if Committable(n, hi - 1) then Some(hi - 1)
    else LastCommittable(n, lo, hi - 1)
  }

  function AdvanceCommit(n: Node): Option<nat> {
    var lo := n.commitIndex.GetOr(0);
    if lo >= |n.logs| then n.commitIndex
    else
      match LastCommittable(n, lo, |n.logs|)
      case Some(i) => Some(i)
      case None => n.commitIndex
  }

  /** The last index below `hi` whose entry has term `t`. */
  function LastOfTerm(logs: seq<LogEntry>, t: nat, hi: nat): (r: Option<nat>)
    requires hi <= |logs|
    ensures r.Some? ==> r.value < hi && logs[r.value].term == t
    ensures forall i :: 0 <= i < hi && logs[i].term == t ==> r.Some? && i <= r.value
  {
    if hi == 0 then None
    else if logs[hi - 1].term == t then Some(hi - 1)
    else LastOfTerm(logs, t, hi - 1)
  }

  /** Where the leader resumes after a rejection. */
  function Backtrack(logs: seq<LogEntry>, reply: AppendEntriesReply): nat {
    match reply.conflictTerm
    case None => reply.conflictIndex.GetOr(0)
    case Some(ct) =>
      match LastOfTerm(logs, ct, |logs|)
      case Some(i) => i + 1
      case None => reply.conflictIndex.GetOr(0)
  }

  /** The handler slices its log at `ni` before it looks at its own role, so `ni` must lie in the log. */
  predicate AeResultDefined(n: Node, ni: nat, reply: AppendEntriesReply) {
    reply.term > n.term || ni <= |n.logs|
  }

  function OnAeResult(n: Node, peer: Id, ni: nat, reply: AppendEntriesReply): Outcome<()>
    requires AeResultDefined(n, ni, reply)
  {
    if reply.term > n.term then
      var n1 := BecomeFollower(n, reply.term);
      Outcome(n1, [n1.Persistent()], ())
    else if n.role != Leader || n.term != reply.term then
      Outcome(n, [], ())
    else if reply.success then
      var next := ni + |n.logs[ni..]|;
      var n1 := n.(nextIndex := n.nextIndex[peer := next],
                   matchIndex := n.matchIndex[peer := if next == 0 then 0 else next - 1]);
      Outcome(n1.(commitIndex := AdvanceCommit(n1)), [], ())
    else
      Outcome(n.(nextIndex := n.nextIndex[peer := Backtrack(n.logs, reply)]), [], ())
  }

  // ---------------------------------------------------------------- apply

  /** The first index that has not been sent on the commit channel. */
  function ApplyFrom(n: Node): nat {
    match n.lastApplied
    case None => 0
    case Some(i) => i + 1
  }

  predicate HasCommits(n: Node) {
    n.commitIndex.Some? && n.commitIndex.value >= ApplyFrom(n) && ApplyFrom(n) < |n.logs|
  }

  /** The handler slices its log up to the commit index, which must then lie in the log. */
  predicate SendCommitsDefined(n: Node) {
    HasCommits(n) ==> n.commitIndex.value < |n.logs|
  }

  function CommitsFrom(n: Node, lo: nat, hi: nat): seq<CommitEntry>
    requires lo <= hi <= |n.logs|
  {
    seq(hi - lo, k requires 0 <= k < hi - lo => CommitEntry(n.logs[lo + k].command, n.term, lo + k))
  }

  function SendCommits(n: Node): Outcome<seq<CommitEntry>>
    requires SendCommitsDefined(n)
  {
    if HasCommits(n) then
      Outcome(n.(lastApplied := n.commitIndex), [],
              CommitsFrom(n, ApplyFrom(n), n.commitIndex.value + 1))
    else
      Outcome(n, [], [])
  }
}
