/** The values that nodes log, persist and send to one another. */
module Messages {

  datatype Option<+T> = None | Some(value: T) {
    function GetOr(default: T): T {
      match this
      case Some(v) => v
      case None => default
    }
  }

  /** A node identifier; the same text names a node as candidate, leader and peer. */
  datatype Id = Id(name: string)

  /** A 32-bit float, represented by the text that the printer writes for it. */
  datatype Float = Float(text: string)

  datatype SetReq = SetReq(key: string, value: string, exp: Option<nat>)
  datatype GetReq = GetReq(key: string)
  datatype ExpireReq = ExpireReq(key: string, duration: nat)
  datatype ListReq = ListReq(key: string, values: seq<string>)
  datatype MapReq = MapReq(key: string, score: int, value: string)
  datatype PubReq = PubReq(chan: string, value: string)
  datatype VecReq = VecReq(id: nat, vec: seq<Float>)
  datatype VSetReq = VSetReq(key: string, vecs: seq<VecReq>)
  datatype VDelReq = VDelReq(key: string, id: string)

  datatype Command =
    | Set(setReq: SetReq)
    | Delete(getReq: GetReq)
    | Increment(getReq: GetReq)
    | Decrement(getReq: GetReq)
    | Expire(expireReq: ExpireReq)
    | Lpush(listReq: ListReq)
    | Lpop(getReq: GetReq)
    | Rpush(listReq: ListReq)
    | Rpop(getReq: GetReq)
    | Sadd(listReq: ListReq)
    | Zadd(mapReq: MapReq)
    | Publish(pubReq: PubReq)
    | VSet(vsetReq: VSetReq)
    | VDel(vdelReq: VDelReq)
    | Unknown

  datatype LogEntry = LogEntry(command: Command, term: nat)

  /** An entry of the commit channel; `term` is the sender's term, not the entry's. */
  datatype CommitEntry = CommitEntry(command: Command, term: nat, index: nat)

  datatype PersistentState = PersistentState(term: nat, votedFor: Option<Id>, lastApplied: Option<nat>)

  datatype RequestVote = RequestVote(term: nat, candidateId: Id, lastLogIndex: nat, lastLogTerm: nat)
  datatype RequestVoteReply = RequestVoteReply(term: nat, voted: bool)

  datatype AppendEntries = AppendEntries(
    term: nat,
    leader: Id,
    prevLogIndex: Option<nat>,
    prevLogTerm: Option<nat>,
    entries: seq<LogEntry>,
    leaderCommit: Option<nat>)

  datatype AppendEntriesReply = AppendEntriesReply(
    term: nat,
    success: bool,
    conflictIndex: Option<nat>,
    conflictTerm: Option<nat>)
}
