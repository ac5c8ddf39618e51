/** The file that holds a node's term and vote, and the cache that lets unchanged states skip the write. */
module Metadata {
  import opened Messages

  /** What a process starts from that has, or can read, no stored state. */
  const NOTHING_STORED: PersistentState := PersistentState(0, None, None)

  /** `disk` is what the metadata file decodes to; `cached` is the last state this process wrote. */
  datatype MetaState = MetaState(disk: Option<PersistentState>, cached: Option<PersistentState>) {

    /** What a starting process reads back; a missing file reads as the default state. */
    function Restored(): PersistentState {
      disk.GetOr(NOTHING_STORED)
    }

    /** The cache never vouches for a term and vote that are not on disk. */
    predicate Faithful() {
      cached.Some? ==> disk.Some? && SameVote(cached.value, disk.value)
    }
  }

  predicate SameVote(a: PersistentState, b: PersistentState) {
    a.term == b.term && a.votedFor == b.votedFor
  }

  predicate Skips(m: MetaState, st: PersistentState) {
    m.cached.Some? && SameVote(st, m.cached.value)
  }

  function Saved(m: MetaState, st: PersistentState): MetaState {
    if Skips(m, st) then m else MetaState(Some(st), Some(st))
  }

  function SavedAll(m: MetaState, saves: seq<PersistentState>): MetaState {
    if |saves| == 0 then m else Saved(SavedAll(m, saves[..|saves| - 1]), saves[|saves| - 1])
  }

  /** After any series of stores, skipped or not, a restart reads back the last stored term and vote. */
  lemma {:induction false} StoresNeverLoseTheVote(m: MetaState, saves: seq<PersistentState>)
    requires m.Faithful()
    ensures SavedAll(m, saves).Faithful()
    ensures |saves| > 0 ==> SameVote(SavedAll(m, saves).Restored(), saves[|saves| - 1])
    ensures |saves| == 0 ==> SavedAll(m, saves) == m
  {
    if |saves| > 0 {
      StoresNeverLoseTheVote(m, saves[..|saves| - 1]);
    }
  }

  /**
   The metadata half of the storage object. The outcome of the write itself is a
   parameter: a failed write or rename leaves the old file in place and the cache alone.
   */
  class MetadataStore {
    var disk: Option<PersistentState>
    var cached: Option<PersistentState>

    ghost function State(): MetaState
      reads this
    {
      MetaState(disk, cached)
    }

    /** A process starts with an empty cache, whatever the disk holds. */
    constructor (onDisk: Option<PersistentState>)
      ensures State() == MetaState(onDisk, None) && State().Faithful()
    {
      disk, cached := onDisk, None;
    }

    method Store(st: PersistentState, writeOk: bool) returns (ok: bool)
      requires State().Faithful()
      modifies this
      ensures State().Faithful()
      ensures ok == (Skips(old(State()), st) || writeOk)
      ensures ok ==> State() == Saved(old(State()), st) && SameVote(State().Restored(), st)
      ensures !ok ==> State() == old(State())
    {
      if cached.Some? && st.term == cached.value.term && st.votedFor == cached.value.votedFor {
        return true;
      }
      if !writeOk {
        return false;
      }
      disk := Some(st);
      cached := Some(st);
      ok := true;
    }
  }
}
