/**
 Where log entries come from. Every entry of term t was first appended by the leader of
 term t, so a log is traced when each of its prefixes that ends in an entry of term t is a
 prefix of that leader's log. Logs that are traced to the same leaders agree wherever their
 terms agree.
 */
module Lineage {
  import opened Messages
  import opened Replica
  import opened Cluster

  ghost predicate Traced(l: Log, rs: map<nat, Reign>) {
    forall k :: 0 <= k < |l| ==> l[k].term in rs && l[..k + 1] <= rs[l[k].term].log
  }

  /** Every term in `l` lies in `1..=hi`. */
  ghost predicate TermsWithin(l: Log, hi: nat) {
    forall k :: 0 <= k < |l| ==> 1 <= l[k].term <= hi
  }

  /** The leaders' logs are themselves traced, and no leader holds an entry from a later term. */
  ghost predicate ReignsTraced(rs: map<nat, Reign>) {
    forall t :: t in rs ==> Traced(rs[t].log, rs) && TermsWithin(rs[t].log, t)
  }

  /** Later states keep every reign and only extend its log. */
  ghost predicate ReignsGrow(rs: map<nat, Reign>, rs': map<nat, Reign>) {
    forall t :: t in rs ==> t in rs' && rs[t].log <= rs'[t].log
  }

  // ---------------------------------------------------------------- consequences for logs

  /** Log Matching, for two logs traced to the same leaders. */
  lemma SameTermSamePrefix(a: Log, b: Log, rs: map<nat, Reign>, k: nat)
    requires Traced(a, rs) && Traced(b, rs)
    requires k < |a| && k < |b| && a[k].term == b[k].term
    ensures a[..k + 1] == b[..k + 1]
  {
    assert a[..k + 1] <= rs[a[k].term].log && b[..k + 1] <= rs[a[k].term].log;
  }

  lemma TracedPrefix(l: Log, rs: map<nat, Reign>, n: nat)
    requires Traced(l, rs) && n <= |l|
    ensures Traced(l[..n], rs)
  {
    forall k | 0 <= k < n ensures l[..n][k].term in rs && l[..n][..k + 1] <= rs[l[..n][k].term].log {
      assert l[..n][..k + 1] == l[..k + 1];
    }
  }

  lemma TracedGrows(l: Log, rs: map<nat, Reign>, rs': map<nat, Reign>)
    requires Traced(l, rs) && ReignsGrow(rs, rs')
    ensures Traced(l, rs')
  {
  }

  /** Terms never decrease along a traced log. */
  lemma TermsSorted(l: Log, rs: map<nat, Reign>, j: nat, k: nat)
    requires Traced(l, rs) && ReignsTraced(rs) && j <= k < |l|
    ensures 1 <= l[j].term <= l[k].term
  {
    var t := l[k].term;
    assert l[..k + 1] <= rs[t].log;
    assert l[..k + 1][j] == rs[t].log[j];
  }

  /** A log extended by its own leader stays traced. */
  lemma TracedAppend(l: Log, e: LogEntry, rs: map<nat, Reign>)
    requires Traced(l, rs) && e.term in rs && rs[e.term].log == l + [e]
    ensures Traced(l + [e], rs)
  {
    forall k | 0 <= k < |l| + 1
      ensures (l + [e])[k].term in rs && (l + [e])[..k + 1] <= rs[(l + [e])[k].term].log
    {
      if k < |l| {
        assert (l + [e])[..k + 1] == l[..k + 1];
      } else {
        assert (l + [e])[..k + 1] == l + [e];
      }
    }
  }

  /**
   Comparing announced last entries is a total preorder on logs whose terms start at 1; the empty log, announced
   as (0, 0), lies strictly below every other, and logs that compare equal have the same length and last term.
   */
  lemma UpToDateIsFaithful(a: Log, b: Log, c: Log, hi: nat)
    requires TermsWithin(a, hi) && TermsWithin(b, hi) && TermsWithin(c, hi)
    ensures UpToDate(LastLog(a), LastLog(b)) || UpToDate(LastLog(b), LastLog(a))
    ensures UpToDate(LastLog(a), LastLog(b)) && UpToDate(LastLog(b), LastLog(c)) ==> UpToDate(LastLog(a), LastLog(c))
    ensures UpToDate(LastLog([]), LastLog(a)) <==> a == []
    ensures UpToDate(LastLog(a), LastLog(b)) && UpToDate(LastLog(b), LastLog(a)) ==>
              |a| == |b| && (|a| > 0 ==> a[|a| - 1].term == b[|b| - 1].term)
  {
    assert |a| > 0 ==> a[|a| - 1].term >= 1;
    assert |b| > 0 ==> b[|b| - 1].term >= 1;
    assert |c| > 0 ==> c[|c| - 1].term >= 1;
  }

  // ---------------------------------------------------------------- append entries

  /** The request was built by the leader of its term from some state of its log. */
  ghost predicate BuiltBy(req: AppendEntries, rs: map<nat, Reign>) {
    && req.term in rs
    && rs[req.term].leader == req.leader
    && SentLength(req) <= |rs[req.term].log|
    && req.entries == rs[req.term].log[InsertAt(req)..SentLength(req)]
    && (req.prevLogIndex.Some? ==> req.prevLogTerm == Some(rs[req.term].log[req.prevLogIndex.value].term))
  }

  lemma RequestIsBuilt(l: Node, ni: nat, rs: map<nat, Reign>)
    requires l.term in rs && rs[l.term].leader == l.id && rs[l.term].log == l.logs && ni <= |l.logs|
    ensures BuiltBy(Request(l, ni), rs) && SentLog(Request(l, ni), rs) == l.logs
  {
  }

  /** The leader's log at the time it built the request. */
  ghost function SentLog(req: AppendEntries, rs: map<nat, Reign>): Log
    requires BuiltBy(req, rs)
  {
    rs[req.term].log[..SentLength(req)]
  }

  lemma SentLogLength(req: AppendEntries, rs: map<nat, Reign>)
    requires BuiltBy(req, rs)
    ensures |SentLog(req, rs)| == SentLength(req)
  {
  }

  /** What accepting a request amounts to: take over the sender's log unless it is already a prefix of one's own. */
  ghost function Adopt(log: Log, theirs: Log): Log {
    if theirs <= log then log else theirs
  }

  lemma PrevAgrees(log: Log, req: AppendEntries, rs: map<nat, Reign>)
    requires Traced(log, rs) && ReignsTraced(rs) && BuiltBy(req, rs) && PrevOk(log, req)
    ensures InsertAt(req) <= |log| && log[..InsertAt(req)] == rs[req.term].log[..InsertAt(req)]
  {
    if req.prevLogIndex.Some? {
      SameTermSamePrefix(log, rs[req.term].log, rs, req.prevLogIndex.value);
    }
  }

  lemma AgreeThrough(a: Log, b: Log, rs: map<nat, Reign>, m: nat)
    requires Traced(a, rs) && Traced(b, rs) && 0 < m <= |a| && m <= |b| && a[m - 1].term == b[m - 1].term
    ensures a[..m] == b[..m]
  {
    SameTermSamePrefix(a, b, rs, m - 1);
  }

  lemma OwnLogTraced(rs: map<nat, Reign>, t: nat)
    requires ReignsTraced(rs) && t in rs
    ensures Traced(rs[t].log, rs)
  {
  }

  /** Wherever the scan found equal terms, the logs are equal up to there. */
  lemma OverlapAgrees(log: Log, full: Log, rs: map<nat, Reign>, at: nat, entries: Log)
    requires Traced(log, rs) && Traced(full, rs) && at <= |log| && at + |entries| <= |full|
    requires log[..at] == full[..at] && entries == full[at..at + |entries|]
    ensures var k := at + Overlap(log, at, entries);
            k <= |log| && k <= |full| && log[..k] == full[..k]
  {
    hide Overlap, Traced;
    var k := Overlap(log, at, entries);
    if k > 0 {
      assert entries[k - 1] == full[at + k - 1];
      AgreeThrough(log, full, rs, at + k);
    }
  }

  lemma SpliceShape(log: Log, sent: Log, at: nat)
    requires at <= |log| && at <= |sent|
    requires var k := at + Overlap(log, at, sent[at..]); k <= |log| && log[..k] == sent[..k]
    ensures Splice(log, at, sent[at..]) == Adopt(log, sent)
  {
    hide Overlap;
    var k := at + Overlap(log, at, sent[at..]);
    if k < |sent| {
      assert sent[at..][k - at..] == sent[k..];
      Rejoined(log, sent, k);
      assert sent[at..][k - at] == sent[k];
      assert k < |log| ==> log[k].term != sent[k].term;
      DiffersAt(log, sent, k);
    } else {
      assert sent == log[..k];
    }
  }

  lemma DiffersAt(log: Log, sent: Log, k: nat)
    requires k < |sent| && (k < |log| ==> log[k].term != sent[k].term)
    ensures !(sent <= log)
  {
  }

  lemma Rejoined(log: Log, sent: Log, k: nat)
    requires k <= |log| && k <= |sent| && log[..k] == sent[..k]
    ensures log[..k] + sent[k..] == sent
  {
  }

  /** The splice of the handler is exactly adoption, whatever the delay or order of requests. */
  lemma SpliceIsAdopt(log: Log, req: AppendEntries, rs: map<nat, Reign>)
    requires Traced(log, rs) && ReignsTraced(rs) && BuiltBy(req, rs) && PrevOk(log, req)
    ensures InsertAt(req) <= |log|
    ensures Splice(log, InsertAt(req), req.entries) == Adopt(log, SentLog(req, rs))
  {
    hide Traced, ReignsTraced, PrevOk, Overlap;
    PrevAgrees(log, req, rs);
    OwnLogTraced(rs, req.term);
    var at, full, sent := InsertAt(req), rs[req.term].log, SentLog(req, rs);
    OverlapAgrees(log, full, rs, at, req.entries);
    assert req.entries == sent[at..];
    var k := at + Overlap(log, at, req.entries);
    assert sent[..k] == full[..k];
    SpliceShape(log, sent, at);
  }

  /** Adoption keeps every prefix that the sender's log also has. */
  lemma AdoptKeeps(p: Log, log: Log, theirs: Log, full: Log)
    requires p <= log && p <= full && theirs <= full
    ensures p <= Adopt(log, theirs)
  {
  }

  lemma AdoptTraced(log: Log, theirs: Log, rs: map<nat, Reign>)
    requires Traced(log, rs) && Traced(theirs, rs)
    ensures Traced(Adopt(log, theirs), rs)
  {
  }

  // ---------------------------------------------------------------- stability of "not a prefix"

  /** An entry of a later term cannot complete a prefix made of earlier terms. */
  lemma PrefixNotCompleted(p: Log, l: Log, e: LogEntry, hi: nat)
    requires TermsWithin(p, hi) && e.term > hi
    requires p <= l + [e]
    ensures p <= l
  {
    assert (l + [e])[|l|] == e;
  }
}
