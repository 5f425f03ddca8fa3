/** Consequences of the invariants of history: log matching, unique leaders, leader completeness. */
module Decisions {
  import opened RaftTypes
  import opened Logs
  import opened Quorums
  import opened Histories

  /** Valid logs have terms that never fall and never exceed the last one. */
  lemma TermsSorted(en: Ensemble, h: History, log: seq<Entry>, j: nat, k: nat)
    requires HistoryInv(en, h) && ValidLog(h, log) && j <= k < |log|
    ensures 1 <= log[j].term <= log[k].term <= LastTerm(log)
  {
    SlotBounded(en, h, log, j, k);
    SlotBounded(en, h, log, k, |log| - 1);
    SlotBounded(en, h, log, j, j);
  }

  lemma SlotBounded(en: Ensemble, h: History, log: seq<Entry>, j: nat, k: nat)
    requires HistoryInv(en, h) && ValidLog(h, log) && j <= k < |log|
    ensures 1 <= log[j].term <= log[k].term
  {
    assert SlotValid(h, log, k);
    var r := h.reigns[log[k].term];
    assert log[..k + 1][j] == r.log[j];
    assert ReignInv(en, h, log[k].term);
    assert SlotValid(h, log, j);
    assert ReignInv(en, h, log[j].term);
  }

  /** Every command in a valid log has an ID: it came from the leader that took it. */
  lemma EntriesNamed(en: Ensemble, h: History, log: seq<Entry>)
    requires HistoryInv(en, h) && ValidLog(h, log)
    ensures forall e :: e in log ==> Named(e)
  {
    forall k | 0 <= k < |log| ensures Named(log[k]) {
      assert SlotValid(h, log, k);
      assert ReignInv(en, h, log[k].term);
      assert log[..k + 1][k] == h.reigns[log[k].term].log[k];
    }
  }

  /** Log Matching for any two logs made of leaders' prefixes. */
  lemma ValidLogsMatch(h: History, a: seq<Entry>, b: seq<Entry>)
    requires ValidLog(h, a) && ValidLog(h, b)
    ensures Matching(a, b)
  {
    forall k | 0 <= k < |a| && k < |b| && a[k].term == b[k].term ensures a[..k + 1] == b[..k + 1] {
      assert SlotValid(h, a, k) && SlotValid(h, b, k);
    }
  }

  lemma ValidPrefix(h: History, log: seq<Entry>, n: nat)
    requires ValidLog(h, log) && n <= |log|
    ensures ValidLog(h, log[..n])
  {
    forall k | 0 <= k < n ensures SlotValid(h, log[..n], k) {
      assert SlotValid(h, log, k);
      assert log[..n][..k + 1] == log[..k + 1];
    }
  }

  /** A whole valid log is a prefix of the log of the leader its last entry names. */
  lemma WholeLogIsPrefix(h: History, log: seq<Entry>)
    requires ValidLog(h, log) && log != []
    ensures LastTerm(log) in h.reigns && log <= h.reigns[LastTerm(log)].log
  {
    assert SlotValid(h, log, |log| - 1);
    assert log[..|log|] == log;
  }

  /** A majority of votes can elect one candidate only. */
  lemma OneLeaderPerTerm(en: Ensemble, h: History, t: nat, x: NodeId, y: NodeId)
    requires Distinct(en.members) && Elected(en, h, t, x) && Elected(en, h, t, y)
    ensures x == y
  {
    var v := QuorumsIntersect(en.members, Voters(en, h, t, x), Voters(en, h, t, y));
  }

  /**
   What a majority held in term t is in every later leader's log, already among the entries that
   leader was elected with.
   */
  lemma {:induction false} LeaderComplete(en: Ensemble, h: History, t: nat, m: nat, u: nat)
    requires HistoryInv(en, h) && QuorumHeld(en, h, t, m) && t < u && u in h.reigns
    ensures m <= h.reigns[u].base < |h.reigns[u].log| && h.reigns[u].log[..m] == h.reigns[t].log[..m]
    decreases u
  {
    var r := h.reigns[u];
    assert ReignInv(en, h, u) && ReignInv(en, h, t);
    var v := QuorumsIntersect(en.members, Holders(en, h, t, m), Voters(en, h, u, r.leader));
    assert VoteAfterAck(h, v, t, u) && BallotInv(en, h, Key(v, u));
    var won := r.log[..r.base];
    assert VersionLeq(Version(t, m), VersionOf(won));
    assert SlotValid(h, r.log, r.base - 1);
    var w := LastTerm(won);
    assert w == r.log[r.base - 1].term;
    if w == t {
      assert r.log[..m] == h.reigns[t].log[..m];
    } else {
      LeaderComplete(en, h, t, m, w);
      var rw := h.reigns[w];
      assert ReignInv(en, h, w);
      assert r.log[..r.base][r.base - 1] == rw.log[r.base - 1];
      assert r.log[..m] == rw.log[..m];
    }
  }

  lemma PrefixInto(a: seq<Entry>, b: seq<Entry>, c: seq<Entry>, m: nat)
    requires a <= b && |a| <= m <= |b| && m <= |c| && c[..m] == b[..m]
    ensures a <= c
  {
    assert c[..|a|] == c[..m][..|a|] == b[..m][..|a|] == b[..|a|];
  }

  lemma PrefixesCompare(a: seq<Entry>, b: seq<Entry>, c: seq<Entry>)
    requires a <= c && b <= c
    ensures a <= b || b <= a
  {
    if |a| <= |b| {
      assert b[..|a|] == c[..|a|];
    } else {
      assert a[..|b|] == c[..|b|];
    }
  }

  /** A decision of term t reaches every leader from t on; later ones were elected with it. */
  lemma HeldInLeader(en: Ensemble, h: History, a: seq<Entry>, t: nat, m: nat, u: nat)
    requires HistoryInv(en, h) && QuorumHeld(en, h, t, m) && |a| <= m && a <= h.reigns[t].log
    requires t <= u && u in h.reigns
    ensures a <= h.reigns[u].log
    ensures t < u ==> |a| <= h.reigns[u].base
  {
    if t < u {
      LeaderComplete(en, h, t, m, u);
      PrefixInto(a, h.reigns[t].log, h.reigns[u].log, m);
    }
  }

  lemma HeldAgree(en: Ensemble, h: History, a: seq<Entry>, s: nat, m: nat, b: seq<Entry>, t: nat, n: nat)
    requires HistoryInv(en, h)
    requires QuorumHeld(en, h, s, m) && |a| <= m && a <= h.reigns[s].log
    requires QuorumHeld(en, h, t, n) && |b| <= n && b <= h.reigns[t].log
    ensures a <= b || b <= a
  {
    var u := Max(s, t);
    HeldInLeader(en, h, a, s, m, u);
    HeldInLeader(en, h, b, t, n, u);
    PrefixesCompare(a, b, h.reigns[u].log);
  }

  lemma CommittedWitness(en: Ensemble, h: History, prefix: seq<Entry>, bound: nat) returns (t: nat, m: nat)
    requires Committed(en, h, prefix, bound) && prefix != []
    ensures t <= bound && QuorumHeld(en, h, t, m) && |prefix| <= m && prefix <= h.reigns[t].log
  {
    t, m :| t <= bound && QuorumHeld(en, h, t, m) && |prefix| <= m && prefix <= h.reigns[t].log;
  }

  /** Whoever acknowledged a decision still holds all that it covers, whatever it took in later terms. */
  lemma HolderKeeps(en: Ensemble, h: History, log: seq<Entry>, prefix: seq<Entry>, t: nat, m: nat)
    requires HistoryInv(en, h) && QuorumHeld(en, h, t, m) && |prefix| <= m && prefix <= h.reigns[t].log
    requires ValidLog(h, log) && VersionLeq(Version(t, m), VersionOf(log))
    ensures prefix <= log
  {
    assert ReignInv(en, h, t);
    WholeLogIsPrefix(h, log);
    var w := LastTerm(log);
    if w > t {
      LeaderComplete(en, h, t, m, w);
      assert ReignInv(en, h, w) && log[|log| - 1] == h.reigns[w].log[|log| - 1];
      PrefixInto(prefix, h.reigns[t].log, h.reigns[w].log, m);
    }
    PrefixesCompare(prefix, log, h.reigns[w].log);
  }

  /** Two committed prefixes never disagree, whatever decisions cover them. */
  lemma CommittedAgree(en: Ensemble, h: History, a: seq<Entry>, b: seq<Entry>, s: nat, t: nat)
    requires HistoryInv(en, h) && Committed(en, h, a, s) && Committed(en, h, b, t)
    ensures a <= b || b <= a
  {
    if a != [] && b != [] {
      var ta, ma := CommittedWitness(en, h, a, s);
      var tb, mb := CommittedWitness(en, h, b, t);
      HeldAgree(en, h, a, ta, ma, b, tb, mb);
    }
  }

  /** A leader of term u has, from its election on, everything committed under an earlier bound. */
  lemma CommittedInLeader(en: Ensemble, h: History, prefix: seq<Entry>, bound: nat, u: nat)
    requires HistoryInv(en, h) && Committed(en, h, prefix, bound) && u in h.reigns && bound <= u
    ensures prefix <= h.reigns[u].log
    ensures bound < u ==> |prefix| <= h.reigns[u].base
  {
    if prefix != [] {
      var t, m := CommittedWitness(en, h, prefix, bound);
      HeldInLeader(en, h, prefix, t, m, u);
    }
  }
}
