/** session_winrate: per-session win rate over the pnl log, folded over its decoded records. */
module SessionStats {
  import opened Wrappers
  import opened Numeric
  import opened PnlRecords

  /** One session's entry of the `stats` defaultdict. */
  datatype Counter = Counter(wins: nat, total: nat)

  /** The session a record is counted under; a missing, None or empty session is skipped. */
  function SessionOf(r: PnlRecord): Option<string>
  {
    if r.session.Some? && r.session.value != "" then r.session else None
  }

  /** Number of records counted under session s. */
  function SessionCount(records: seq<PnlRecord>, s: string): nat
  {
    if records == [] then 0
    else SessionCount(records[..|records| - 1], s) + (if SessionOf(records[|records| - 1]) == Some(s) then 1 else 0)
  }

  /** Number of winning records counted under session s. */
  function SessionWins(records: seq<PnlRecord>, s: string): (n: nat)
    ensures n <= SessionCount(records, s)
  {
    if records == [] then 0
    else
      var last := records[|records| - 1];
      SessionWins(records[..|records| - 1], s) + (if SessionOf(last) == Some(s) && IsWin(last) then 1 else 0)
  }

  /** Number of records with a truthy session. */
  function CountedRecords(records: seq<PnlRecord>): nat
  {
    if records == [] then 0
    else CountedRecords(records[..|records| - 1]) + (if SessionOf(records[|records| - 1]).Some? then 1 else 0)
  }

  /** How one more record changes the per-session counts. */
  lemma CountsStep(records: seq<PnlRecord>)
    requires records != []
    ensures var init, last := records[..|records| - 1], records[|records| - 1];
      forall s ::
        && SessionCount(records, s) == SessionCount(init, s) + (if SessionOf(last) == Some(s) then 1 else 0)
        && SessionWins(records, s) == SessionWins(init, s) + (if SessionOf(last) == Some(s) && IsWin(last) then 1 else 0)
  {
  }

  /** `stats` after the loop of lines 11-21 has seen `records`. */
  function Tally(records: seq<PnlRecord>): (stats: map<string, Counter>)
    ensures CountedRecords(records) == 0 ==> stats == map[]
  {
    if records == [] then map[] else Count(Tally(records[..|records| - 1]), records[|records| - 1])
  }

  /** A session has an entry exactly when it has a record; the entry counts its records and its wins. */
  lemma {:induction false} TallyCounts(records: seq<PnlRecord>)
    ensures forall s :: s in Tally(records) <==> SessionCount(records, s) > 0
    ensures forall s :: s in Tally(records) ==>
      Tally(records)[s].total == SessionCount(records, s) && Tally(records)[s].wins == SessionWins(records, s)
    ensures forall s :: s in Tally(records) ==> 0 < Tally(records)[s].total && Tally(records)[s].wins <= Tally(records)[s].total
  {
    if records != [] {
      TallyCounts(records[..|records| - 1]);
      CountsStep(records);
    }
  }

  /** One iteration of the counting loop: bump the record's session, creating its entry if needed. */
  function Count(stats: map<string, Counter>, r: PnlRecord): (next: map<string, Counter>)
    ensures SessionOf(r).None? ==> next == stats
    ensures SessionOf(r).Some? ==> next.Keys == stats.Keys + {SessionOf(r).value}
    ensures forall s :: s in stats && Some(s) != SessionOf(r) ==> next[s] == stats[s]
    ensures SessionOf(r).Some? ==>
      var s := SessionOf(r).value;
      var before := if s in stats then stats[s] else Counter(0, 0);
      next[s] == Counter(before.wins + (if IsWin(r) then 1 else 0), before.total + 1)
  {
    match SessionOf(r)
    case None => stats
    case Some(s) =>
      var c := if s in stats then stats[s] else Counter(0, 0);
      stats[s := Counter(if IsWin(r) then c.wins + 1 else c.wins, c.total + 1)]
  }

  /** The win rate of one counter, as a rounded percentage. */
  function WinRate(c: Counter): (rate: real)
    requires c.total > 0 && c.wins <= c.total
    ensures 0.0 <= rate <= 100.0
  {
    var raw := c.wins as real / c.total as real * 100.0;
    assert c.wins as real / c.total as real <= 1.0;
    Round2Within(raw, 0, 10000);
    Round2(raw)
  }

  method SessionWinrate(records: seq<PnlRecord>) returns (result: map<string, real>)
    ensures forall s :: s in result <==> SessionCount(records, s) > 0
    ensures forall s :: s in result ==>
      && SessionWins(records, s) <= SessionCount(records, s)
      && result[s] == Round2(SessionWins(records, s) as real / SessionCount(records, s) as real * 100.0)
      && 0.0 <= result[s] <= 100.0
  {
    var stats := CountSessions(records);
    TallyCounts(records);
    result := WinRates(stats);
  }

  /** The counting loop of lines 11-21. */
  method CountSessions(records: seq<PnlRecord>) returns (stats: map<string, Counter>)
    ensures stats == Tally(records)
  {
    stats := map[];
    for i := 0 to |records|
      invariant stats == Tally(records[..i])
    {
      assert records[..i + 1][..i] == records[..i];
      ghost var before := stats;
      var t := records[i];
      var session := t.session;
      var pnl := t.pnl.GetOr(0.0);
      if session.Some? && session.value != "" {
        var c := if session.value in stats then stats[session.value] else Counter(0, 0);
        c := c.(total := c.total + 1);
        if pnl > 0.0 {
          c := c.(wins := c.wins + 1);
        }
        stats := stats[session.value := c];
      }
      assert stats == Count(before, t);
    }
    assert records[..|records|] == records;
  }

  /** The result loop of lines 25-28: a rounded percentage for every session with a record. */
  method WinRates(stats: map<string, Counter>) returns (result: map<string, real>)
    requires forall s :: s in stats ==> stats[s].wins <= stats[s].total
    ensures result.Keys == set s | s in stats && stats[s].total > 0
    ensures forall s :: s in result ==> result[s] == WinRate(stats[s])
  {
    result := map[];
    var pending := stats.Keys;
    while pending != {}
      invariant pending <= stats.Keys
      invariant result.Keys == set s | s in stats.Keys - pending && stats[s].total > 0
      invariant forall s :: s in result ==> result[s] == WinRate(stats[s])
      decreases pending
    {
      var s :| s in pending;
      var d := stats[s];
      if d.total > 0 {
        result := result[s := Round2(d.wins as real / d.total as real * 100.0)];
      }
      pending := pending - {s};
    }
  }

  /** Sum of the totals of the sessions listed in ks. */
  function TotalOver(stats: map<string, Counter>, ks: seq<string>): nat
    requires forall k :: k in ks ==> k in stats
  {
    if ks == [] then 0 else TotalOver(stats, ks[..|ks| - 1]) + stats[ks[|ks| - 1]].total
  }

  /** Records whose session is one of ks. */
  function CountIn(records: seq<PnlRecord>, ks: set<string>): nat
  {
    if records == [] then 0
    else
      var s := SessionOf(records[|records| - 1]);
      CountIn(records[..|records| - 1], ks) + (if s.Some? && s.value in ks then 1 else 0)
  }

  lemma {:induction false} CountInAddSession(records: seq<PnlRecord>, ks: set<string>, k: string)
    requires k !in ks
    ensures CountIn(records, ks + {k}) == CountIn(records, ks) + SessionCount(records, k)
  {
    if records != [] {
      CountInAddSession(records[..|records| - 1], ks, k);
    }
  }

  lemma {:induction false} CountInAllSessions(records: seq<PnlRecord>, ks: set<string>)
    requires forall s :: SessionCount(records, s) > 0 ==> s in ks
    ensures CountIn(records, ks) == CountedRecords(records)
  {
    if records != [] {
      var init := records[..|records| - 1];
      forall s | SessionCount(init, s) > 0
        ensures s in ks
      {
        assert SessionCount(records, s) >= SessionCount(init, s);
      }
      CountInAllSessions(init, ks);
      var last := SessionOf(records[|records| - 1]);
      if last.Some? {
        assert SessionCount(records, last.value) > 0;
      }
    }
  }

  lemma {:induction false} TotalOverIsCountIn(records: seq<PnlRecord>, ks: seq<string>)
    requires forall k :: k in ks ==> k in Tally(records)
    requires forall i, j :: 0 <= i < j < |ks| ==> ks[i] != ks[j]
    ensures TotalOver(Tally(records), ks) == CountIn(records, set k | k in ks)
  {
    TallyCounts(records);
    if ks != [] {
      var init := ks[..|ks| - 1];
      var k := ks[|ks| - 1];
      TotalOverIsCountIn(records, init);
      assert (set x | x in ks) == (set x | x in init) + {k};
      assert k !in (set x | x in init);
      CountInAddSession(records, (set x | x in init), k);
    } else {
      assert (set x | x in ks) == {};
      CountInEmpty(records);
    }
  }

  lemma {:induction false} CountInEmpty(records: seq<PnlRecord>)
    ensures CountIn(records, {}) == 0
  {
    if records != [] {
      CountInEmpty(records[..|records| - 1]);
    }
  }

  /** Listing every session once, the per-session totals add up to the records with a truthy session. */
  lemma TotalsAddUp(records: seq<PnlRecord>, ks: seq<string>)
    requires forall i, j :: 0 <= i < j < |ks| ==> ks[i] != ks[j]
    requires forall k :: k in ks <==> k in Tally(records)
    ensures TotalOver(Tally(records), ks) == CountedRecords(records)
  {
    TallyCounts(records);
    TotalOverIsCountIn(records, ks);
    CountInAllSessions(records, (set k | k in ks));
  }
}
