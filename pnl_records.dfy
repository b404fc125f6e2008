/** Records of the pnl log, one per line, as the statistics folds read them. */
module PnlRecords {
  import opened Wrappers

  /** A decoded log line; `pnl` and `session` are None when the key is absent. */
  datatype PnlRecord = PnlRecord(pnl: Option<real>, session: Option<string>)

  /** `t.get("pnl", 0)`. */
  function Pnl(r: PnlRecord): real
  {
    r.pnl.GetOr(0.0)
  }

  /** A win is a strictly positive pnl; zero and a missing pnl are not wins. */
  predicate IsWin(r: PnlRecord)
  {
    Pnl(r) > 0.0
  }
}
