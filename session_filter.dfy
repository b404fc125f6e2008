/** active_session: the trading session of a UTC hour, which is passed in rather than read from the clock. */
module SessionFilter {
  import opened Wrappers

  function ActiveSession(hour: int): (session: Option<string>)
    ensures session == Some("Asia") <==> 0 <= hour <= 6
    ensures session == Some("London") <==> 7 <= hour <= 11
    ensures session == Some("New York") <==> 13 <= hour <= 17
    ensures session.None? <==> !(0 <= hour <= 11 || 13 <= hour <= 17)
  {
    if 0 <= hour <= 6 then Some("Asia")
    else if 7 <= hour <= 11 then Some("London")
    else if 13 <= hour <= 17 then Some("New York")
    else None
  }

  /** Hour 12 and the evening hours 18-23 fall outside every session. */
  lemma NoSessionHours(hour: int)
    requires hour == 12 || 18 <= hour <= 23
    ensures ActiveSession(hour).None?
  {
  }
}
