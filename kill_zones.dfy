/** get_kill_zone: the kill zone of a UTC hour, which is passed in rather than read from the clock. */
module KillZones {
  import opened Wrappers
  import opened SessionFilter

  function GetKillZone(hour: int): (zone: Option<string>)
    ensures zone == Some("Asia Range") <==> 0 <= hour <= 6
    ensures zone == Some("London Open") <==> 7 <= hour <= 9
    ensures zone == Some("New York Open") <==> 13 <= hour <= 15
    ensures zone.None? <==> !(0 <= hour <= 9 || 13 <= hour <= 15)
  {
    if 0 <= hour <= 6 then Some("Asia Range")
    else if 7 <= hour <= 9 then Some("London Open")
    else if 13 <= hour <= 15 then Some("New York Open")
    else None
  }

  /** Every kill zone lies inside the session of the same hour. */
  lemma KillZoneInsideSession(hour: int)
    ensures GetKillZone(hour) == Some("Asia Range") ==> ActiveSession(hour) == Some("Asia")
    ensures GetKillZone(hour) == Some("London Open") ==> ActiveSession(hour) == Some("London")
    ensures GetKillZone(hour) == Some("New York Open") ==> ActiveSession(hour) == Some("New York")
  {
  }
}
