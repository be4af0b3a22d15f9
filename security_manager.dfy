/** Access levels, the password table and the session timeout of the security manager
    (utils/security_manager.py). The tables are fixed when the manager is built and never
    change, so the manager is a set of constants and functions. The clock reading is a
    parameter; password hashing is not part of this model. */
module SecurityManager {
  import opened Common

  /** One access level's entry: its features, its restrictions, its timeout in seconds. */
  datatype LevelInfo = LevelInfo(features: seq<string>, restrictions: seq<string>, sessionTimeout: nat)

  const AccessLevels: map<string, LevelInfo> := map[
    "government_full" := LevelInfo(
      ["all_monitoring", "epa_tools", "enforcement", "reports", "export", "alerts"],
      ["no_mining_portal"], 7200),
    "government_basic" := LevelInfo(
      ["basic_monitoring", "public_reports", "limited_export"],
      ["no_mining_portal", "no_enforcement"], 3600),
    "mining_corporate" := LevelInfo(
      ["all_monitoring", "mining_portal", "compliance_tracking", "epa_reports", "cost_analysis"],
      ["no_government_tools"], 14400),
    "corporate_basic" := LevelInfo(
      ["basic_monitoring", "limited_reports"],
      ["no_mining_portal", "no_export"], 3600),
    "demo_limited" := LevelInfo(
      ["read_only_monitoring", "demo_alerts"],
      ["no_export", "no_reports", "7_day_limit"], 1800)
  ]

  const PasswordMap: map<string, string> := map[
    "EPA2024" := "government_full",
    "WRC2024" := "government_basic",
    "MINING2024" := "mining_corporate",
    "CORPORATE2024" := "corporate_basic",
    "DEMO2024" := "demo_limited",
    "GUEST2024" := "demo_limited"
  ]

  /** The code that the login screen accepts for the chief executive. */
  const CeoCode: string := "M.P.139.23-24"

  /** (level, true) for a password in the table, (None, false) for any other. */
  function ValidatePassword(password: string): (r: (Option<string>, bool))
    ensures r.1 <==> password in PasswordMap
    ensures r.1 ==> r.0 == Some(PasswordMap[password])
    ensures !r.1 ==> r.0 == None
  {
    if password in PasswordMap then (Some(PasswordMap[password]), true) else (None, false)
  }

  /** Every level the password table hands out has an entry in the level table, and the
      chief executive's code is not in the password table. */
  lemma PasswordTableConsistent()
    ensures forall pw | pw in PasswordMap :: PasswordMap[pw] in AccessLevels
    ensures !ValidatePassword(CeoCode).1
  {
  }

  /** The features of a level; none for a level without an entry. */
  function GetFeatures(level: string): (fs: seq<string>)
    ensures level in AccessLevels ==> fs == AccessLevels[level].features
    ensures level !in AccessLevels ==> fs == []
  {
    if level in AccessLevels then AccessLevels[level].features else []
  }

  /** Whether a level has a feature: only a known level can have one. */
  function HasFeature(level: string, feature: string): (b: bool)
    ensures b <==> level in AccessLevels && feature in AccessLevels[level].features
  {
    feature in GetFeatures(level)
  }

  /** Only the `mining_corporate` level has the `mining_portal` feature. */
  lemma OnlyMiningCorporateHasPortal(level: string)
    ensures HasFeature(level, "mining_portal") <==> level == "mining_corporate"
  {
    if level in AccessLevels && level != "mining_corporate" {
      assert level in {"government_full", "government_basic", "corporate_basic", "demo_limited"};
    }
  }

  /** The timeout of a level; 1800 s for a level without an entry. */
  function SessionTimeout(level: string): (t: nat)
    ensures level !in AccessLevels ==> t == 1800
    ensures 1800 <= t <= 14400
  {
    if level in AccessLevels then AccessLevels[level].sessionTimeout else 1800
  }

  /** The level the timeout check reads from the session, `demo_limited` when none is set. */
  function SessionLevel(stored: Option<string>): string
  {
    if stored.Some? then stored.value else "demo_limited"
  }

  /** The timeout check as written: no access time means timed out; otherwise the session
      has timed out when the `.seconds` part of the elapsed time, which drops whole days,
      strictly exceeds the level's timeout. `now` and `accessTime` are in seconds. */
  function CheckSessionTimeout(accessTime: Option<real>, storedLevel: Option<string>, now: real): (timedOut: bool)
    ensures accessTime.None? ==> timedOut
    ensures accessTime.Some? ==>
      (timedOut <==> TimedeltaSeconds(now - accessTime.value) > SessionTimeout(SessionLevel(storedLevel)))
    ensures accessTime.Some? && 0.0 <= now - accessTime.value < SecondsPerDay as real ==>
      (timedOut <==> (now - accessTime.value).Floor > SessionTimeout(SessionLevel(storedLevel)))
  {
    if accessTime.None? then true
    else
      var elapsed := TimedeltaSeconds(now - accessTime.value);
      elapsed > SessionTimeout(SessionLevel(storedLevel))
  }

  /** A session left idle for one day and ten seconds is not timed out as written: `.seconds`
      of that difference is 10. So a session that had timed out after 1801 s is live again
      a day later. */
  lemma TimeoutMissesWholeDays()
    ensures CheckSessionTimeout(Some(0.0), None, 1801.0)
    ensures !CheckSessionTimeout(Some(0.0), None, 86410.0)
    ensures !CheckSessionTimeout(Some(0.0), Some("demo_limited"), 86410.0)
  {
  }

  /** The check as evidently intended: the whole elapsed time counts. */
  function CheckSessionTimeoutTotal(accessTime: Option<real>, storedLevel: Option<string>, now: real): (timedOut: bool)
    ensures accessTime.None? ==> timedOut
    ensures accessTime.Some? ==>
      (timedOut <==> now - accessTime.value > SessionTimeout(SessionLevel(storedLevel)) as real)
  {
    if accessTime.None? then true
    else now - accessTime.value > SessionTimeout(SessionLevel(storedLevel)) as real
  }

  /** Under the intended check, once a session has timed out it stays timed out as the
      clock advances; the two checks agree on differences of less than a day that are
      whole seconds. */
  lemma TimeoutTotalStaysExpired(accessTime: real, storedLevel: Option<string>, now: real, later: real)
    requires now <= later
    requires CheckSessionTimeoutTotal(Some(accessTime), storedLevel, now)
    ensures CheckSessionTimeoutTotal(Some(accessTime), storedLevel, later)
    ensures 0.0 <= now - accessTime < SecondsPerDay as real && (now - accessTime).Floor as real == now - accessTime ==>
      CheckSessionTimeout(Some(accessTime), storedLevel, now)
  {
  }
}
