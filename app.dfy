/** The dashboard's session logic (app.py): the login handler with its failed-attempt
    lock-out and per-code privileges, the two-hour session expiry, secure logout, the
    30-second auto-refresh with its critical-count change detection, the live-mode toggle
    and forced refresh, and the admin panel lock. The session state is the `Session`
    object; the clock reading (in seconds), the freshly generated readings and the log
    timestamp are parameters. */
module App {
  import opened Common
  import opened SampleData
  import SecurityManager
  import CloudLogger

  /** The code that unlocks the admin panel. */
  const AdminPassword: string := "M.P.139.23-24"

  /** The login handler's code table: code to the client type first stored. */
  const ValidPasswords: map<string, string> := map[
    "M.P.139.23-24" := "super_admin",
    "EPA2024" := "government_full",
    "WRC2024" := "government_basic",
    "MINING2024" := "mining_corporate",
    "CORPORATE2024" := "corporate_basic",
    "DEMO2024" := "demo_limited",
    "GUEST2024" := "demo_limited"
  ]

  /** What an accepted code grants: the client type and access level stored, and which
      privilege flags it turns on. */
  datatype Grant = Grant(clientType: string, accessLevel: string, miningPortal: bool, epaTools: bool, ceo: bool)

  /** The privileges of a code, or None for a code the handler rejects. The chief
      executive's code keeps the table's client type; the others overwrite it. */
  function LoginGrant(code: string): (g: Option<Grant>)
    ensures g.Some? <==> code in ValidPasswords
    ensures g.Some? && g.value.ceo ==> code == AdminPassword && g.value.miningPortal && g.value.epaTools
    ensures g.Some? && g.value.miningPortal <==> code == AdminPassword || code == "MINING2024"
    ensures g.Some? && g.value.epaTools <==> code in {AdminPassword, "EPA2024", "WRC2024"}
    ensures g.Some? && g.value.ceo <==> code == AdminPassword
  {
    if code !in ValidPasswords then None
    else if code == "M.P.139.23-24" then Some(Grant(ValidPasswords[code], "super_admin", true, true, true))
    else if code == "MINING2024" then Some(Grant("corporate", "mining_corporate", true, false, false))
    else if code == "EPA2024" then Some(Grant("government", "government_full", false, true, false))
    else if code == "WRC2024" then Some(Grant("government", "government_basic", false, true, false))
    else if code == "CORPORATE2024" then Some(Grant("corporate", "corporate_basic", false, false, false))
    else Some(Grant("demo", "demo_limited", false, false, false))
  }

  /** The handler's table is the security manager's password table plus the chief
      executive's code, which is also the admin password; every other accepted code gets the
      access level the security manager assigns it. */
  lemma LoginCodesExtendPasswordMap(code: string)
    ensures code in ValidPasswords <==> code in SecurityManager.PasswordMap || code == SecurityManager.CeoCode
    ensures AdminPassword == SecurityManager.CeoCode
    ensures code in SecurityManager.PasswordMap ==>
      LoginGrant(code).Some? && LoginGrant(code).value.accessLevel == SecurityManager.PasswordMap[code]
    ensures LoginGrant(code).Some? && code != AdminPassword ==> LoginGrant(code).value.accessLevel in SecurityManager.AccessLevels
  {
  }

  /** Apart from the chief executive, a code opens the mining portal exactly when the
      security manager gives its level the `mining_portal` feature. */
  lemma PortalGrantMatchesFeature(code: string)
    requires LoginGrant(code).Some? && code != AdminPassword
    ensures LoginGrant(code).value.miningPortal <==> SecurityManager.HasFeature(LoginGrant(code).value.accessLevel, "mining_portal")
  {
    SecurityManager.OnlyMiningCorporateHasPortal(LoginGrant(code).value.accessLevel);
  }

  /** The number of failed attempts from which no Login button is offered. */
  const MaxFailedAttempts: nat := 3

  /** The session expires after two hours, measured on the whole elapsed time. */
  const SessionLimit: real := 7200.0

  /** Auto-refresh fires once the `.seconds` part of the time since the last refresh
      reaches 30. */
  const RefreshInterval: int := 30

  /** Whether the auto-refresh is due: live mode on and at least 30 seconds since the last
      refresh, counted by `.seconds`, which drops whole days. */
  function RefreshDue(liveMode: bool, lastRefreshTime: real, now: real): (due: bool)
    ensures due ==> liveMode
    ensures 0.0 <= now - lastRefreshTime < SecondsPerDay as real ==>
      (due <==> liveMode && (now - lastRefreshTime).Floor >= RefreshInterval)
  {
    liveMode && TimedeltaSeconds(now - lastRefreshTime) >= RefreshInterval
  }

  /** The session state of one browser session. `adminUnlocked` is false while the key is
      absent. */
  class Session {
    var authenticated: bool
    var clientType: string
    var accessTime: Option<real>
    var failedAttempts: nat
    var showMiningPortal: bool
    var showEpaTools: bool
    var accessLevel: string
    var isCeo: bool
    var adminUnlocked: bool
    var liveMode: bool
    var lastRefreshTime: real
    var updateCount: nat
    var refreshTrigger: nat
    var previousCriticalCount: nat
    var showCriticalAlert: bool
    var liveData: Option<seq<Reading>>

    /** What every handler keeps: an authenticated session has an access time and no
        failures counted; the counter never passes 3; the chief executive flag comes with the
        portal and the EPA tools, and flags once set stay set until logout. */
    predicate Valid()
      reads this
    {
      && (authenticated ==> accessTime.Some? && failedAttempts == 0)
      && failedAttempts <= MaxFailedAttempts
      && (isCeo ==> showMiningPortal && showEpaTools)
    }

    /** The state the script initialises when no key is present, at time `now`. */
    predicate Initial(now: real)
      reads this
    {
      && !authenticated && clientType == "" && accessTime.None? && failedAttempts == 0
      && !showMiningPortal && !showEpaTools && accessLevel == "" && !isCeo && !adminUnlocked
      && !liveMode && lastRefreshTime == now && updateCount == 0 && refreshTrigger == 0
      && previousCriticalCount == 0 && !showCriticalAlert && liveData.None?
    }

    constructor (now: real)
      ensures Initial(now) && Valid()
    {
      authenticated, clientType, accessTime, failedAttempts := false, "", None, 0;
      showMiningPortal, showEpaTools, accessLevel, isCeo, adminUnlocked := false, false, "", false, false;
      liveMode, lastRefreshTime, updateCount, refreshTrigger := false, now, 0, 0;
      previousCriticalCount, showCriticalAlert, liveData := 0, false, None;
    }

    /** Pressing Login with `code` at time `now`. The login screen is only shown while not
        authenticated, and its Login button only while fewer than 3 attempts have failed;
        otherwise nothing happens. An accepted code authenticates, records the access time,
        resets the counter, turns on the code's privilege flags (never off) and logs the
        success; a rejected code adds exactly one failed attempt and changes nothing else. */
    method Login(code: string, now: real, logger: CloudLogger.CloudLogger, timestamp: string, source: CloudLogger.Source)
      returns (accepted: bool)
      requires Valid()
      modifies this`authenticated, this`clientType, this`accessTime, this`failedAttempts, this`accessLevel
      modifies this`showMiningPortal, this`showEpaTools, this`isCeo, this`adminUnlocked, logger
      ensures Valid()
      ensures accepted <==> !old(authenticated) && old(failedAttempts) < MaxFailedAttempts && code in ValidPasswords
      ensures old(authenticated) || old(failedAttempts) >= MaxFailedAttempts ==>
        && authenticated == old(authenticated) && failedAttempts == old(failedAttempts)
        && clientType == old(clientType) && accessLevel == old(accessLevel) && accessTime == old(accessTime)
        && logger.accessLogs == old(logger.accessLogs)
      ensures !old(authenticated) && old(failedAttempts) < MaxFailedAttempts && code !in ValidPasswords ==>
        && !authenticated && failedAttempts == old(failedAttempts) + 1
        && clientType == old(clientType) && accessLevel == old(accessLevel) && accessTime == old(accessTime)
        && logger.accessLogs == old(logger.accessLogs)
      ensures accepted ==>
        && authenticated && accessTime == Some(now) && failedAttempts == 0
        && clientType == LoginGrant(code).value.clientType
        && accessLevel == LoginGrant(code).value.accessLevel
        && logger.accessLogs == old(logger.accessLogs) + [CloudLogger.LogEntry(timestamp, Some(clientType), "login_success", source)]
      ensures showMiningPortal == (old(showMiningPortal) || (accepted && LoginGrant(code).value.miningPortal))
      ensures showEpaTools == (old(showEpaTools) || (accepted && LoginGrant(code).value.epaTools))
      ensures isCeo == (old(isCeo) || (accepted && LoginGrant(code).value.ceo))
      ensures adminUnlocked == (old(adminUnlocked) || (accepted && LoginGrant(code).value.ceo))
      ensures liveMode == old(liveMode) && lastRefreshTime == old(lastRefreshTime) && updateCount == old(updateCount)
      ensures refreshTrigger == old(refreshTrigger) && previousCriticalCount == old(previousCriticalCount)
      ensures showCriticalAlert == old(showCriticalAlert) && liveData == old(liveData)
    {
      accepted := false;
      if authenticated || failedAttempts >= MaxFailedAttempts {
        return;
      }
      if code in ValidPasswords {
        accepted := true;
        Authenticate(code, now);
        var entry := logger.LogAccess(clientType, "login_success", timestamp, source);
      } else {
        failedAttempts := failedAttempts + 1;
      }
    }

    /** The successful branch of the login form: marks the session authenticated at `now`,
        resets the counter and applies the code's grant. */
    method Authenticate(code: string, now: real)
      requires Valid() && code in ValidPasswords
      modifies this`authenticated, this`clientType, this`accessTime, this`failedAttempts, this`accessLevel
      modifies this`showMiningPortal, this`showEpaTools, this`isCeo, this`adminUnlocked
      ensures Valid()
      ensures authenticated && accessTime == Some(now) && failedAttempts == 0
      ensures clientType == LoginGrant(code).value.clientType && accessLevel == LoginGrant(code).value.accessLevel
      ensures showMiningPortal == (old(showMiningPortal) || LoginGrant(code).value.miningPortal)
      ensures showEpaTools == (old(showEpaTools) || LoginGrant(code).value.epaTools)
      ensures isCeo == (old(isCeo) || LoginGrant(code).value.ceo)
      ensures adminUnlocked == (old(adminUnlocked) || LoginGrant(code).value.ceo)
    {
      var g := LoginGrant(code).value;
      authenticated := true;
      clientType := ValidPasswords[code];
      accessTime := Some(now);
      failedAttempts := 0;
      GrantPrivileges(g);
      accessLevel := g.accessLevel;
      clientType := g.clientType;
    }

    /** The per-code privilege branches, as tabulated by `LoginGrant`: each flag the code
        grants is turned on, and none is turned off. */
    method GrantPrivileges(g: Grant)
      requires Valid() && (g.ceo ==> g.miningPortal && g.epaTools)
      modifies this`showMiningPortal, this`showEpaTools, this`isCeo, this`adminUnlocked
      ensures Valid()
      ensures showMiningPortal == (old(showMiningPortal) || g.miningPortal)
      ensures showEpaTools == (old(showEpaTools) || g.epaTools)
      ensures isCeo == (old(isCeo) || g.ceo)
      ensures adminUnlocked == (old(adminUnlocked) || g.ceo)
    {
      if g.miningPortal {
        showMiningPortal := true;
      }
      if g.epaTools {
        showEpaTools := true;
      }
      if g.ceo {
        adminUnlocked := true;
        isCeo := true;
      }
    }

    /** The sidebar's session timer: an authenticated session whose whole elapsed time
        exceeds 7200 seconds is logged out; its privilege flags are left as they are. */
    method CheckSessionExpiry(now: real) returns (expired: bool)
      requires Valid()
      modifies this`authenticated
      ensures Valid()
      ensures expired <==> old(authenticated) && accessTime.Some? && now - accessTime.value > SessionLimit
      ensures authenticated == (old(authenticated) && !expired)
      ensures accessTime == old(accessTime) && failedAttempts == old(failedAttempts)
      ensures showMiningPortal == old(showMiningPortal) && showEpaTools == old(showEpaTools)
      ensures isCeo == old(isCeo) && adminUnlocked == old(adminUnlocked) && accessLevel == old(accessLevel)
    {
      expired := false;
      if authenticated && accessTime.Some? {
        var accessDuration := now - accessTime.value;
        if accessDuration > SessionLimit {
          expired := true;
          authenticated := false;
        }
      }
    }

    /** Secure logout: the logout is logged, then every session key is deleted, so the next
        run starts from the initial state and the access log, kept in the session, is gone. */
    method Logout(now: real, logger: CloudLogger.CloudLogger, timestamp: string, source: CloudLogger.Source)
      modifies this, logger
      ensures Initial(now) && Valid()
      ensures logger.accessLogs == []
    {
      var entry := logger.LogAccess(clientType, "logout", timestamp, source);
      logger.accessLogs := [];
      ClearSession(now);
    }

    /** Deletes every session key: the state a fresh run initialises. */
    method ClearSession(now: real)
      modifies this
      ensures Initial(now)
      ensures Valid()
    {
      ClearLogin();
      ClearPrivileges();
      ClearLive(now);
      ClearAlerts();
    }

    /** Deletes the login keys. */
    method ClearLogin()
      modifies this`authenticated, this`clientType, this`accessTime, this`failedAttempts
      ensures !authenticated && clientType == "" && accessTime.None? && failedAttempts == 0
    {
      authenticated := false;
      clientType := "";
      accessTime := None;
      failedAttempts := 0;
    }

    /** Deletes the privilege keys. */
    method ClearPrivileges()
      modifies this`showMiningPortal, this`showEpaTools, this`accessLevel, this`isCeo, this`adminUnlocked
      ensures !showMiningPortal && !showEpaTools && accessLevel == "" && !isCeo && !adminUnlocked
    {
      showMiningPortal := false;
      showEpaTools := false;
      accessLevel := "";
      isCeo := false;
      adminUnlocked := false;
    }

    /** Deletes the live-mode keys; the refresh clock restarts at `now`. */
    method ClearLive(now: real)
      modifies this`liveMode, this`lastRefreshTime, this`updateCount, this`refreshTrigger
      ensures !liveMode && lastRefreshTime == now && updateCount == 0 && refreshTrigger == 0
    {
      liveMode := false;
      lastRefreshTime := now;
      updateCount := 0;
      refreshTrigger := 0;
    }

    /** Deletes the alert keys and the stored readings. */
    method ClearAlerts()
      modifies this`previousCriticalCount, this`showCriticalAlert, this`liveData
      ensures previousCriticalCount == 0 && !showCriticalAlert && liveData.None?
    {
      previousCriticalCount := 0;
      showCriticalAlert := false;
      liveData := None;
    }

    /** `check_auto_refresh`, given the readings the generator would produce now. When the
        refresh is due it records the time, counts one update and one refresh trigger,
        raises the critical alert only when the number of Critical rows strictly grew, and
        stores the new count and the new readings. Otherwise nothing changes. */
    method CheckAutoRefresh(now: real, newData: seq<Reading>) returns (refreshed: bool, data: Option<seq<Reading>>)
      requires Valid()
      modifies this`liveData, this`lastRefreshTime, this`updateCount, this`refreshTrigger
      modifies this`previousCriticalCount, this`showCriticalAlert
      ensures Valid()
      ensures refreshed <==> RefreshDue(old(liveMode), old(lastRefreshTime), now)
      ensures refreshed ==>
        && data == Some(newData) && liveData == Some(newData)
        && lastRefreshTime == now
        && updateCount == old(updateCount) + 1 && refreshTrigger == old(refreshTrigger) + 1
        && previousCriticalCount == CriticalCount(newData)
        && showCriticalAlert == (old(showCriticalAlert) || CriticalCount(newData) > old(previousCriticalCount))
      ensures !refreshed ==>
        && data.None? && liveData == old(liveData) && lastRefreshTime == old(lastRefreshTime)
        && updateCount == old(updateCount) && refreshTrigger == old(refreshTrigger)
        && previousCriticalCount == old(previousCriticalCount) && showCriticalAlert == old(showCriticalAlert)
      ensures authenticated == old(authenticated) && liveMode == old(liveMode) && adminUnlocked == old(adminUnlocked)
    {
      refreshed, data := false, None;
      if liveMode {
        var timeSinceRefresh := TimedeltaSeconds(now - lastRefreshTime);
        if timeSinceRefresh >= RefreshInterval {
          lastRefreshTime := now;
          updateCount := updateCount + 1;
          refreshTrigger := refreshTrigger + 1;
          var previous := previousCriticalCount;
          var current := CriticalCount(newData);
          if current > previous {
            showCriticalAlert := true;
          }
          previousCriticalCount := current;
          liveData := Some(newData);
          refreshed, data := true, Some(newData);
        }
      }
    }

    /** The live-mode button: flips live mode; switching it on records the time, restarts
        the update count at 0 and loads fresh readings. */
    method ToggleLiveMode(now: real, newData: seq<Reading>)
      requires Valid()
      modifies this`liveMode, this`lastRefreshTime, this`updateCount, this`liveData
      ensures Valid()
      ensures liveMode == !old(liveMode)
      ensures liveMode ==> updateCount == 0 && lastRefreshTime == now && liveData == Some(newData)
      ensures !liveMode ==>
        updateCount == old(updateCount) && lastRefreshTime == old(lastRefreshTime) && liveData == old(liveData)
      ensures authenticated == old(authenticated) && adminUnlocked == old(adminUnlocked) && refreshTrigger == old(refreshTrigger)
    {
      liveMode := !liveMode;
      if liveMode {
        lastRefreshTime := now;
        updateCount := 0;
        liveData := Some(newData);
      }
    }

    /** The Force Refresh button, shown only in live mode: one more update, the time
        recorded, fresh readings loaded. */
    method ForceRefresh(now: real, newData: seq<Reading>)
      requires Valid()
      modifies this`updateCount, this`lastRefreshTime, this`liveData
      ensures Valid()
      ensures old(liveMode) ==>
        updateCount == old(updateCount) + 1 && lastRefreshTime == now && liveData == Some(newData)
      ensures !old(liveMode) ==>
        updateCount == old(updateCount) && lastRefreshTime == old(lastRefreshTime) && liveData == old(liveData)
      ensures liveMode == old(liveMode) && refreshTrigger == old(refreshTrigger) && authenticated == old(authenticated)
    {
      if liveMode {
        updateCount := updateCount + 1;
        lastRefreshTime := now;
        liveData := Some(newData);
      }
    }

    /** Each run of the admin panel unlocks it for the chief executive. */
    method CeoAutoUnlock()
      requires Valid()
      modifies this`adminUnlocked
      ensures Valid()
      ensures adminUnlocked == (old(adminUnlocked) || isCeo)
      ensures isCeo == old(isCeo) && authenticated == old(authenticated)
    {
      if isCeo && !adminUnlocked {
        adminUnlocked := true;
      }
    }

    /** The Unlock Admin button, shown while the panel is locked: only the admin password
        unlocks it. */
    method UnlockAdmin(code: string) returns (granted: bool)
      requires Valid()
      modifies this`adminUnlocked
      ensures Valid()
      ensures granted <==> !old(adminUnlocked) && code == AdminPassword
      ensures adminUnlocked == (old(adminUnlocked) || granted)
      ensures isCeo == old(isCeo) && authenticated == old(authenticated)
    {
      granted := false;
      if !adminUnlocked && code == AdminPassword {
        adminUnlocked := true;
        granted := true;
      }
    }

    /** Exit Admin Mode, shown while the panel is unlocked, locks it again. */
    method ExitAdmin()
      requires Valid()
      modifies this`adminUnlocked
      ensures Valid()
      ensures !adminUnlocked
      ensures isCeo == old(isCeo) && authenticated == old(authenticated)
    {
      adminUnlocked := false;
    }
  }

  // ---------------------------------------------------------------------------
  // Sequences of handler runs
  // ---------------------------------------------------------------------------

  /** The failed-attempt counter after a run of rejected codes starting from `n`: each
      rejected code adds one until the button disappears at 3. */
  function AttemptsAfterRejections(n: nat, k: nat): (m: nat)
    requires n <= MaxFailedAttempts
    ensures m <= MaxFailedAttempts
    ensures m == if n + k < MaxFailedAttempts then n + k else MaxFailedAttempts
    decreases k
  {
    if k == 0 || n >= MaxFailedAttempts then n else AttemptsAfterRejections(n + 1, k - 1)
  }

  /** `k` presses of Login with a rejected code on a session that is not authenticated: the
      counter ends at `AttemptsAfterRejections` of where it started, the session stays
      unauthenticated, no privilege flag changes and nothing is logged. */
  method RejectCodes(s: Session, code: string, k: nat, now: real,
                     logger: CloudLogger.CloudLogger, timestamp: string, source: CloudLogger.Source)
    requires s.Valid() && !s.authenticated && code !in ValidPasswords
    modifies s, logger
    ensures s.Valid() && !s.authenticated
    ensures s.failedAttempts == AttemptsAfterRejections(old(s.failedAttempts), k)
    ensures s.clientType == old(s.clientType) && s.accessLevel == old(s.accessLevel)
    ensures s.showMiningPortal == old(s.showMiningPortal) && s.showEpaTools == old(s.showEpaTools)
    ensures s.isCeo == old(s.isCeo) && s.adminUnlocked == old(s.adminUnlocked)
    ensures logger.accessLogs == old(logger.accessLogs)
  {
    var i := 0;
    while i < k
      invariant i <= k
      invariant s.Valid() && !s.authenticated
      invariant s.failedAttempts == AttemptsAfterRejections(old(s.failedAttempts), i)
      invariant s.clientType == old(s.clientType) && s.accessLevel == old(s.accessLevel)
      invariant s.showMiningPortal == old(s.showMiningPortal) && s.showEpaTools == old(s.showEpaTools)
      invariant s.isCeo == old(s.isCeo) && s.adminUnlocked == old(s.adminUnlocked)
      invariant logger.accessLogs == old(logger.accessLogs)
    {
      var accepted := s.Login(code, now, logger, timestamp, source);
      i := i + 1;
    }
  }

  /** Three rejected codes in a fresh session lock the login out; from then on even the
      administrator code is ignored. */
  method LockOutScenario(now: real, logger: CloudLogger.CloudLogger, timestamp: string, source: CloudLogger.Source)
    returns (s: Session, acceptedAfterLockOut: bool)
    modifies logger
    ensures s.failedAttempts == MaxFailedAttempts && !s.authenticated
    ensures !acceptedAfterLockOut && !s.isCeo && !s.adminUnlocked
  {
    s := new Session(now);
    RejectCodes(s, "wrong", 3, now, logger, timestamp, source);
    acceptedAfterLockOut := s.Login(AdminPassword, now, logger, timestamp, source);
  }

  /** The chief executive logs in, the session expires after two hours, and a guest code
      logs in again: the guest session still has the portal, the EPA tools, the unlocked
      admin panel and the chief executive flag, since no handler but logout clears them. */
  method PrivilegesSurviveExpiry(now: real, logger: CloudLogger.CloudLogger, timestamp: string, source: CloudLogger.Source)
    returns (s: Session)
    modifies logger
    ensures s.authenticated && s.accessLevel == "demo_limited" && s.clientType == "demo"
    ensures s.showMiningPortal && s.showEpaTools && s.adminUnlocked && s.isCeo
  {
    s := new Session(now);
    var a := s.Login(AdminPassword, now, logger, timestamp, source);
    var expired := s.CheckSessionExpiry(now + 7201.0);
    a := s.Login("GUEST2024", now + 7202.0, logger, timestamp, source);
  }
}
