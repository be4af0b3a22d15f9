/** The access log of the dashboard (cloud_logger.py, class CloudLogger): appending an entry,
    reading the most recent entries, and the per-client-type analytics. The log lives in the
    session; here it is the logger's `accessLogs` field (empty when the session holds none).
    The timestamp text and the detected source are parameters. */
module CloudLogger {
  import opened Common

  /** Where the dashboard runs, as the source detection reports it. */
  datatype Source = StreamlitCloud | Local | UnknownSource | ErrorSource

  /** One log entry. `clientType` is None for an entry that has no client type at all;
      `LogAccess` always records one. */
  datatype LogEntry = LogEntry(timestamp: string, clientType: Option<string>, action: string, source: Source)

  /** The client type an entry is counted under; "unknown" when it has none. */
  function EntryClientType(e: LogEntry): string
  {
    if e.clientType.Some? then e.clientType.value else "unknown"
  }

  // ---------------------------------------------------------------------------
  // Per-client-type counts, as an insertion-ordered dictionary
  // ---------------------------------------------------------------------------

  /** One key of the counts dictionary with its value; the dictionary keeps its keys in
      the order they were first inserted. */
  datatype TypeCount = TypeCount(clientType: string, count: nat)

  predicate DistinctKeys(c: seq<TypeCount>)
  {
    forall i, j | 0 <= i < j < |c| :: c[i].clientType != c[j].clientType
  }

  function Keys(c: seq<TypeCount>): set<string>
  {
    set i | 0 <= i < |c| :: c[i].clientType
  }

  /** `counts.get(k, 0)`. */
  function Lookup(c: seq<TypeCount>, k: string): nat
  {
    if |c| == 0 then 0 else if c[0].clientType == k then c[0].count else Lookup(c[1..], k)
  }

  /** The sum of the values. */
  function Total(c: seq<TypeCount>): nat
  {
    if |c| == 0 then 0 else c[0].count + Total(c[1..])
  }

  /** `counts[k] = counts.get(k, 0) + 1`: increment an existing key in place, or insert a
      new key with 1 at the end. */
  function Bump(c: seq<TypeCount>, k: string): (r: seq<TypeCount>)
    ensures |r| == if k in Keys(c) then |c| else |c| + 1
  {
    if |c| == 0 then [TypeCount(k, 1)]
    else if c[0].clientType == k then [TypeCount(k, c[0].count + 1)] + c[1..]
    else
      assert Keys(c) == {c[0].clientType} + Keys(c[1..]);
      [c[0]] + Bump(c[1..], k)
  }

  /** Bumping adds one to the total, one to the key's count and nothing to any other
      count, adds the key to the keys and keeps them distinct. */
  lemma BumpFacts(c: seq<TypeCount>, k: string)
    ensures Total(Bump(c, k)) == Total(c) + 1
    ensures forall j :: Lookup(Bump(c, k), j) == Lookup(c, j) + (if j == k then 1 else 0)
    ensures Keys(Bump(c, k)) == Keys(c) + {k}
    ensures DistinctKeys(c) ==> DistinctKeys(Bump(c, k))
  {
    BumpTotal(c, k);
    forall j ensures Lookup(Bump(c, k), j) == Lookup(c, j) + (if j == k then 1 else 0) {
      BumpLookup(c, k, j);
    }
    BumpKeys(c, k);
    if DistinctKeys(c) {
      BumpDistinct(c, k);
    }
  }

  lemma {:induction false} BumpTotal(c: seq<TypeCount>, k: string)
    ensures Total(Bump(c, k)) == Total(c) + 1
  {
    if |c| > 0 && c[0].clientType != k {
      BumpTotal(c[1..], k);
    }
  }

  lemma {:induction false} BumpLookup(c: seq<TypeCount>, k: string, j: string)
    ensures Lookup(Bump(c, k), j) == Lookup(c, j) + (if j == k then 1 else 0)
  {
    if |c| > 0 {
      var r := Bump(c, k);
      if c[0].clientType == k {
        assert r[1..] == c[1..];
      } else {
        BumpLookup(c[1..], k, j);
        assert r[1..] == Bump(c[1..], k);
      }
    }
  }

  /** The keys of a non-empty dictionary: its first key and the keys of the rest. */
  lemma KeysCons(c: seq<TypeCount>)
    requires |c| > 0
    ensures Keys(c) == {c[0].clientType} + Keys(c[1..])
  {
    forall x | x in Keys(c) ensures x in {c[0].clientType} + Keys(c[1..]) {
      var i :| 0 <= i < |c| && c[i].clientType == x;
      if i > 0 {
        assert c[1..][i - 1].clientType == x;
      }
    }
    forall x | x in Keys(c[1..]) ensures x in Keys(c) {
      var i :| 0 <= i < |c[1..]| && c[1..][i].clientType == x;
      assert c[i + 1].clientType == x;
    }
  }

  lemma {:induction false} BumpKeys(c: seq<TypeCount>, k: string)
    ensures Keys(Bump(c, k)) == Keys(c) + {k}
  {
    if |c| > 0 {
      KeysCons(c);
      var r := Bump(c, k);
      KeysCons(r);
      if c[0].clientType == k {
        assert r[1..] == c[1..];
      } else {
        BumpKeys(c[1..], k);
        assert r[1..] == Bump(c[1..], k);
      }
    } else {
      assert Bump(c, k) == [TypeCount(k, 1)];
      KeysCons(Bump(c, k));
      assert Keys(c) == {};
    }
  }

  lemma {:induction false} BumpDistinct(c: seq<TypeCount>, k: string)
    requires DistinctKeys(c)
    ensures DistinctKeys(Bump(c, k))
  {
    if |c| > 0 {
      var r := Bump(c, k);
      if c[0].clientType == k {
        forall i, j | 0 <= i < j < |r| ensures r[i].clientType != r[j].clientType {
          assert r[i].clientType == c[i].clientType && r[j].clientType == c[j].clientType;
        }
      } else {
        assert DistinctKeys(c[1..]);
        BumpDistinct(c[1..], k);
        BumpKeys(c[1..], k);
        assert r[1..] == Bump(c[1..], k);
        KeysCons(c);
        assert c[0].clientType !in Keys(c[1..]);
        forall i, j | 0 <= i < j < |r| ensures r[i].clientType != r[j].clientType {
          if i == 0 {
            assert r[j].clientType == r[1..][j - 1].clientType;
            assert r[j].clientType in Keys(r[1..]);
          } else {
            assert r[i].clientType == r[1..][i - 1].clientType;
            assert r[j].clientType == r[1..][j - 1].clientType;
          }
        }
      }
    }
  }

  /** The counts dictionary that the source's loop builds over `logs`. */
  function CountsOf(logs: seq<LogEntry>): seq<TypeCount>
  {
    if |logs| == 0 then [] else Bump(CountsOf(logs[..|logs| - 1]), EntryClientType(logs[|logs| - 1]))
  }

  /** The client types that occur in a log. */
  function TypesOf(logs: seq<LogEntry>): set<string>
  {
    set i | 0 <= i < |logs| :: EntryClientType(logs[i])
  }

  lemma TypesOfSnoc(logs: seq<LogEntry>)
    requires |logs| > 0
    ensures TypesOf(logs) == TypesOf(logs[..|logs| - 1]) + {EntryClientType(logs[|logs| - 1])}
  {
    var init := logs[..|logs| - 1];
    forall x | x in TypesOf(logs) ensures x in TypesOf(init) + {EntryClientType(logs[|logs| - 1])} {
      var i :| 0 <= i < |logs| && x == EntryClientType(logs[i]);
      if i < |init| { assert init[i] == logs[i]; }
    }
    forall x | x in TypesOf(init) ensures x in TypesOf(logs) {
      var i :| 0 <= i < |init| && x == EntryClientType(init[i]);
      assert init[i] == logs[i];
    }
  }

  /** The counts sum to the number of entries; each key's value is the number of entries of
      that client type; the keys are distinct and are exactly the client types that occur. */
  lemma {:induction false} CountsOfFacts(logs: seq<LogEntry>)
    ensures Total(CountsOf(logs)) == |logs|
    ensures forall k :: Lookup(CountsOf(logs), k) == Count(logs, (e: LogEntry) => EntryClientType(e) == k)
    ensures DistinctKeys(CountsOf(logs))
    ensures Keys(CountsOf(logs)) == TypesOf(logs)
  {
    if |logs| > 0 {
      var init := logs[..|logs| - 1];
      var last := EntryClientType(logs[|logs| - 1]);
      CountsOfFacts(init);
      BumpFacts(CountsOf(init), last);
      TypesOfSnoc(logs);
      forall k ensures Lookup(CountsOf(logs), k) == Count(logs, (e: LogEntry) => EntryClientType(e) == k) {
        CountStep(logs, (e: LogEntry) => EntryClientType(e) == k, |logs| - 1);
        assert logs[..|logs|] == logs;
      }
    }
  }

  // ---------------------------------------------------------------------------
  // Analytics summary
  // ---------------------------------------------------------------------------

  /** The summary dictionary; `note` is present only on the demonstration summary. */
  datatype Summary = Summary(
    totalLogins: nat,
    clientTypes: seq<TypeCount>,
    uniqueClientTypes: nat,
    firstLogin: Option<string>,
    lastLogin: Option<string>,
    note: Option<string>)

  /** The fixed summary shown while the log is empty; the last login is the current time. */
  function DemoAnalytics(now: string): (s: Summary)
    ensures s.totalLogins == Total(s.clientTypes) == 47
    ensures s.uniqueClientTypes == |s.clientTypes| == 3 && DistinctKeys(s.clientTypes)
    ensures s.lastLogin == Some(now)
  {
    Summary(47, [TypeCount("government", 24), TypeCount("corporate", 15), TypeCount("demo", 8)], 3,
      Some("2025-12-01T10:30:00"), Some(now), Some("Demo data for presentation"))
  }

  /** The summary over a log: the demonstration summary when it is empty; otherwise the
      number of entries, the per-type counts, the number of types and the first and last
      timestamps. */
  function Analytics(logs: seq<LogEntry>, now: string): Summary
  {
    if |logs| == 0 then DemoAnalytics(now)
    else
      var counts := CountsOf(logs);
      Summary(|logs|, counts, |counts|, Some(logs[0].timestamp), Some(logs[|logs| - 1].timestamp), None)
  }

  /** With entries present: the counts sum to the total, each type's count is its number of
      entries (an entry without a type counts as "unknown"), the number of types is the
      number of keys, and the first and last timestamps are the first and last entries'. */
  lemma AnalyticsFacts(logs: seq<LogEntry>, now: string)
    requires |logs| > 0
    ensures Analytics(logs, now).totalLogins == |logs|
    ensures Total(Analytics(logs, now).clientTypes) == Analytics(logs, now).totalLogins
    ensures forall k :: Lookup(Analytics(logs, now).clientTypes, k) == Count(logs, (e: LogEntry) => EntryClientType(e) == k)
    ensures DistinctKeys(Analytics(logs, now).clientTypes)
    ensures Analytics(logs, now).uniqueClientTypes == |Keys(Analytics(logs, now).clientTypes)|
    ensures Analytics(logs, now).firstLogin == Some(logs[0].timestamp)
    ensures Analytics(logs, now).lastLogin == Some(logs[|logs| - 1].timestamp)
  {
    CountsOfFacts(logs);
    DistinctKeysCardinality(CountsOf(logs));
  }

  /** Distinct keys: as many keys as entries. */
  lemma {:induction false} DistinctKeysCardinality(c: seq<TypeCount>)
    requires DistinctKeys(c)
    ensures |Keys(c)| == |c|
  {
    if |c| > 0 {
      assert Keys(c) == {c[0].clientType} + Keys(c[1..]);
      assert DistinctKeys(c[1..]);
      DistinctKeysCardinality(c[1..]);
      assert c[0].clientType !in Keys(c[1..]);
    }
  }

  // ---------------------------------------------------------------------------
  // The logger
  // ---------------------------------------------------------------------------

  /** `logs[-limit:]`, or nothing for a log type other than "access". */
  function RecentLogs(logs: seq<LogEntry>, logType: string, limit: int): (r: seq<LogEntry>)
    ensures logType != "access" ==> r == []
    ensures logType == "access" && limit >= 1 ==>
      && |r| == (if |logs| < limit then |logs| else limit)
      && forall i | 0 <= i < |r| :: r[i] == logs[|logs| - |r| + i]
    ensures logType == "access" && limit == 0 ==> r == logs
  {
    if logType == "access" then SliceFrom(logs, -limit) else []
  }

  class CloudLogger {
    var accessLogs: seq<LogEntry>

    constructor ()
      ensures accessLogs == []
    {
      accessLogs := [];
    }

    /** Appends one entry with the given client type and action; earlier entries are kept
        as they were. */
    method LogAccess(clientType: string, action: string, timestamp: string, source: Source)
      returns (entry: LogEntry)
      modifies this
      ensures entry == LogEntry(timestamp, Some(clientType), action, source)
      ensures accessLogs == old(accessLogs) + [entry]
    {
      entry := LogEntry(timestamp, Some(clientType), action, source);
      accessLogs := accessLogs + [entry];
    }

    /** The most recent entries: the last `min(limit, len)` for a limit of 1 or more
        (and, a consequence of Python slicing, the whole log for a limit of 0). */
    function GetRecentLogs(logType: string, limit: int): (r: seq<LogEntry>)
      reads this
      ensures logType != "access" ==> r == []
      ensures logType == "access" && limit >= 1 ==>
        && |r| == (if |accessLogs| < limit then |accessLogs| else limit)
        && forall i | 0 <= i < |r| :: r[i] == accessLogs[|accessLogs| - |r| + i]
      ensures logType == "access" && limit == 0 ==> r == accessLogs
    {
      RecentLogs(accessLogs, logType, limit)
    }

    /** The source's counting loop over the log. */
    method GetAnalyticsSummary(now: string) returns (s: Summary)
      ensures s == Analytics(accessLogs, now)
      ensures |accessLogs| > 0 ==> s.totalLogins == |accessLogs| == Total(s.clientTypes)
    {
      var logs := accessLogs;
      if |logs| == 0 {
        return DemoAnalytics(now);
      }
      var clientCounts: seq<TypeCount> := [];
      var i := 0;
      while i < |logs|
        invariant 0 <= i <= |logs|
        invariant clientCounts == CountsOf(logs[..i])
      {
        assert logs[..i + 1][..i] == logs[..i];
        clientCounts := Bump(clientCounts, EntryClientType(logs[i]));
        i := i + 1;
      }
      assert logs[..i] == logs;
      CountsOfFacts(logs);
      s := Summary(|logs|, clientCounts, |clientCounts|, Some(logs[0].timestamp), Some(logs[|logs| - 1].timestamp), None);
    }
  }
}
