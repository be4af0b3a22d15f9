/** The live monitoring system (utils/enhanced_live.py, class EnhancedLiveSystem): per-river
    event counters, the list of the most recent live events, the 20-second update gate, the
    trended and clamped live readings, and the detection of newly critical rivers. The
    session keys the system reads and writes are fields of the same object. The clock (as
    seconds, and as the formatted time text), the hour and the random draws are
    parameters. */
module EnhancedLive {
  import opened Common
  import opened SampleData

  /** Seconds between two live updates. */
  const RefreshInterval: int := 20

  /** The live event list keeps this many of the most recent events. */
  const MaxLiveEvents: nat := 10

  /** The rivers whose state is tracked from the start. */
  const TrackedRivers: seq<string> := ["Pra River", "Ankobra River", "Birim River", "Tano River", "Offin River"]

  datatype EventType = PollutionSpike | RainfallRunoff

  datatype EventSeverity = WarningSeverity | AlertSeverity

  /** A runoff event is a warning; every other event is an alert. */
  function SeverityOf(t: EventType): (s: EventSeverity)
    ensures s == WarningSeverity <==> t == RainfallRunoff
  {
    if t == RainfallRunoff then WarningSeverity else AlertSeverity
  }

  datatype LastEvent = LastEvent(eventType: EventType, time: string)

  /** A river's tracked state; `lastEvent` is None until its first event. */
  datatype RiverState = RiverState(status: string, lastEvent: Option<LastEvent>, eventCount: nat)

  const InitialRiverState: RiverState := RiverState("normal", None, 0)

  datatype LiveEvent = LiveEvent(time: string, river: string, eventType: EventType, severity: EventSeverity)

  /** The stored alert about newly critical rivers. */
  datatype CriticalAlert = CriticalAlert(count: nat, rivers: seq<string>, time: real)

  /** Appending to the live event list and trimming it to the last 10. */
  function AppendEvent(events: seq<LiveEvent>, e: LiveEvent): (r: seq<LiveEvent>)
    ensures |r| <= MaxLiveEvents || r == events + [e]
    ensures |events| < MaxLiveEvents ==> r == events + [e]
    ensures |r| > 0 && r[|r| - 1] == e
  {
    var all := events + [e];
    assert |all| == |events| + 1 && all[|events|] == e;
    KeepLastElements(all, MaxLiveEvents);
    KeepLast(all, MaxLiveEvents)
  }

  /** The list after appending holds the latest entries of the old list and the new event,
      in arrival order. */
  lemma AppendEventElements(events: seq<LiveEvent>, e: LiveEvent)
    ensures forall i | 0 <= i < |AppendEvent(events, e)| ::
      AppendEvent(events, e)[i] == (events + [e])[|events| + 1 - |AppendEvent(events, e)| + i]
  {
    var all := events + [e];
    assert AppendEvent(events, e) == KeepLast(all, MaxLiveEvents);
    KeepLastElements(all, MaxLiveEvents);
  }

  /** Starting from a list of at most 10, the list never exceeds 10 and always holds the most
      recent events in arrival order. */
  lemma AppendEventBounded(events: seq<LiveEvent>, e: LiveEvent)
    requires |events| <= MaxLiveEvents
    ensures |AppendEvent(events, e)| == if |events| == MaxLiveEvents then MaxLiveEvents else |events| + 1
    ensures |events| == MaxLiveEvents ==> AppendEvent(events, e) == events[1..] + [e]
  {
    if |events| == MaxLiveEvents {
      var r := AppendEvent(events, e);
      AppendEventElements(events, e);
      forall i | 0 <= i < |r| ensures r[i] == (events[1..] + [e])[i] {
        assert r[i] == (events + [e])[1 + i];
      }
    }
  }

  /** The random draws for one row of live data, in the order they are drawn. */
  datatype LiveDraw = LiveDraw(
    spikeRoll: real,    // random() deciding a pollution spike on a high-risk river
    spikeFactor: real,  // uniform(2, 4)
    phDrop: real,       // uniform(0.3, 1.0)
    runoffRoll: real,   // random() deciding runoff during a rainfall event
    runoffAmount: int)  // randint(20, 60)

  /** The range the mining factor is drawn from: more activity between 6:00 and 18:59. */
  function MiningFactorRange(hour: int): (r: (real, real))
    ensures 6 <= hour <= 18 ==> r == (1.1, 1.4)
    ensures !(6 <= hour <= 18) ==> r == (0.8, 1.1)
  {
    if 6 <= hour <= 18 then (1.1, 1.4) else (0.8, 1.1)
  }

  predicate SpikeOn(row: Reading, d: LiveDraw)
  {
    row.riskLevel == HighRisk && d.spikeRoll > 0.9
  }

  predicate RunoffOn(rainfallEvent: bool, d: LiveDraw)
  {
    rainfallEvent && d.runoffRoll > 0.5
  }

  /** An event as a round records it: the river and the kind of event. */
  datatype Occurrence = Occurrence(river: string, eventType: EventType)

  /** The events one live row records, in the order the source records them: a pollution
      spike first, then rainfall runoff. */
  function RowOccurrences(row: Reading, d: LiveDraw, rainfallEvent: bool): (os: seq<Occurrence>)
    ensures |os| <= 2
    ensures forall k | 0 <= k < |os| :: os[k].river == row.riverName
  {
    (if SpikeOn(row, d) then [Occurrence(row.riverName, PollutionSpike)] else [])
    + (if RunoffOn(rainfallEvent, d) then [Occurrence(row.riverName, RainfallRunoff)] else [])
  }

  /** A row records a spike exactly when its spike condition holds, and runoff exactly when
      its runoff condition holds. */
  lemma RowOccurrencesContents(row: Reading, d: LiveDraw, rainfallEvent: bool)
    ensures Occurrence(row.riverName, PollutionSpike) in RowOccurrences(row, d, rainfallEvent) <==> SpikeOn(row, d)
    ensures Occurrence(row.riverName, RainfallRunoff) in RowOccurrences(row, d, rainfallEvent) <==> RunoffOn(rainfallEvent, d)
  {
    var os := RowOccurrences(row, d, rainfallEvent);
    if SpikeOn(row, d) {
      assert os[0] == Occurrence(row.riverName, PollutionSpike);
    }
    if RunoffOn(rainfallEvent, d) {
      assert os[|os| - 1] == Occurrence(row.riverName, RainfallRunoff);
    }
  }

  /** The events the first `n` rows of a round record, row after row in the order of the
      base data. */
  function RoundOccurrences(base: seq<Reading>, draws: seq<LiveDraw>, rainfallEvent: bool, n: nat): (os: seq<Occurrence>)
    requires |draws| == |base| && n <= |base|
    ensures |os| <= 2 * n
  {
    if n == 0 then []
    else RoundOccurrences(base, draws, rainfallEvent, n - 1) + RowOccurrences(base[n - 1], draws[n - 1], rainfallEvent)
  }

  /** A round without a rainfall event and without a spiking high-risk river records
      nothing. */
  lemma {:induction false} QuietRoundRecordsNothing(base: seq<Reading>, draws: seq<LiveDraw>, n: nat)
    requires |draws| == |base| && n <= |base|
    requires forall i | 0 <= i < |base| :: !SpikeOn(base[i], draws[i])
    ensures RoundOccurrences(base, draws, false, n) == []
  {
    if n > 0 {
      QuietRoundRecordsNothing(base, draws, n - 1);
    }
  }

  /** Every event a round records is on one of its rows' rivers. */
  lemma {:induction false} RoundOccurrencesOnRows(base: seq<Reading>, draws: seq<LiveDraw>, rainfallEvent: bool, n: nat, k: nat)
    requires |draws| == |base| && n <= |base|
    requires k < |RoundOccurrences(base, draws, rainfallEvent, n)|
    ensures exists i | 0 <= i < n :: RoundOccurrences(base, draws, rainfallEvent, n)[k].river == base[i].riverName
  {
    var init := RoundOccurrences(base, draws, rainfallEvent, n - 1);
    if k < |init| {
      RoundOccurrencesOnRows(base, draws, rainfallEvent, n - 1, k);
    } else {
      assert RoundOccurrences(base, draws, rainfallEvent, n)[k].river == base[n - 1].riverName;
    }
  }

  /** The live-event entry of an occurrence at `time`. */
  function EventOf(o: Occurrence, time: string): (e: LiveEvent)
    ensures e.river == o.river && e.eventType == o.eventType && e.time == time
    ensures e.severity == SeverityOf(o.eventType)
  {
    LiveEvent(time, o.river, o.eventType, SeverityOf(o.eventType))
  }

  /** The live-event entries of a sequence of occurrences, in the same order. */
  function EventsOf(os: seq<Occurrence>, time: string): (es: seq<LiveEvent>)
    ensures |es| == |os|
  {
    if |os| == 0 then [] else EventsOf(os[..|os| - 1], time) + [EventOf(os[|os| - 1], time)]
  }

  /** Entry `k` is the event of occurrence `k`. */
  lemma {:induction false} EventsOfAt(os: seq<Occurrence>, time: string, k: nat)
    requires k < |os|
    ensures EventsOf(os, time)[k] == EventOf(os[k], time)
  {
    if k < |os| - 1 {
      EventsOfAt(os[..|os| - 1], time, k);
    }
  }

  /** The entries of two runs of occurrences are the entries of their concatenation. */
  lemma {:induction false} EventsOfAppend(a: seq<Occurrence>, b: seq<Occurrence>, time: string)
    ensures EventsOf(a + b, time) == EventsOf(a, time) + EventsOf(b, time)
  {
    if |b| == 0 {
      assert a + b == a;
    } else {
      var b' := b[..|b| - 1];
      assert (a + b)[..|a + b| - 1] == a + b';
      assert (a + b)[|a + b| - 1] == b[|b| - 1];
      EventsOfAppend(a, b', time);
    }
  }

  /** What recording one occurrence does to the river states: the river's entry, created
      as the initial state when missing, counts one more event and remembers this one as
      its last. */
  function RecordOn(states: map<string, RiverState>, o: Occurrence, time: string): map<string, RiverState>
  {
    var st := if o.river in states then states[o.river] else InitialRiverState;
    states[o.river := st.(eventCount := st.eventCount + 1, lastEvent := Some(LastEvent(o.eventType, time)))]
  }

  /** Recording adds the river when missing and keeps every other river; the river counts
      exactly one more event, keeps its status and has this event as its last. */
  lemma RecordOnFacts(states: map<string, RiverState>, o: Occurrence, time: string)
    ensures RecordOn(states, o, time).Keys == states.Keys + {o.river}
    ensures forall k | k in states && k != o.river :: RecordOn(states, o, time)[k] == states[k]
    ensures RecordOn(states, o, time)[o.river].eventCount == (if o.river in states then states[o.river].eventCount else 0) + 1
    ensures RecordOn(states, o, time)[o.river].status == (if o.river in states then states[o.river].status else "normal")
    ensures RecordOn(states, o, time)[o.river].lastEvent == Some(LastEvent(o.eventType, time))
  {
  }

  /** Recording the occurrences one after the other. */
  function RecordAll(states: map<string, RiverState>, os: seq<Occurrence>, time: string): map<string, RiverState>
  {
    if |os| == 0 then states else RecordOn(RecordAll(states, os[..|os| - 1], time), os[|os| - 1], time)
  }

  /** The number of occurrences on river `r`. */
  function EventsOn(os: seq<Occurrence>, r: string): (n: nat)
    ensures n <= |os|
    ensures n == 0 <==> forall k | 0 <= k < |os| :: os[k].river != r
  {
    if |os| == 0 then 0 else EventsOn(os[..|os| - 1], r) + (if os[|os| - 1].river == r then 1 else 0)
  }

  /** Recording two runs of occurrences one after the other is recording their
      concatenation. */
  lemma {:induction false} RecordAllAppend(states: map<string, RiverState>, a: seq<Occurrence>, b: seq<Occurrence>, time: string)
    ensures RecordAll(states, a + b, time) == RecordAll(RecordAll(states, a, time), b, time)
  {
    if |b| == 0 {
      assert a + b == a;
    } else {
      assert (a + b)[..|a + b| - 1] == a + b[..|b| - 1];
      RecordAllAppend(states, a, b[..|b| - 1], time);
    }
  }

  /** Recording row `i`'s events after those of the first `i` rows records the events of
      the first `i + 1` rows. */
  lemma RecordRoundStep(states: map<string, RiverState>, base: seq<Reading>, draws: seq<LiveDraw>, rainfallEvent: bool,
                        time: string, i: nat)
    requires |draws| == |base| && i < |base|
    ensures RecordAll(RecordAll(states, RoundOccurrences(base, draws, rainfallEvent, i), time), RowOccurrences(base[i], draws[i], rainfallEvent), time)
      == RecordAll(states, RoundOccurrences(base, draws, rainfallEvent, i + 1), time)
  {
    RecordAllAppend(states, RoundOccurrences(base, draws, rainfallEvent, i), RowOccurrences(base[i], draws[i], rainfallEvent), time);
  }

  /** Trimming to the last `n`, appending more and trimming again keeps the same last `n`
      as trimming once at the end. */
  lemma KeepLastAppend<T>(xs: seq<T>, ys: seq<T>, n: nat)
    ensures KeepLast(KeepLast(xs, n) + ys, n) == KeepLast(xs + ys, n)
  {
    if |xs| > n {
      var s := xs + ys;
      var a := xs[|xs| - n..];
      assert KeepLast(xs, n) == a;
      assert a + ys == s[|xs| - n..];
      if |ys| == 0 {
        assert KeepLast(a + ys, n) == s[|xs| - n..] == KeepLast(s, n);
      } else {
        assert KeepLast(a + ys, n) == s[|xs| - n..][|ys|..];
        assert s[|xs| - n..][|ys|..] == s[|s| - n..];
      }
    }
  }

  /** With no new events the list is unchanged, since it already holds at most 10. */
  lemma NoEventsKeepList(events: seq<LiveEvent>, time: string)
    requires |events| <= MaxLiveEvents
    ensures KeepLast(events + EventsOf([], time), MaxLiveEvents) == events
  {
    assert events + EventsOf([], time) == events;
  }

  /** Appending one more event, trimming to the last 10, after the events of `os`. */
  lemma AppendEventStep(events: seq<LiveEvent>, os: seq<Occurrence>, o: Occurrence, time: string)
    ensures AppendEvent(KeepLast(events + EventsOf(os, time), MaxLiveEvents), EventOf(o, time))
      == KeepLast(events + EventsOf(os + [o], time), MaxLiveEvents)
  {
    KeepLastAppend(events + EventsOf(os, time), [EventOf(o, time)], MaxLiveEvents);
    EventsOfAppend(os, [o], time);
    assert EventsOf([o], time) == [EventOf(o, time)];
    assert events + EventsOf(os, time) + [EventOf(o, time)] == events + EventsOf(os + [o], time);
  }

  /** Appending row `i`'s events after those of the first `i` rows, trimming each time,
      gives the last 10 of the old list and the first `i + 1` rows' events. */
  lemma LiveEventsStep(events: seq<LiveEvent>, base: seq<Reading>, draws: seq<LiveDraw>, rainfallEvent: bool,
                       time: string, i: nat)
    requires |draws| == |base| && i < |base|
    ensures KeepLast(KeepLast(events + EventsOf(RoundOccurrences(base, draws, rainfallEvent, i), time), MaxLiveEvents)
                     + EventsOf(RowOccurrences(base[i], draws[i], rainfallEvent), time), MaxLiveEvents)
      == KeepLast(events + EventsOf(RoundOccurrences(base, draws, rainfallEvent, i + 1), time), MaxLiveEvents)
  {
    var done := RoundOccurrences(base, draws, rainfallEvent, i);
    var row := RowOccurrences(base[i], draws[i], rainfallEvent);
    KeepLastAppend(events + EventsOf(done, time), EventsOf(row, time), MaxLiveEvents);
    EventsOfAppend(done, row, time);
    assert events + EventsOf(done, time) + EventsOf(row, time) == events + EventsOf(done + row, time);
  }

  /** The river states after recording the first `n` rows of a round, row by row. */
  function RoundStates(states: map<string, RiverState>, base: seq<Reading>, draws: seq<LiveDraw>, rainfallEvent: bool,
                       time: string, n: nat): map<string, RiverState>
    requires |draws| == |base| && n <= |base|
  {
    if n == 0 then states
    else RecordAll(RoundStates(states, base, draws, rainfallEvent, time, n - 1), RowOccurrences(base[n - 1], draws[n - 1], rainfallEvent), time)
  }

  /** Recording row by row is recording all of the round's occurrences in order. */
  lemma {:induction false} RoundStatesAll(states: map<string, RiverState>, base: seq<Reading>, draws: seq<LiveDraw>,
                                          rainfallEvent: bool, time: string, n: nat)
    requires |draws| == |base| && n <= |base|
    ensures RoundStates(states, base, draws, rainfallEvent, time, n)
      == RecordAll(states, RoundOccurrences(base, draws, rainfallEvent, n), time)
  {
    if n > 0 {
      RoundStatesAll(states, base, draws, rainfallEvent, time, n - 1);
      RecordRoundStep(states, base, draws, rainfallEvent, time, n - 1);
    }
  }

  /** The event list after appending the first `n` rows' events, trimming after each row. */
  function RoundEvents(events: seq<LiveEvent>, base: seq<Reading>, draws: seq<LiveDraw>, rainfallEvent: bool,
                       time: string, n: nat): seq<LiveEvent>
    requires |draws| == |base| && n <= |base|
  {
    if n == 0 then events
    else KeepLast(RoundEvents(events, base, draws, rainfallEvent, time, n - 1)
                  + EventsOf(RowOccurrences(base[n - 1], draws[n - 1], rainfallEvent), time), MaxLiveEvents)
  }

  /** Trimming after each row keeps the last 10 of the old list followed by all of the
      round's events. */
  lemma {:induction false} RoundEventsAll(events: seq<LiveEvent>, base: seq<Reading>, draws: seq<LiveDraw>,
                                          rainfallEvent: bool, time: string, n: nat)
    requires |draws| == |base| && n <= |base|
    requires |events| <= MaxLiveEvents
    ensures RoundEvents(events, base, draws, rainfallEvent, time, n)
      == KeepLast(events + EventsOf(RoundOccurrences(base, draws, rainfallEvent, n), time), MaxLiveEvents)
  {
    if n == 0 {
      assert RoundOccurrences(base, draws, rainfallEvent, 0) == [];
      NoEventsKeepList(events, time);
    } else {
      var previous := RoundEvents(events, base, draws, rainfallEvent, time, n - 1);
      var row := EventsOf(RowOccurrences(base[n - 1], draws[n - 1], rainfallEvent), time);
      assert RoundEvents(events, base, draws, rainfallEvent, time, n) == KeepLast(previous + row, MaxLiveEvents);
      RoundEventsAll(events, base, draws, rainfallEvent, time, n - 1);
      LiveEventsStep(events, base, draws, rainfallEvent, time, n - 1);
    }
  }

  /** After recording the occurrences, a river has an entry exactly when it had one or some
      occurrence is on it; its count has risen by the number of occurrences on it, its
      status is kept, and a river without occurrences keeps its whole state. */
  lemma {:induction false} RecordAllCounts(states: map<string, RiverState>, os: seq<Occurrence>, time: string, r: string)
    ensures r in RecordAll(states, os, time) <==> r in states || EventsOn(os, r) > 0
    ensures r in RecordAll(states, os, time) ==>
      RecordAll(states, os, time)[r].eventCount == (if r in states then states[r].eventCount else 0) + EventsOn(os, r)
    ensures r in RecordAll(states, os, time) ==>
      RecordAll(states, os, time)[r].status == (if r in states then states[r].status else "normal")
    ensures r in states && EventsOn(os, r) == 0 ==> RecordAll(states, os, time)[r] == states[r]
  {
    if |os| > 0 {
      RecordAllCounts(states, os[..|os| - 1], time, r);
      RecordOnFacts(RecordAll(states, os[..|os| - 1], time), os[|os| - 1], time);
    }
  }

  /** Every river's count has risen by the number of occurrences on it. */
  lemma RecordAllCountsEach(states: map<string, RiverState>, os: seq<Occurrence>, time: string)
    ensures forall r | r in RecordAll(states, os, time) ::
      RecordAll(states, os, time)[r].eventCount == (if r in states then states[r].eventCount else 0) + EventsOn(os, r)
  {
    forall r | r in RecordAll(states, os, time)
      ensures RecordAll(states, os, time)[r].eventCount == (if r in states then states[r].eventCount else 0) + EventsOn(os, r)
    {
      RecordAllCounts(states, os, time, r);
    }
  }

  /** The turbidity of a live row before clamping: mining factor, optional spike, optional
      runoff, then the trend of 1% per update cycle so far. */
  function TrendedTurbidity(row: Reading, d: LiveDraw, miningFactor: real, rainfallEvent: bool, cycle: nat): real
  {
    var t0 := row.turbidity * miningFactor;
    var t1 := if SpikeOn(row, d) then t0 * d.spikeFactor else t0;
    var t2 := if RunoffOn(rainfallEvent, d) then t1 + d.runoffAmount as real else t1;
    t2 * (1.0 + cycle as real * 0.01)
  }

  /** One live row: the base row with the trended turbidity capped at 500 NTU and the pH,
      lowered by a spike, clamped to [4.0, 9.0]; river, place, risk and oxygen are kept. */
  function LiveRow(row: Reading, d: LiveDraw, miningFactor: real, rainfallEvent: bool, cycle: nat): (r: Reading)
    ensures r.turbidity <= 500.0 && 4.0 <= r.ph <= 9.0
    ensures r.riverName == row.riverName && r.location == row.location
    ensures r.riskLevel == row.riskLevel && r.dissolvedOxygen == row.dissolvedOxygen
    ensures TrendedTurbidity(row, d, miningFactor, rainfallEvent, cycle) <= 500.0 ==>
      r.turbidity == TrendedTurbidity(row, d, miningFactor, rainfallEvent, cycle)
    ensures !SpikeOn(row, d) && 4.0 <= row.ph <= 9.0 ==> r.ph == row.ph
  {
    var p1 := if SpikeOn(row, d) then row.ph - d.phDrop else row.ph;
    row.(turbidity := Min(500.0, TrendedTurbidity(row, d, miningFactor, rainfallEvent, cycle)),
         ph := Max(4.0, Min(9.0, p1)))
  }

  /** The live rows of a round's first `n` base rows. */
  function LiveRows(base: seq<Reading>, draws: seq<LiveDraw>, miningFactor: real, rainfallEvent: bool, cycle: nat, n: nat)
    : (rows: seq<Reading>)
    requires |draws| == |base| && n <= |base|
    ensures |rows| == n
  {
    if n == 0 then []
    else LiveRows(base, draws, miningFactor, rainfallEvent, cycle, n - 1) + [LiveRow(base[n - 1], draws[n - 1], miningFactor, rainfallEvent, cycle)]
  }

  /** Row `i` of a round's live rows is the live row of base row `i`. */
  lemma {:induction false} LiveRowsAt(base: seq<Reading>, draws: seq<LiveDraw>, miningFactor: real, rainfallEvent: bool, cycle: nat, n: nat, i: nat)
    requires |draws| == |base| && i < n <= |base|
    ensures LiveRows(base, draws, miningFactor, rainfallEvent, cycle, n)[i] == LiveRow(base[i], draws[i], miningFactor, rainfallEvent, cycle)
  {
    if i < n - 1 {
      LiveRowsAt(base, draws, miningFactor, rainfallEvent, cycle, n - 1, i);
    }
  }

  /** Every row of the round is the `LiveRow` of its base reading and draw. */
  lemma LiveRowsEach(base: seq<Reading>, draws: seq<LiveDraw>, miningFactor: real, rainfallEvent: bool, cycle: nat)
    requires |draws| == |base|
    ensures forall i | 0 <= i < |base| ::
      LiveRows(base, draws, miningFactor, rainfallEvent, cycle, |base|)[i] == LiveRow(base[i], draws[i], miningFactor, rainfallEvent, cycle)
  {
    forall i | 0 <= i < |base|
      ensures LiveRows(base, draws, miningFactor, rainfallEvent, cycle, |base|)[i] == LiveRow(base[i], draws[i], miningFactor, rainfallEvent, cycle)
    {
      LiveRowsAt(base, draws, miningFactor, rainfallEvent, cycle, |base|, i);
    }
  }

  /** Some Critical row carries river name `name`. */
  predicate CriticalName(rows: seq<Reading>, name: string)
  {
    exists i | 0 <= i < |rows| :: IsCritical(rows[i]) && rows[i].riverName == name
  }

  lemma CriticalNameOfPrefix(rows: seq<Reading>, name: string)
    requires |rows| > 0 && CriticalName(rows[..|rows| - 1], name)
    ensures CriticalName(rows, name)
  {
    var i :| 0 <= i < |rows| - 1 && IsCritical(rows[..|rows| - 1][i]) && rows[..|rows| - 1][i].riverName == name;
    assert rows[i] == rows[..|rows| - 1][i];
  }

  /** The names of the Critical rows, in row order. */
  function CriticalNames(rows: seq<Reading>): (names: seq<string>)
    ensures |names| == Count(rows, IsCritical)
    ensures forall k | 0 <= k < |names| :: CriticalName(rows, names[k])
  {
    if |rows| == 0 then []
    else
      var init := CriticalNames(rows[..|rows| - 1]);
      var names := init + (if IsCritical(rows[|rows| - 1]) then [rows[|rows| - 1].riverName] else []);
      assert forall k | 0 <= k < |init| :: CriticalName(rows, names[k]) by {
        forall k | 0 <= k < |init| ensures CriticalName(rows, names[k]) {
          CriticalNameOfPrefix(rows, init[k]);
        }
      }
      names
  }

  /** Python's `xs[:n]`. */
  function Prefix<T>(xs: seq<T>, n: nat): (r: seq<T>)
    ensures |r| == if |xs| < n then |xs| else n
    ensures r == xs[..|r|]
  {
    if |xs| < n then xs else xs[..n]
  }

  /** The status report; the uptime text is not modelled. */
  datatype LiveStatus =
    | Inactive
    | Active(updateCount: nat, nextRefreshIn: int, criticalRivers: nat, totalEvents: nat)

  class EnhancedLiveSystem {
    var updateCycle: nat
    var lastUpdateTime: Option<real>
    var riverStates: map<string, RiverState>
    // session keys used by the live system
    var enhancedLive: bool
    var liveStartTime: Option<real>
    var liveUpdateCount: nat
    var liveEvents: Option<seq<LiveEvent>>
    var liveData: Option<seq<Reading>>
    var previousCriticalCount: Option<nat>
    var lastAlert: Option<CriticalAlert>

    /** The live event list never holds more than 10 events. */
    predicate Valid()
      reads this
    {
      liveEvents.Some? ==> |liveEvents.value| <= MaxLiveEvents
    }

    constructor ()
      ensures Valid()
      ensures updateCycle == 0 && lastUpdateTime.None? && riverStates == map[]
      ensures !enhancedLive && liveEvents.None? && liveData.None? && lastAlert.None?
      ensures previousCriticalCount.None? && liveUpdateCount == 0 && liveStartTime.None?
    {
      updateCycle, lastUpdateTime, riverStates := 0, None, map[];
      enhancedLive, liveStartTime, liveUpdateCount := false, None, 0;
      liveEvents, liveData, previousCriticalCount, lastAlert := None, None, None, None;
    }

    /** Every tracked river gets status "normal", no last event and a count of 0; other
        entries are kept. */
    method InitRiverStates()
      modifies this`riverStates
      ensures forall r :: r in riverStates <==> r in old(riverStates) || r in TrackedRivers
      ensures forall r | r in TrackedRivers :: riverStates[r] == InitialRiverState
      ensures forall r | r in old(riverStates) && r !in TrackedRivers :: riverStates[r] == old(riverStates)[r]
      ensures updateCycle == old(updateCycle) && lastUpdateTime == old(lastUpdateTime)
      ensures enhancedLive == old(enhancedLive) && liveEvents == old(liveEvents) && liveData == old(liveData)
      ensures liveUpdateCount == old(liveUpdateCount) && liveStartTime == old(liveStartTime)
      ensures previousCriticalCount == old(previousCriticalCount) && lastAlert == old(lastAlert)
    {
      var i := 0;
      while i < |TrackedRivers|
        invariant 0 <= i <= |TrackedRivers|
        invariant forall r :: r in riverStates <==> r in old(riverStates) || r in TrackedRivers[..i]
        invariant forall r | r in TrackedRivers[..i] :: riverStates[r] == InitialRiverState
        invariant forall r | r in old(riverStates) && r !in TrackedRivers[..i] :: riverStates[r] == old(riverStates)[r]
        invariant updateCycle == old(updateCycle) && lastUpdateTime == old(lastUpdateTime)
        invariant enhancedLive == old(enhancedLive) && liveEvents == old(liveEvents) && liveData == old(liveData)
        invariant liveUpdateCount == old(liveUpdateCount) && liveStartTime == old(liveStartTime)
        invariant previousCriticalCount == old(previousCriticalCount) && lastAlert == old(lastAlert)
      {
        assert TrackedRivers[..i + 1] == TrackedRivers[..i] + [TrackedRivers[i]];
        riverStates := riverStates[TrackedRivers[i] := InitialRiverState];
        i := i + 1;
      }
      assert TrackedRivers[..i] == TrackedRivers;
    }

    /** Start live mode: on, started now, no updates and no events yet, rivers reset. */
    method StartLiveMode(now: real) returns (started: bool)
      modifies this`enhancedLive, this`liveStartTime, this`liveUpdateCount, this`liveEvents, this`riverStates
      ensures started && enhancedLive && liveStartTime == Some(now)
      ensures liveUpdateCount == 0 && liveEvents == Some([]) && Valid()
      ensures forall r | r in TrackedRivers :: r in riverStates && riverStates[r] == InitialRiverState
      ensures forall r :: r in riverStates <==> r in old(riverStates) || r in TrackedRivers
      ensures forall r | r in old(riverStates) && r !in TrackedRivers :: riverStates[r] == old(riverStates)[r]
      ensures liveData == old(liveData) && previousCriticalCount == old(previousCriticalCount) && lastAlert == old(lastAlert)
      ensures updateCycle == old(updateCycle) && lastUpdateTime == old(lastUpdateTime)
    {
      enhancedLive := true;
      liveStartTime := Some(now);
      liveUpdateCount := 0;
      liveEvents := Some([]);
      InitRiverStates();
      started := true;
    }

    method StopLiveMode() returns (stopped: bool)
      requires Valid()
      modifies this`enhancedLive
      ensures stopped && !enhancedLive && Valid()
      ensures liveEvents == old(liveEvents) && riverStates == old(riverStates)
      ensures liveStartTime == old(liveStartTime) && liveUpdateCount == old(liveUpdateCount)
      ensures liveData == old(liveData) && lastAlert == old(lastAlert) && previousCriticalCount == old(previousCriticalCount)
      ensures updateCycle == old(updateCycle) && lastUpdateTime == old(lastUpdateTime)
    {
      enhancedLive := false;
      stopped := true;
    }

    /** Record an event on a river: its count goes up by exactly one (from 0 for a river not
        tracked yet) and its last event is this one; other rivers are untouched. When the
        event list exists, the event is appended and the list trimmed to the last 10. */
    method RecordEvent(riverName: string, eventType: EventType, time: string)
      requires Valid()
      modifies this`riverStates, this`liveEvents
      ensures Valid()
      ensures riverStates == RecordOn(old(riverStates), Occurrence(riverName, eventType), time)
      ensures riverName in riverStates
      ensures riverStates[riverName].eventCount ==
        (if riverName in old(riverStates) then old(riverStates)[riverName].eventCount else 0) + 1
      ensures riverStates[riverName].lastEvent == Some(LastEvent(eventType, time))
      ensures riverStates[riverName].status == (if riverName in old(riverStates) then old(riverStates)[riverName].status else "normal")
      ensures forall r | r != riverName :: (r in riverStates <==> r in old(riverStates))
      ensures forall r | r != riverName && r in riverStates :: riverStates[r] == old(riverStates)[r]
      ensures liveEvents == if old(liveEvents).Some?
        then Some(AppendEvent(old(liveEvents).value, LiveEvent(time, riverName, eventType, SeverityOf(eventType))))
        else None
      ensures updateCycle == old(updateCycle) && lastUpdateTime == old(lastUpdateTime)
      ensures enhancedLive == old(enhancedLive) && liveData == old(liveData) && liveUpdateCount == old(liveUpdateCount)
      ensures previousCriticalCount == old(previousCriticalCount) && lastAlert == old(lastAlert)
    {
      RecordOnFacts(riverStates, Occurrence(riverName, eventType), time);
      var st := if riverName in riverStates then riverStates[riverName] else InitialRiverState;
      riverStates := riverStates[riverName := st.(eventCount := st.eventCount + 1, lastEvent := Some(LastEvent(eventType, time)))];
      var event := LiveEvent(time, riverName, eventType, SeverityOf(eventType));
      if liveEvents.Some? {
        var events := liveEvents.value + [event];
        if |events| > MaxLiveEvents {
          events := events[|events| - MaxLiveEvents..];
        }
        liveEvents := Some(events);
      }
    }

    /** The events of one live row: a spike on a high-risk river whose roll exceeds 0.9,
        then runoff during a rainfall event when its roll exceeds 0.5. The river states
        record them in that order, and the event list ends with them, trimmed to the last
        10. */
    method RecordRowEvents(row: Reading, d: LiveDraw, rainfallEvent: bool, time: string)
      requires Valid()
      modifies this`riverStates, this`liveEvents
      ensures Valid()
      ensures riverStates == RecordAll(old(riverStates), RowOccurrences(row, d, rainfallEvent), time)
      ensures liveEvents == if old(liveEvents).Some?
        then Some(KeepLast(old(liveEvents).value + EventsOf(RowOccurrences(row, d, rainfallEvent), time), MaxLiveEvents))
        else None
    {
      ghost var done: seq<Occurrence> := [];
      if old(liveEvents).Some? {
        NoEventsKeepList(old(liveEvents).value, time);
      }
      if row.riskLevel == HighRisk && d.spikeRoll > 0.9 {
        RecordNext(old(riverStates), old(liveEvents), done, Occurrence(row.riverName, PollutionSpike), time);
        done := done + [Occurrence(row.riverName, PollutionSpike)];
      }
      if rainfallEvent && d.runoffRoll > 0.5 {
        RecordNext(old(riverStates), old(liveEvents), done, Occurrence(row.riverName, RainfallRunoff), time);
        done := done + [Occurrence(row.riverName, RainfallRunoff)];
      }
      assert done == RowOccurrences(row, d, rainfallEvent);
    }

    /** Records occurrence `o` after the occurrences `done`, starting from `states` and
        `events`. */
    method RecordNext(ghost states: map<string, RiverState>, ghost events: Option<seq<LiveEvent>>,
                      ghost done: seq<Occurrence>, o: Occurrence, time: string)
      requires Valid()
      requires riverStates == RecordAll(states, done, time)
      requires liveEvents == if events.Some?
        then Some(KeepLast(events.value + EventsOf(done, time), MaxLiveEvents))
        else None
      modifies this`riverStates, this`liveEvents
      ensures Valid()
      ensures riverStates == RecordAll(states, done + [o], time)
      ensures liveEvents == if events.Some?
        then Some(KeepLast(events.value + EventsOf(done + [o], time), MaxLiveEvents))
        else None
    {
      RecordEvent(o.river, o.eventType, time);
      if events.Some? {
        AppendEventStep(events.value, done, o, time);
      }
      assert (done + [o])[..|done|] == done;
    }

    /** One round of live data from the base readings: each row as `LiveRow` computes it,
        with the spike and runoff events recorded as they happen, river by river: the river
        states count them and the event list ends with them, trimmed to the last 10; then
        one more update cycle, last updated now. */
    method GenerateLiveData(base: seq<Reading>, miningFactor: real, rainfallRoll: real, draws: seq<LiveDraw>, now: real, time: string)
      returns (df: seq<Reading>)
      requires |draws| == |base|
      requires Valid()
      modifies this`riverStates, this`liveEvents, this`updateCycle, this`lastUpdateTime
      ensures Valid()
      ensures |df| == |base|
      ensures forall i | 0 <= i < |df| :: df[i] == LiveRow(base[i], draws[i], miningFactor, rainfallRoll > 0.85, old(updateCycle))
      ensures riverStates == RecordAll(old(riverStates), RoundOccurrences(base, draws, rainfallRoll > 0.85, |base|), time)
      ensures forall r | r in riverStates ::
        riverStates[r].eventCount == (if r in old(riverStates) then old(riverStates)[r].eventCount else 0)
                                     + EventsOn(RoundOccurrences(base, draws, rainfallRoll > 0.85, |base|), r)
      ensures liveEvents == if old(liveEvents).Some?
        then Some(KeepLast(old(liveEvents).value + EventsOf(RoundOccurrences(base, draws, rainfallRoll > 0.85, |base|), time), MaxLiveEvents))
        else None
      ensures updateCycle == old(updateCycle) + 1 && lastUpdateTime == Some(now)
      ensures enhancedLive == old(enhancedLive) && liveData == old(liveData) && liveUpdateCount == old(liveUpdateCount)
      ensures previousCriticalCount == old(previousCriticalCount) && lastAlert == old(lastAlert)
    {
      var rainfallEvent := rainfallRoll > 0.85;
      df := GenerateRows(base, draws, miningFactor, rainfallEvent, updateCycle, time);
      RecordAllCountsEach(old(riverStates), RoundOccurrences(base, draws, rainfallEvent, |base|), time);
      updateCycle := updateCycle + 1;
      lastUpdateTime := Some(now);
    }

    /** The loop over the base rows: each live row in order, its events recorded before the
        next row is read. */
    method GenerateRows(base: seq<Reading>, draws: seq<LiveDraw>, miningFactor: real, rainfallEvent: bool, cycle: nat, time: string)
      returns (df: seq<Reading>)
      requires |draws| == |base|
      requires Valid()
      modifies this`riverStates, this`liveEvents
      ensures Valid()
      ensures |df| == |base|
      ensures forall i | 0 <= i < |df| :: df[i] == LiveRow(base[i], draws[i], miningFactor, rainfallEvent, cycle)
      ensures riverStates == RecordAll(old(riverStates), RoundOccurrences(base, draws, rainfallEvent, |base|), time)
      ensures liveEvents == if old(liveEvents).Some?
        then Some(KeepLast(old(liveEvents).value + EventsOf(RoundOccurrences(base, draws, rainfallEvent, |base|), time), MaxLiveEvents))
        else None
    {
      df := [];
      var i := 0;
      while i < |base|
        invariant 0 <= i <= |base|
        invariant Valid()
        invariant df == LiveRows(base, draws, miningFactor, rainfallEvent, cycle, i)
        invariant riverStates == RoundStates(old(riverStates), base, draws, rainfallEvent, time, i)
        invariant liveEvents == if old(liveEvents).Some?
          then Some(RoundEvents(old(liveEvents).value, base, draws, rainfallEvent, time, i))
          else None
      {
        RecordRowEvents(base[i], draws[i], rainfallEvent, time);
        df := df + [LiveRow(base[i], draws[i], miningFactor, rainfallEvent, cycle)];
        i := i + 1;
      }
      LiveRowsEach(base, draws, miningFactor, rainfallEvent, cycle);
      RoundStatesAll(old(riverStates), base, draws, rainfallEvent, time, |base|);
      if old(liveEvents).Some? {
        RoundEventsAll(old(liveEvents).value, base, draws, rainfallEvent, time, |base|);
      }
    }

    /** The status report: inactive while live mode is off; otherwise the update count, the
        seconds to the next refresh (20 less the `.seconds` since the last update, never
        below 0; 20 before the first update), the Critical rows of the latest data and the
        number of live events. */
    function GetLiveStatus(now: real): (s: LiveStatus)
      reads this
      ensures !enhancedLive <==> s == Inactive
      ensures s.Active? ==> 0 <= s.nextRefreshIn <= RefreshInterval
      ensures s.Active? && lastUpdateTime.Some? && 0.0 <= now - lastUpdateTime.value < SecondsPerDay as real ==>
        s.nextRefreshIn == Max((RefreshInterval - (now - lastUpdateTime.value).Floor) as real, 0.0).Floor
      ensures s.Active? ==> s.criticalRivers == (if liveData.Some? then CriticalCount(liveData.value) else 0)
      ensures s.Active? && Valid() ==> s.totalEvents <= MaxLiveEvents
    {
      if !enhancedLive then Inactive
      else
        var nextRefresh :=
          if lastUpdateTime.Some? then
            var elapsed := TimedeltaSeconds(now - lastUpdateTime.value);
            if RefreshInterval - elapsed > 0 then RefreshInterval - elapsed else 0
          else RefreshInterval;
        var criticalCount := if liveData.Some? then CriticalCount(liveData.value) else 0;
        Active(liveUpdateCount, nextRefresh, criticalCount, if liveEvents.Some? then |liveEvents.value| else 0)
    }

    /** Whether `check_and_update` performs an update now. */
    predicate UpdateDue(now: real)
      reads this
    {
      enhancedLive && (lastUpdateTime.None? || TimedeltaSeconds(now - lastUpdateTime.value) >= RefreshInterval)
    }

    /** Update when live mode is on and, after a first update, at least 20 seconds (by
        `.seconds`) have passed: generate new data, store it, count one more live update
        and check for newly critical rivers. Otherwise nothing changes. */
    method CheckAndUpdate(now: real, base: seq<Reading>, miningFactor: real, rainfallRoll: real, draws: seq<LiveDraw>, time: string)
      returns (updated: bool)
      requires |draws| == |base|
      requires Valid()
      modifies this`riverStates, this`liveEvents, this`updateCycle, this`lastUpdateTime
      modifies this`liveData, this`liveUpdateCount, this`previousCriticalCount, this`lastAlert
      ensures Valid()
      ensures updated <==> old(UpdateDue(now))
      ensures updated ==>
        && liveUpdateCount == old(liveUpdateCount) + 1
        && updateCycle == old(updateCycle) + 1 && lastUpdateTime == Some(now)
        && liveData.Some? && |liveData.value| == |base|
        && (forall i | 0 <= i < |base| :: liveData.value[i] == LiveRow(base[i], draws[i], miningFactor, rainfallRoll > 0.85, old(updateCycle)))
        && previousCriticalCount == Some(CriticalCount(liveData.value))
        && riverStates == RecordAll(old(riverStates), RoundOccurrences(base, draws, rainfallRoll > 0.85, |base|), time)
        && liveEvents == (if old(liveEvents).Some?
             then Some(KeepLast(old(liveEvents).value + EventsOf(RoundOccurrences(base, draws, rainfallRoll > 0.85, |base|), time), MaxLiveEvents))
             else None)
        && enhancedLive == old(enhancedLive)
      ensures updated ==>
        var previous := if old(previousCriticalCount).Some? then old(previousCriticalCount).value else 0;
        && (CriticalCount(liveData.value) > previous ==>
              lastAlert == Some(CriticalAlert(CriticalCount(liveData.value) - previous, Prefix(CriticalNames(liveData.value), 3), now)))
        && (CriticalCount(liveData.value) <= previous ==> lastAlert == old(lastAlert))
      ensures !updated ==>
        && liveUpdateCount == old(liveUpdateCount) && updateCycle == old(updateCycle)
        && lastUpdateTime == old(lastUpdateTime) && liveData == old(liveData)
        && liveEvents == old(liveEvents) && riverStates == old(riverStates)
        && previousCriticalCount == old(previousCriticalCount) && lastAlert == old(lastAlert)
    {
      if !enhancedLive {
        return false;
      }
      if lastUpdateTime.Some? {
        var elapsed := TimedeltaSeconds(now - lastUpdateTime.value);
        if elapsed < RefreshInterval {
          return false;
        }
      }
      var newData := GenerateLiveData(base, miningFactor, rainfallRoll, draws, now, time);
      liveData := Some(newData);
      liveUpdateCount := liveUpdateCount + 1;
      CheckCriticalChanges(newData, now);
      updated := true;
    }

    /** Always store the current number of Critical rows. Only when it strictly exceeds the
        stored count (0 when none is stored) record an alert with the difference and the
        first 3 Critical rivers in row order. */
    method CheckCriticalChanges(newData: seq<Reading>, now: real)
      requires Valid()
      modifies this`previousCriticalCount, this`lastAlert
      ensures Valid()
      ensures previousCriticalCount == Some(CriticalCount(newData))
      ensures var previous := if old(previousCriticalCount).Some? then old(previousCriticalCount).value else 0;
        && (CriticalCount(newData) > previous ==>
              && lastAlert == Some(CriticalAlert(CriticalCount(newData) - previous, Prefix(CriticalNames(newData), 3), now))
              && 1 <= lastAlert.value.count && |lastAlert.value.rivers| <= 3)
        && (CriticalCount(newData) <= previous ==> lastAlert == old(lastAlert))
      ensures updateCycle == old(updateCycle) && lastUpdateTime == old(lastUpdateTime) && liveData == old(liveData)
      ensures liveEvents == old(liveEvents) && riverStates == old(riverStates) && liveUpdateCount == old(liveUpdateCount)
      ensures enhancedLive == old(enhancedLive)
    {
      if previousCriticalCount.None? {
        previousCriticalCount := Some(0);
      }
      var currentCritical := CriticalCount(newData);
      var previousCritical := previousCriticalCount.value;
      if currentCritical > previousCritical {
        var newCritical := currentCritical - previousCritical;
        var criticalRivers := CriticalNames(newData);
        var rivers := Prefix(criticalRivers, 3);
        assert |rivers| <= 3;
        lastAlert := Some(CriticalAlert(newCritical, rivers, now));
      }
      previousCriticalCount := Some(currentCritical);
    }
  }

  /** The alert names only rivers whose rows are Critical, and as many as there are Critical
      rows whenever there are at most 3 of them. */
  lemma AlertRiversAreCritical(rows: seq<Reading>, k: nat)
    requires k < |Prefix(CriticalNames(rows), 3)|
    ensures CriticalName(rows, Prefix(CriticalNames(rows), 3)[k])
    ensures CriticalCount(rows) <= 3 ==> |Prefix(CriticalNames(rows), 3)| == CriticalCount(rows)
  {
    assert Prefix(CriticalNames(rows), 3)[k] == CriticalNames(rows)[k];
  }
}
