/** The background logic of the extension: the distraction tracker (a map
    from hostname to accumulated milliseconds, with per-threshold notified
    flags in the same map), the debounced write-back of that map, the
    periodic sample of the active tab, the threshold notifier, and the
    decision whether a completed navigation gets the blocking overlay.

    The functions give each operation's effect on a state value; the class
    `Tracker` holds the state in fields, and its methods are proved to have
    exactly those effects. */
module Background {
  import opened Prelude
  import opened DomainChecker
  import PomodoroManager

  // ---------------------------------------------------------------------
  // The site-timer map

  /** The map holds numbers (milliseconds) under hostnames and booleans
      under notified-flag keys. */
  datatype Value = Millis(ms: int) | Flag(on: bool)

  type SiteTimers = map<string, Value>

  /** The accumulated time of a host, absent keys counting as 0. */
  function Duration(timers: SiteTimers, hostname: string): int {
    if hostname in timers && timers[hostname].Millis? then timers[hostname].ms else 0
  }

  /** JavaScript truthiness of a stored value. */
  predicate Truthy(v: Value) {
    match v
    case Millis(ms) => ms != 0
    case Flag(on) => on
  }

  predicate IsNotified(timers: SiteTimers, key: string) {
    key in timers && Truthy(timers[key])
  }

  /** The key of the flag that says the threshold `thresholdKey` has fired for `hostname`. */
  function NotifiedKey(hostname: string, thresholdKey: string): (k: string)
    ensures |k| > |hostname|
  {
    hostname + "_notified_" + thresholdKey
  }

  lemma NotifiedKeyInjective(hostname: string, a: string, b: string)
    requires NotifiedKey(hostname, a) == NotifiedKey(hostname, b)
    ensures a == b
  {
    var p := hostname + "_notified_";
    assert NotifiedKey(hostname, a) == p + a && NotifiedKey(hostname, b) == p + b;
    assert a == (p + a)[|p|..];
    assert b == (p + b)[|p|..];
  }

  /** `updateSiteTimers`: the host's counter (0 if absent) grows by `elapsed`,
      and every other key keeps its value. */
  function UpdatedTimers(timers: SiteTimers, hostname: string, elapsed: int): (r: SiteTimers)
    ensures r.Keys == timers.Keys + {hostname}
    ensures Duration(r, hostname) == Duration(timers, hostname) + elapsed
    ensures forall k :: k in timers && k != hostname ==> r[k] == timers[k]
  {
    timers[hostname := Millis(Duration(timers, hostname) + elapsed)]
  }

  // ---------------------------------------------------------------------
  // Thresholds and notifications

  /** One entry of the threshold table: its key as written in the table, the
      number of minutes that key denotes, and its message pool. */
  datatype Threshold = Threshold(key: string, minutes: int, pool: seq<string>)

  function ThresholdMs(t: Threshold): int {
    t.minutes * 60 * 1000
  }

  /** The table's keys are the keys of an object, so they are distinct. */
  predicate DistinctKeys(table: seq<Threshold>) {
    forall i, j :: 0 <= i < j < |table| ==> table[i].key != table[j].key
  }

  const ALERT_TITLE: string := "Procastination Alert"
  const ALERT_ICON: string := "icons/icon128.png"
  const ALERT_PRIORITY: int := 2

  /** A desktop notification; `threshold` records which threshold raised it. */
  datatype Alert = Alert(threshold: string, title: string, message: string, iconUrl: string, priority: int)

  /** `getRandomMessage`: `draw` stands for the random number, reduced to an
      index of the pool. An empty pool gives the empty string. */
  function GetRandomMessage(pool: seq<string>, draw: nat): (m: string)
    ensures pool == [] ==> m == ""
    ensures pool != [] ==> m in pool
  {
    if |pool| > 0 then pool[draw % |pool|] else ""
  }

  /** Every message of the pool is the outcome of some draw. */
  lemma EveryMessageCanBeDrawn(pool: seq<string>, m: string)
    requires m in pool
    ensures exists draw: nat :: GetRandomMessage(pool, draw) == m
  {
    var i :| 0 <= i < |pool| && pool[i] == m;
    assert i % |pool| == i;
    assert GetRandomMessage(pool, i) == m;
  }

  predicate IsFlagKey(key: string, hostname: string, table: seq<Threshold>) {
    exists i :: 0 <= i < |table| && key == NotifiedKey(hostname, table[i].key)
  }

  /** A hostname is never one of its own flag keys. */
  lemma HostIsNoFlagKey(hostname: string, table: seq<Threshold>)
    ensures !IsFlagKey(hostname, hostname, table)
  {
  }

  /** A threshold that fires on this check: reached, and not yet notified. */
  predicate Eligible(timers: SiteTimers, hostname: string, t: Threshold) {
    Duration(timers, hostname) >= ThresholdMs(t) && !IsNotified(timers, NotifiedKey(hostname, t.key))
  }

  datatype Checked = Checked(timers: SiteTimers, alerts: seq<Alert>)

  function AlertFor(t: Threshold, draw: nat): Alert {
    Alert(t.key, ALERT_TITLE, GetRandomMessage(t.pool, draw), ALERT_ICON, ALERT_PRIORITY)
  }

  /** `checkThresholdNotifications` over the first |table| thresholds, in
      table order, with no early exit; the accumulated time is read once
      from `timers` before the scan. `pick(i)` is the draw for the i-th entry. */
  function CheckThresholds(timers: SiteTimers, hostname: string, table: seq<Threshold>, pick: nat -> nat): Checked
    decreases |table|
  {
    if table == [] then Checked(timers, [])
    else
      var n := |table| - 1;
      var before := CheckThresholds(timers, hostname, table[..n], pick);
      var t := table[n];
      var key := NotifiedKey(hostname, t.key);
      if Duration(timers, hostname) >= ThresholdMs(t) && !IsNotified(before.timers, key) then
        Checked(before.timers[key := Flag(true)], before.alerts + [AlertFor(t, pick(n))])
      else before
  }

  function AlertKeys(alerts: seq<Alert>): (keys: seq<string>)
    ensures |keys| == |alerts|
    ensures forall i :: 0 <= i < |alerts| ==> keys[i] == alerts[i].threshold
  {
    if alerts == [] then [] else [alerts[0].threshold] + AlertKeys(alerts[1..])
  }

  lemma AlertKeysConcat(a: seq<Alert>, b: seq<Alert>)
    ensures AlertKeys(a + b) == AlertKeys(a) + AlertKeys(b)
  {
  }

  /** Reference definition: the keys of the eligible thresholds, in table order. */
  function EligibleKeys(timers: SiteTimers, hostname: string, table: seq<Threshold>): seq<string>
    decreases |table|
  {
    if table == [] then []
    else
      var n := |table| - 1;
      EligibleKeys(timers, hostname, table[..n]) +
      (if Eligible(timers, hostname, table[n]) then [table[n].key] else [])
  }

  function Count(xs: seq<string>, x: string): nat {
    if xs == [] then 0 else (if xs[0] == x then 1 else 0) + Count(xs[1..], x)
  }

  lemma {:induction false} CountConcat(a: seq<string>, b: seq<string>, x: string)
    ensures Count(a + b, x) == Count(a, x) + Count(b, x)
  {
    if a != [] {
      assert (a + b)[1..] == a[1..] + b;
      CountConcat(a[1..], b, x);
    } else {
      assert a + b == b;
    }
  }

  /** Checking sets flags only: every other key keeps its value, and the
      keys it adds or changes are flag keys of this host, now `true`. */
  lemma {:induction false} CheckFrame(timers: SiteTimers, hostname: string, table: seq<Threshold>, pick: nat -> nat)
    ensures var c := CheckThresholds(timers, hostname, table, pick);
            timers.Keys <= c.timers.Keys &&
            (forall k :: k in c.timers && !IsFlagKey(k, hostname, table) ==> k in timers && c.timers[k] == timers[k]) &&
            (forall k :: k in c.timers && !(k in timers && c.timers[k] == timers[k]) ==> c.timers[k] == Flag(true))
    decreases |table|
  {
    if table != [] {
      var n := |table| - 1;
      CheckFrame(timers, hostname, table[..n], pick);
      forall k | IsFlagKey(k, hostname, table[..n]) ensures IsFlagKey(k, hostname, table) {
        var i :| 0 <= i < n && k == NotifiedKey(hostname, table[..n][i].key);
        assert table[..n][i] == table[i];
      }
      assert IsFlagKey(NotifiedKey(hostname, table[n].key), hostname, table);
    }
  }

  /** In particular the host's own counter is untouched by a check. */
  lemma CheckKeepsDuration(timers: SiteTimers, hostname: string, other: string, table: seq<Threshold>, pick: nat -> nat)
    requires !IsFlagKey(other, hostname, table)
    ensures Duration(CheckThresholds(timers, hostname, table, pick).timers, other) == Duration(timers, other)
  {
    CheckFrame(timers, hostname, table, pick);
  }

  /** The flag of a threshold that is not in the table prefix is not touched. */
  lemma FreshFlagUntouched(timers: SiteTimers, hostname: string, table: seq<Threshold>, n: nat, pick: nat -> nat)
    requires DistinctKeys(table) && n < |table|
    ensures var key := NotifiedKey(hostname, table[n].key);
            var before := CheckThresholds(timers, hostname, table[..n], pick);
            IsNotified(before.timers, key) == IsNotified(timers, key)
  {
    var key := NotifiedKey(hostname, table[n].key);
    CheckFrame(timers, hostname, table[..n], pick);
    if IsFlagKey(key, hostname, table[..n]) {
      var i :| 0 <= i < n && key == NotifiedKey(hostname, table[..n][i].key);
      NotifiedKeyInjective(hostname, table[n].key, table[i].key);
      assert false;
    }
  }

  /** After a check, a threshold's flag is set exactly when it was set before
      or the accumulated time has reached the threshold. */
  lemma {:induction false} CheckFlags(timers: SiteTimers, hostname: string, table: seq<Threshold>, pick: nat -> nat)
    requires DistinctKeys(table)
    ensures var c := CheckThresholds(timers, hostname, table, pick);
            forall i :: 0 <= i < |table| ==>
              (IsNotified(c.timers, NotifiedKey(hostname, table[i].key)) <==>
               IsNotified(timers, NotifiedKey(hostname, table[i].key)) ||
               Duration(timers, hostname) >= ThresholdMs(table[i]))
    decreases |table|
  {
    if table != [] {
      var n := |table| - 1;
      assert DistinctKeys(table[..n]);
      CheckFlags(timers, hostname, table[..n], pick);
      FreshFlagUntouched(timers, hostname, table, n, pick);
      var c := CheckThresholds(timers, hostname, table, pick);
      forall i | 0 <= i < n
        ensures (IsNotified(c.timers, NotifiedKey(hostname, table[i].key)) <==>
                 IsNotified(timers, NotifiedKey(hostname, table[i].key)) ||
                 Duration(timers, hostname) >= ThresholdMs(table[i]))
      {
        assert table[..n][i] == table[i];
        if NotifiedKey(hostname, table[i].key) == NotifiedKey(hostname, table[n].key) {
          NotifiedKeyInjective(hostname, table[i].key, table[n].key);
        }
      }
    }
  }

  /** The notifications of a check are those of the eligible thresholds, in
      table order: every reached, unflagged threshold fires, and no other. */
  lemma {:induction false} CheckAlerts(timers: SiteTimers, hostname: string, table: seq<Threshold>, pick: nat -> nat)
    requires DistinctKeys(table)
    ensures AlertKeys(CheckThresholds(timers, hostname, table, pick).alerts) == EligibleKeys(timers, hostname, table)
    decreases |table|
  {
    if table != [] {
      var n := |table| - 1;
      assert DistinctKeys(table[..n]);
      CheckAlerts(timers, hostname, table[..n], pick);
      FreshFlagUntouched(timers, hostname, table, n, pick);
      var before := CheckThresholds(timers, hostname, table[..n], pick);
      AlertKeysConcat(before.alerts, [AlertFor(table[n], pick(n))]);
    }
  }

  /** Every notification of a check belongs to a threshold of the table:
      it carries that threshold's key, the fixed title, icon and priority,
      and a message drawn from that threshold's pool. */
  lemma {:induction false} CheckAlertsFromPool(timers: SiteTimers, hostname: string, table: seq<Threshold>, pick: nat -> nat)
    ensures forall a :: a in CheckThresholds(timers, hostname, table, pick).alerts ==>
              exists t :: t in table && a.threshold == t.key &&
                          a.title == ALERT_TITLE && a.iconUrl == ALERT_ICON && a.priority == ALERT_PRIORITY &&
                          (t.pool == [] ==> a.message == "") && (t.pool != [] ==> a.message in t.pool)
    decreases |table|
  {
    if table != [] {
      var n := |table| - 1;
      CheckAlertsFromPool(timers, hostname, table[..n], pick);
      assert forall t :: t in table[..n] ==> t in table;
      assert table[n] in table;
    }
  }

  /** With distinct keys, each threshold's key occurs among the eligible keys
      once if it is eligible and not at all otherwise. */
  lemma {:induction false} EligibleKeysCount(timers: SiteTimers, hostname: string, table: seq<Threshold>, i: nat)
    requires DistinctKeys(table) && i < |table|
    ensures Count(EligibleKeys(timers, hostname, table), table[i].key) ==
            if Eligible(timers, hostname, table[i]) then 1 else 0
    decreases |table|
  {
    var n := |table| - 1;
    var last := if Eligible(timers, hostname, table[n]) then [table[n].key] else [];
    CountConcat(EligibleKeys(timers, hostname, table[..n]), last, table[i].key);
    if i < n {
      assert DistinctKeys(table[..n]);
      assert table[..n][i] == table[i];
      EligibleKeysCount(timers, hostname, table[..n], i);
    } else {
      EligibleKeysAbsent(timers, hostname, table[..n], table[i].key);
    }
  }

  lemma {:induction false} EligibleKeysAbsent(timers: SiteTimers, hostname: string, table: seq<Threshold>, key: string)
    requires forall j :: 0 <= j < |table| ==> table[j].key != key
    ensures Count(EligibleKeys(timers, hostname, table), key) == 0
    decreases |table|
  {
    if table != [] {
      var n := |table| - 1;
      var last := if Eligible(timers, hostname, table[n]) then [table[n].key] else [];
      CountConcat(EligibleKeys(timers, hostname, table[..n]), last, key);
      assert forall j :: 0 <= j < n ==> table[..n][j] == table[j];
      EligibleKeysAbsent(timers, hostname, table[..n], key);
    }
  }

  /** Exactly once: a flagged threshold raises no notification, a reached
      unflagged one raises exactly one, an unreached one none. */
  lemma CheckFiresOnce(timers: SiteTimers, hostname: string, table: seq<Threshold>, pick: nat -> nat, i: nat)
    requires DistinctKeys(table) && i < |table|
    ensures Count(AlertKeys(CheckThresholds(timers, hostname, table, pick).alerts), table[i].key) ==
            if Eligible(timers, hostname, table[i]) then 1 else 0
  {
    CheckAlerts(timers, hostname, table, pick);
    EligibleKeysCount(timers, hostname, table, i);
  }

  // ---------------------------------------------------------------------
  // The sampler

  /** The session cursor (`currentDistractingUrl`, `distractingStartTime`). */
  datatype Cursor = Idle | Session(host: string, start: int)

  /** The source tests the hostname for truthiness, so an empty one counts as no session. */
  predicate Active(c: Cursor) {
    c.Session? && c.host != ""
  }

  /** The in-memory map, the cursor, the pending-flush flag, and what
      durable storage holds under `siteTimers`. */
  datatype TrackerState = TrackerState(timers: SiteTimers, cursor: Cursor, flushPending: bool, stored: SiteTimers)

  /** What one sample sees: the tracking toggle, the active tab's URL (None
      when there is no active tab), the parse of that URL (None when it does
      not parse), and the current time. */
  datatype Observation = Observation(trackingEnabled: bool, activeUrl: Option<string>, parsed: Option<Url>, now: int)

  /** The samples that only reset the cursor. */
  predicate Untracked(obs: Observation) {
    !obs.trackingEnabled ||
    obs.activeUrl.None? || obs.activeUrl.value == "" ||
    obs.parsed.None? ||
    obs.parsed.value.protocol == "chrome:" || obs.parsed.value.hostname == "newtab"
  }

  datatype Outcome = Outcome(state: TrackerState, alerts: seq<Alert>)

  /** `scheduleFlush`: arm the write-back timer unless one is pending. */
  function ScheduleFlushState(s: TrackerState): TrackerState {
    if s.flushPending then s else s.(flushPending := true)
  }

  /** `flushSiteTimers`: storage receives the map when the write succeeds
      (`writeOk`); a failed write is only logged and storage keeps its old
      content. The handle is cleared either way. */
  function FlushState(s: TrackerState, writeOk: bool): TrackerState {
    s.(stored := if writeOk then s.timers else s.stored, flushPending := false)
  }

  /** A restart: the map is hydrated from storage and the cursor is empty. */
  function Restart(s: TrackerState): TrackerState {
    TrackerState(s.stored, Idle, false, s.stored)
  }

  /** `checkDistractingTime`. */
  function Sample(s: TrackerState, obs: Observation, lists: DomainLists, table: seq<Threshold>, pick: nat -> nat): Outcome {
    if Untracked(obs) then Outcome(s.(cursor := Idle), [])
    else if IsDistractingDomain(obs.parsed, lists) then
      var hostname := obs.parsed.value.hostname;
      if !Active(s.cursor) then Outcome(s.(cursor := Session(hostname, obs.now)), [])
      else
        // Same host or a switch: the elapsed time goes to the cursor's host.
        var previous := s.cursor.host;
        var updated := UpdatedTimers(s.timers, previous, obs.now - s.cursor.start);
        var c := CheckThresholds(updated, previous, table, pick);
        Outcome(TrackerState(c.timers, Session(hostname, obs.now), true, s.stored), c.alerts)
    else if Active(s.cursor) then
      Outcome(ScheduleFlushState(s.(timers := map[], cursor := Idle)), [])
    else Outcome(s.(cursor := Idle), [])
  }

  /** At most one flush is pending: scheduling again changes nothing, and a
      flush clears the pending flag. */
  lemma FlushDebounce(s: TrackerState, writeOk: bool)
    ensures ScheduleFlushState(s).flushPending
    ensures s.flushPending ==> ScheduleFlushState(s) == s
    ensures ScheduleFlushState(ScheduleFlushState(s)) == ScheduleFlushState(s)
    ensures !FlushState(s, writeOk).flushPending && FlushState(s, writeOk).timers == s.timers
  {
  }

  /** What a successful flush wrote is what a restart reads back; after a
      failed write a restart reads back what storage held before. The cursor
      is lost either way. */
  lemma FlushRestartRoundTrip(s: TrackerState, writeOk: bool)
    ensures Restart(FlushState(s, writeOk)).timers == if writeOk then s.timers else s.stored
    ensures Restart(FlushState(s, writeOk)).cursor == Idle
  {
  }

  /** Disabled tracking, no tab, an unparsable URL, a chrome: page or the new
      tab page: the cursor is reset and nothing else changes. */
  lemma SampleUntracked(s: TrackerState, obs: Observation, lists: DomainLists, table: seq<Threshold>, pick: nat -> nat)
    requires Untracked(obs)
    ensures Sample(s, obs, lists, table, pick) == Outcome(s.(cursor := Idle), [])
  {
  }

  /** A distracting page with no session running starts one. */
  lemma SampleStartsSession(s: TrackerState, obs: Observation, lists: DomainLists, table: seq<Threshold>, pick: nat -> nat)
    requires !Untracked(obs) && IsDistractingDomain(obs.parsed, lists) && !Active(s.cursor)
    ensures var o := Sample(s, obs, lists, table, pick);
            o.state.cursor == Session(obs.parsed.value.hostname, obs.now) &&
            o.state.timers == s.timers && o.state.flushPending == s.flushPending && o.alerts == []
  {
  }

  /** The same host again: it gains the time since the session start, the
      start is re-armed, and only the host and its flags change. */
  lemma SampleSameHost(s: TrackerState, obs: Observation, lists: DomainLists, table: seq<Threshold>, pick: nat -> nat)
    requires !Untracked(obs) && IsDistractingDomain(obs.parsed, lists)
    requires Active(s.cursor) && s.cursor.host == obs.parsed.value.hostname
    ensures var h := s.cursor.host;
            var o := Sample(s, obs, lists, table, pick);
            Duration(o.state.timers, h) == Duration(s.timers, h) + (obs.now - s.cursor.start) &&
            o.state.cursor == Session(h, obs.now) && o.state.flushPending &&
            o.alerts == CheckThresholds(UpdatedTimers(s.timers, h, obs.now - s.cursor.start), h, table, pick).alerts &&
            (forall k :: k in s.timers && k != h && !IsFlagKey(k, h, table) ==>
               k in o.state.timers && o.state.timers[k] == s.timers[k])
  {
    var h := s.cursor.host;
    var updated := UpdatedTimers(s.timers, h, obs.now - s.cursor.start);
    HostIsNoFlagKey(h, table);
    CheckKeepsDuration(updated, h, h, table, pick);
    CheckFrame(updated, h, table, pick);
  }

  /** A switch between distracting hosts: the time goes to the previous host
      only, its thresholds are checked, the new host's counter is unchanged
      and its session starts now. */
  lemma SampleSwitchesHost(s: TrackerState, obs: Observation, lists: DomainLists, table: seq<Threshold>, pick: nat -> nat)
    requires !Untracked(obs) && IsDistractingDomain(obs.parsed, lists)
    requires Active(s.cursor) && s.cursor.host != obs.parsed.value.hostname
    ensures var previous := s.cursor.host;
            var next := obs.parsed.value.hostname;
            var o := Sample(s, obs, lists, table, pick);
            Duration(o.state.timers, previous) == Duration(s.timers, previous) + (obs.now - s.cursor.start) &&
            (!IsFlagKey(next, previous, table) ==> Duration(o.state.timers, next) == Duration(s.timers, next)) &&
            o.state.cursor == Session(next, obs.now) && o.state.flushPending &&
            o.alerts == CheckThresholds(UpdatedTimers(s.timers, previous, obs.now - s.cursor.start), previous, table, pick).alerts &&
            (forall k :: k in s.timers && k != previous && !IsFlagKey(k, previous, table) ==>
               k in o.state.timers && o.state.timers[k] == s.timers[k])
  {
    var previous := s.cursor.host;
    var next := obs.parsed.value.hostname;
    var updated := UpdatedTimers(s.timers, previous, obs.now - s.cursor.start);
    HostIsNoFlagKey(previous, table);
    CheckKeepsDuration(updated, previous, previous, table, pick);
    CheckFrame(updated, previous, table, pick);
    if !IsFlagKey(next, previous, table) {
      CheckKeepsDuration(updated, previous, next, table, pick);
    }
  }

  lemma WwwXIsDistracting()
    ensures IsDistractingDomain(Some(Url("https:", "www.x.com")), Load(["x.com"], []))
  {
    var lists := Load(["x.com"], []);
    assert Lower("x.com") == "x.com" by { LowerOfLower("x.com"); }
    assert lists.distracting[0] == "x.com";
    NormalizeStripsOnePrefix("x.com");
    assert Matches(NormalizeHostName("www.x.com"), lists.distracting[0]);
  }

  lemma WwwXIsNoFlagKey(table: seq<Threshold>)
    ensures !IsFlagKey("www.x.com", "x.com", table)
  {
    forall i | 0 <= i < |table| ensures "www.x.com" != NotifiedKey("x.com", table[i].key) {
      var k := NotifiedKey("x.com", table[i].key);
      assert k[..5] == "x.com";
      assert "www.x.com"[..5] != "x.com" by { assert "www.x.com"[0] != "x.com"[0]; }
    }
  }

  /** Keys are raw hostnames: moving from x.com to www.x.com is a switch, so
      the time goes to x.com and www.x.com starts a session of its own. */
  lemma RawHostnamesAreDistinct(stored: SiteTimers, table: seq<Threshold>, pick: nat -> nat)
    ensures var lists := Load(["x.com"], []);
            var s := TrackerState(map[], Session("x.com", 1000), false, stored);
            var o := Sample(s, Observation(true, Some("https://www.x.com/"), Some(Url("https:", "www.x.com")), 7000), lists, table, pick);
            Duration(o.state.timers, "x.com") == 6000 && Duration(o.state.timers, "www.x.com") == 0 &&
            o.state.cursor == Session("www.x.com", 7000)
  {
    var lists := Load(["x.com"], []);
    var s := TrackerState(map[], Session("x.com", 1000), false, stored);
    var obs := Observation(true, Some("https://www.x.com/"), Some(Url("https:", "www.x.com")), 7000);
    WwwXIsDistracting();
    WwwXIsNoFlagKey(table);
    SampleSwitchesHost(s, obs, lists, table, pick);
  }

  /** Leaving for a page that is not distracting while a session runs wipes
      the whole map, durations and flags alike, and schedules a flush; with
      no session the map is kept. The cursor ends empty either way. */
  lemma SampleLeaves(s: TrackerState, obs: Observation, lists: DomainLists, table: seq<Threshold>, pick: nat -> nat)
    requires !Untracked(obs) && !IsDistractingDomain(obs.parsed, lists)
    ensures var o := Sample(s, obs, lists, table, pick);
            o.state.cursor == Idle && o.alerts == [] &&
            (Active(s.cursor) ==> o.state.timers == map[] && o.state.flushPending) &&
            (!Active(s.cursor) ==> o.state.timers == s.timers && o.state.flushPending == s.flushPending)
  {
  }

  /** After leaving, returning to a distracting host starts from zero with
      every threshold eligible again. */
  lemma LeaveThenReturn(s: TrackerState, leave: Observation, back: Observation, lists: DomainLists,
                        table: seq<Threshold>, pick: nat -> nat)
    requires Active(s.cursor)
    requires !Untracked(leave) && !IsDistractingDomain(leave.parsed, lists)
    requires !Untracked(back) && IsDistractingDomain(back.parsed, lists)
    ensures var o := Sample(Sample(s, leave, lists, table, pick).state, back, lists, table, pick);
            var h := back.parsed.value.hostname;
            o.state.cursor == Session(h, back.now) && Duration(o.state.timers, h) == 0 &&
            forall t :: Eligible(o.state.timers, h, t) <==> ThresholdMs(t) <= 0
    ensures var o := Sample(Sample(s, leave, lists, table, pick).state, back, lists, table, pick);
            forall key :: !IsNotified(o.state.timers, key)
  {
  }

  /** A sample wipes the map only when it leaves a running session for a
      tracked page that is not distracting. */
  predicate Wipes(s: TrackerState, obs: Observation, lists: DomainLists) {
    !Untracked(obs) && !IsDistractingDomain(obs.parsed, lists) && Active(s.cursor)
  }

  /** A set flag stays set through any sample that does not wipe the map:
      a switch to another distracting host, an untracked page, a first
      sample. The only condition is that the flag key is not itself the
      session's hostname. */
  lemma SampleKeepsFlag(s: TrackerState, obs: Observation, lists: DomainLists, table: seq<Threshold>,
                        pick: nat -> nat, key: string)
    requires IsNotified(s.timers, key)
    requires !Wipes(s, obs, lists)
    requires Active(s.cursor) ==> s.cursor.host != key
    ensures IsNotified(Sample(s, obs, lists, table, pick).state.timers, key)
  {
    if !Untracked(obs) && IsDistractingDomain(obs.parsed, lists) && Active(s.cursor) {
      var previous := s.cursor.host;
      var updated := UpdatedTimers(s.timers, previous, obs.now - s.cursor.start);
      assert updated[key] == s.timers[key];
      CheckFrame(updated, previous, table, pick);
    }
  }

  /** Whatever the next page is, a sample taken while the session is on a
      host whose threshold is flagged raises no notification for that threshold. */
  lemma SampleSilentWhenFlagged(s: TrackerState, obs: Observation, lists: DomainLists, table: seq<Threshold>,
                                pick: nat -> nat, i: nat)
    requires DistinctKeys(table) && i < |table|
    requires Active(s.cursor) && IsNotified(s.timers, NotifiedKey(s.cursor.host, table[i].key))
    ensures Count(AlertKeys(Sample(s, obs, lists, table, pick).alerts), table[i].key) == 0
  {
    if !Untracked(obs) && IsDistractingDomain(obs.parsed, lists) {
      var previous := s.cursor.host;
      var key := NotifiedKey(previous, table[i].key);
      var updated := UpdatedTimers(s.timers, previous, obs.now - s.cursor.start);
      assert key != previous;
      assert IsNotified(updated, key);
      CheckFiresOnce(updated, previous, table, pick, i);
    }
  }

  /** An untracked page in between clears the cursor, so a following page
      that is not distracting wipes nothing: the map is what it was. */
  lemma UntrackedThenPlainKeepsMap(s: TrackerState, mid: Observation, plain: Observation, lists: DomainLists,
                                   table: seq<Threshold>, pick: nat -> nat)
    requires Active(s.cursor) && Untracked(mid)
    requires !Untracked(plain) && !IsDistractingDomain(plain.parsed, lists)
    ensures var o := Sample(Sample(s, mid, lists, table, pick).state, plain, lists, table, pick);
            o.state.timers == s.timers && o.state.cursor == Idle && o.alerts == []
  {
  }

  /** A counter that jumps from 4m59s to 5m01s in one sample, with thresholds
      at 5 and 15 minutes, raises exactly one notification: the 5-minute one. */
  lemma FiveMinuteScenario(stored: SiteTimers, p5: seq<string>, p15: seq<string>, pick: nat -> nat)
    ensures var lists := Load(["youtube.com"], []);
            var table := [Threshold("5", 5, p5), Threshold("15", 15, p15)];
            var s := TrackerState(map["youtube.com" := Millis(299000)], Session("youtube.com", 10000), false, stored);
            var o := Sample(s, Observation(true, Some("https://youtube.com/"), Some(Url("https:", "youtube.com")), 12000),
                            lists, table, pick);
            AlertKeys(o.alerts) == ["5"] && Duration(o.state.timers, "youtube.com") == 301000
  {
    var lists := Load(["youtube.com"], []);
    var table := [Threshold("5", 5, p5), Threshold("15", 15, p15)];
    var s := TrackerState(map["youtube.com" := Millis(299000)], Session("youtube.com", 10000), false, stored);
    var obs := Observation(true, Some("https://youtube.com/"), Some(Url("https:", "youtube.com")), 12000);
    assert Lower("youtube.com") == "youtube.com" by { LowerOfLower("youtube.com"); }
    assert !StartsWith("youtube.com", "www.") by { assert "youtube.com"[0] != 'w'; }
    assert IsDistractingDomain(obs.parsed, lists) by {
      assert Matches(NormalizeHostName("youtube.com"), lists.distracting[0]);
    }
    SampleSameHost(s, obs, lists, table, pick);
    var updated := UpdatedTimers(s.timers, "youtube.com", 2000);
    assert DistinctKeys(table);
    CheckAlerts(updated, "youtube.com", table, pick);
    assert updated == map["youtube.com" := Millis(301000)];
    assert !IsNotified(updated, NotifiedKey("youtube.com", "5"));
    assert table[..1] == [Threshold("5", 5, p5)];
    assert EligibleKeys(updated, "youtube.com", table[..1]) == ["5"];
  }

  // ---------------------------------------------------------------------
  // Runs of samples

  /** Consecutive samples of the same tab URL at the given times. */
  function Run(s: TrackerState, activeUrl: string, url: Url, times: seq<int>, lists: DomainLists,
               table: seq<Threshold>, pick: nat -> nat): Outcome
    decreases |times|
  {
    if times == [] then Outcome(s, [])
    else
      var o := Sample(s, Observation(true, Some(activeUrl), Some(url), times[0]), lists, table, pick);
      var rest := Run(o.state, activeUrl, url, times[1..], lists, table, pick);
      Outcome(rest.state, o.alerts + rest.alerts)
  }

  /** The time sum telescopes: over consecutive samples of the host that the
      session is on, its counter grows by exactly the last time minus the
      session start, and the session ends re-armed at the last time. */
  lemma {:induction false} DwellTelescopes(s: TrackerState, activeUrl: string, url: Url, times: seq<int>,
                                           lists: DomainLists, table: seq<Threshold>, pick: nat -> nat)
    requires times != []
    requires !Untracked(Observation(true, Some(activeUrl), Some(url), 0))
    requires IsDistractingDomain(Some(url), lists)
    requires Active(s.cursor) && s.cursor.host == url.hostname
    ensures var r := Run(s, activeUrl, url, times, lists, table, pick);
            Duration(r.state.timers, url.hostname) ==
              Duration(s.timers, url.hostname) + times[|times| - 1] - s.cursor.start &&
            r.state.cursor == Session(url.hostname, times[|times| - 1])
    decreases |times|
  {
    var obs := Observation(true, Some(activeUrl), Some(url), times[0]);
    assert !Untracked(obs);
    SampleSameHost(s, obs, lists, table, pick);
    var o := Sample(s, obs, lists, table, pick);
    if |times| > 1 {
      DwellTelescopes(o.state, activeUrl, url, times[1..], lists, table, pick);
    }
  }

  function Indicator(b: bool): nat {
    if b then 1 else 0
  }

  /** One same-host sample: a threshold's flag is set afterwards exactly when
      it was set before or the sample notified it, and it notifies at most once. */
  lemma SampleFlagAccount(s: TrackerState, obs: Observation, lists: DomainLists, table: seq<Threshold>,
                          pick: nat -> nat, i: nat)
    requires DistinctKeys(table) && i < |table|
    requires !Untracked(obs) && IsDistractingDomain(obs.parsed, lists)
    requires Active(s.cursor) && s.cursor.host == obs.parsed.value.hostname
    ensures var h := s.cursor.host;
            var key := NotifiedKey(h, table[i].key);
            var o := Sample(s, obs, lists, table, pick);
            Indicator(IsNotified(o.state.timers, key)) ==
              Indicator(IsNotified(s.timers, key)) + Count(AlertKeys(o.alerts), table[i].key)
  {
    var h := s.cursor.host;
    var key := NotifiedKey(h, table[i].key);
    var updated := UpdatedTimers(s.timers, h, obs.now - s.cursor.start);
    assert key != h;
    assert IsNotified(updated, key) == IsNotified(s.timers, key);
    CheckFlags(updated, h, table, pick);
    CheckFiresOnce(updated, h, table, pick, i);
  }

  /** Exactly once per streak: over a run of samples on the session's host,
      the number of notifications for a threshold plus whether it was flagged
      at the start equals whether it is flagged at the end — so it fires at
      most once, and never when it was already flagged. */
  lemma {:induction false} StreakFiresOnce(s: TrackerState, activeUrl: string, url: Url, times: seq<int>,
                                           lists: DomainLists, table: seq<Threshold>, pick: nat -> nat, i: nat)
    requires DistinctKeys(table) && i < |table|
    requires !Untracked(Observation(true, Some(activeUrl), Some(url), 0))
    requires IsDistractingDomain(Some(url), lists)
    requires Active(s.cursor) && s.cursor.host == url.hostname
    ensures var r := Run(s, activeUrl, url, times, lists, table, pick);
            var key := NotifiedKey(url.hostname, table[i].key);
            Indicator(IsNotified(r.state.timers, key)) ==
              Indicator(IsNotified(s.timers, key)) + Count(AlertKeys(r.alerts), table[i].key)
    ensures Count(AlertKeys(Run(s, activeUrl, url, times, lists, table, pick).alerts), table[i].key) <= 1
    ensures IsNotified(s.timers, NotifiedKey(url.hostname, table[i].key)) ==>
            Count(AlertKeys(Run(s, activeUrl, url, times, lists, table, pick).alerts), table[i].key) == 0
    decreases |times|
  {
    if times != [] {
      var obs := Observation(true, Some(activeUrl), Some(url), times[0]);
      assert !Untracked(obs);
      var o := Sample(s, obs, lists, table, pick);
      SampleFlagAccount(s, obs, lists, table, pick, i);
      SampleSameHost(s, obs, lists, table, pick);
      StreakFiresOnce(o.state, activeUrl, url, times[1..], lists, table, pick, i);
      var rest := Run(o.state, activeUrl, url, times[1..], lists, table, pick);
      AlertKeysConcat(o.alerts, rest.alerts);
      CountConcat(AlertKeys(o.alerts), AlertKeys(rest.alerts), table[i].key);
    }
  }

  /** Samples of arbitrary observations, one after the other. */
  function Samples(s: TrackerState, obs: seq<Observation>, lists: DomainLists,
                   table: seq<Threshold>, pick: nat -> nat): Outcome
    decreases |obs|
  {
    if obs == [] then Outcome(s, [])
    else
      var o := Sample(s, obs[0], lists, table, pick);
      var rest := Samples(o.state, obs[1..], lists, table, pick);
      Outcome(rest.state, o.alerts + rest.alerts)
  }

  /** No sample of the sequence wipes the map, following the states the
      samples pass through. */
  predicate NeverWipes(s: TrackerState, obs: seq<Observation>, lists: DomainLists,
                       table: seq<Threshold>, pick: nat -> nat)
    decreases |obs|
  {
    obs == [] ||
    (!Wipes(s, obs[0], lists) && NeverWipes(Sample(s, obs[0], lists, table, pick).state, obs[1..], lists, table, pick))
  }

  /** A run made only of untracked and distracting pages never wipes. */
  lemma {:induction false} NoPlainPageNeverWipes(s: TrackerState, obs: seq<Observation>, lists: DomainLists,
                                                 table: seq<Threshold>, pick: nat -> nat)
    requires forall j :: 0 <= j < |obs| ==> Untracked(obs[j]) || IsDistractingDomain(obs[j].parsed, lists)
    ensures NeverWipes(s, obs, lists, table, pick)
    decreases |obs|
  {
    if obs != [] {
      assert forall j :: 0 <= j < |obs[1..]| ==> obs[1..][j] == obs[j + 1];
      NoPlainPageNeverWipes(Sample(s, obs[0], lists, table, pick).state, obs[1..], lists, table, pick);
    }
  }

  /** A flag, once set, survives every sample until the map is wiped:
      switching between distracting hosts, passing untracked pages (a
      chrome: page, the new tab page, tracking switched off) and visiting a
      plain page after the cursor was cleared all keep it. */
  lemma {:induction false} FlagSurvives(s: TrackerState, obs: seq<Observation>, lists: DomainLists,
                                        table: seq<Threshold>, pick: nat -> nat, key: string)
    requires IsNotified(s.timers, key)
    requires NeverWipes(s, obs, lists, table, pick)
    requires forall j :: 0 <= j < |obs| && obs[j].parsed.Some? ==> obs[j].parsed.value.hostname != key
    requires Active(s.cursor) ==> s.cursor.host != key
    ensures IsNotified(Samples(s, obs, lists, table, pick).state.timers, key)
    decreases |obs|
  {
    if obs != [] {
      SampleKeepsFlag(s, obs[0], lists, table, pick, key);
      var o := Sample(s, obs[0], lists, table, pick);
      assert Active(o.state.cursor) ==> o.state.cursor.host != key;
      assert forall j :: 0 <= j < |obs[1..]| ==> obs[1..][j] == obs[j + 1];
      FlagSurvives(o.state, obs[1..], lists, table, pick, key);
    }
  }

  predicate NonDecreasing(times: seq<int>) {
    forall j, k :: 0 <= j <= k < |times| ==> times[j] <= times[k]
  }

  /** One same-host sample: the flag is set afterwards iff it was set before
      or the counter, after the sample, has reached the threshold. */
  lemma SampleFlagIff(s: TrackerState, obs: Observation, lists: DomainLists, table: seq<Threshold>,
                      pick: nat -> nat, i: nat)
    requires DistinctKeys(table) && i < |table|
    requires !Untracked(obs) && IsDistractingDomain(obs.parsed, lists)
    requires Active(s.cursor) && s.cursor.host == obs.parsed.value.hostname
    ensures var h := s.cursor.host;
            var key := NotifiedKey(h, table[i].key);
            var o := Sample(s, obs, lists, table, pick);
            IsNotified(o.state.timers, key) <==>
              IsNotified(s.timers, key) || Duration(o.state.timers, h) >= ThresholdMs(table[i])
  {
    var h := s.cursor.host;
    var key := NotifiedKey(h, table[i].key);
    var updated := UpdatedTimers(s.timers, h, obs.now - s.cursor.start);
    assert key != h;
    assert IsNotified(updated, key) == IsNotified(s.timers, key);
    CheckFlags(updated, h, table, pick);
    HostIsNoFlagKey(h, table);
    CheckKeepsDuration(updated, h, h, table, pick);
  }

  /** Over a run on the session's host with times that never go back, a
      threshold is flagged at the end iff it was flagged at the start or the
      final counter has reached it. */
  lemma {:induction false} RunFlagIff(s: TrackerState, activeUrl: string, url: Url, times: seq<int>,
                                      lists: DomainLists, table: seq<Threshold>, pick: nat -> nat, i: nat)
    requires DistinctKeys(table) && i < |table|
    requires !Untracked(Observation(true, Some(activeUrl), Some(url), 0))
    requires IsDistractingDomain(Some(url), lists)
    requires Active(s.cursor) && s.cursor.host == url.hostname
    requires times != [] && NonDecreasing(times) && s.cursor.start <= times[0]
    ensures var r := Run(s, activeUrl, url, times, lists, table, pick);
            var key := NotifiedKey(url.hostname, table[i].key);
            IsNotified(r.state.timers, key) <==>
              IsNotified(s.timers, key) || Duration(r.state.timers, url.hostname) >= ThresholdMs(table[i])
    decreases |times|
  {
    var h := url.hostname;
    var obs := Observation(true, Some(activeUrl), Some(url), times[0]);
    assert !Untracked(obs);
    var o := Sample(s, obs, lists, table, pick);
    SampleFlagIff(s, obs, lists, table, pick, i);
    SampleSameHost(s, obs, lists, table, pick);
    if |times| > 1 {
      var tail := times[1..];
      assert NonDecreasing(tail) by {
        assert forall j :: 0 <= j < |tail| ==> tail[j] == times[j + 1];
      }
      assert times[0] <= tail[0] && times[0] <= tail[|tail| - 1];
      RunFlagIff(o.state, activeUrl, url, tail, lists, table, pick, i);
      DwellTelescopes(o.state, activeUrl, url, tail, lists, table, pick);
    }
  }

  /** The firing half of exactly once: over a run that starts with the
      threshold unflagged, it is notified exactly once if the final counter
      has reached it, and never otherwise. */
  lemma StreakFiresIff(s: TrackerState, activeUrl: string, url: Url, times: seq<int>,
                       lists: DomainLists, table: seq<Threshold>, pick: nat -> nat, i: nat)
    requires DistinctKeys(table) && i < |table|
    requires !Untracked(Observation(true, Some(activeUrl), Some(url), 0))
    requires IsDistractingDomain(Some(url), lists)
    requires Active(s.cursor) && s.cursor.host == url.hostname
    requires times != [] && NonDecreasing(times) && s.cursor.start <= times[0]
    requires !IsNotified(s.timers, NotifiedKey(url.hostname, table[i].key))
    ensures var r := Run(s, activeUrl, url, times, lists, table, pick);
            Count(AlertKeys(r.alerts), table[i].key) ==
              if Duration(r.state.timers, url.hostname) >= ThresholdMs(table[i]) then 1 else 0
  {
    StreakFiresOnce(s, activeUrl, url, times, lists, table, pick, i);
    RunFlagIff(s, activeUrl, url, times, lists, table, pick, i);
  }

  // ---------------------------------------------------------------------
  // The navigation gate

  /** The "just 5 minutes" grant: a URL and the time it expires. */
  datatype Grant = Grant(url: string, expiresAt: int)

  const GRANT_MILLIS: int := 5 * 60 * 1000

  /** The grant the overlay writes when the user asks for five more minutes. */
  function GrantAt(url: string, now: int): Grant {
    Grant(url, now + GRANT_MILLIS)
  }

  /** A grant is honoured for its own URL up to and including its expiry time. */
  predicate GrantHonoured(grant: Option<Grant>, url: string, now: int) {
    grant.Some? && grant.value.url == url && !(grant.value.expiresAt < now)
  }

  /** The `onCompleted` handler's decision to inject the overlay. `navUrl` is
      the navigation's URL; `tabUrl` the URL of the tab looked up afterwards
      (None when the lookup fails) and `tabParsed` its parse. */
  function ShouldApplyOverlay(pomodoro: PomodoroManager.PomodoroState, grant: Option<Grant>, navUrl: string,
                              tabUrl: Option<string>, tabParsed: Option<Url>, now: int, lists: DomainLists): bool
  {
    !StartsWith(navUrl, "chrome://") && navUrl != "about:newtab" &&
    pomodoro.enabled && pomodoro.mode == PomodoroManager.Focus &&
    !GrantHonoured(grant, navUrl, now) &&
    tabUrl.Some? && tabUrl.value != "" &&
    IsDistractingDomain(tabParsed, lists)
  }

  /** The overlay needs a running focus session and a distracting tab. */
  lemma OverlayOnlyInFocus(pomodoro: PomodoroManager.PomodoroState, grant: Option<Grant>, navUrl: string,
                           tabUrl: Option<string>, tabParsed: Option<Url>, now: int, lists: DomainLists)
    requires ShouldApplyOverlay(pomodoro, grant, navUrl, tabUrl, tabParsed, now, lists)
    ensures pomodoro.enabled && pomodoro.mode == PomodoroManager.Focus
    ensures tabParsed.Some? && IsDistractingDomain(tabParsed, lists)
    ensures !GrantHonoured(grant, navUrl, now)
  {
  }

  /** A stopped or reset timer never blocks. */
  lemma NoOverlayWhenStopped(pomodoro: PomodoroManager.PomodoroState, grant: Option<Grant>, navUrl: string,
                             tabUrl: Option<string>, tabParsed: Option<Url>, now: int, lists: DomainLists)
    ensures !ShouldApplyOverlay(PomodoroManager.StopState(pomodoro), grant, navUrl, tabUrl, tabParsed, now, lists)
    ensures !ShouldApplyOverlay(PomodoroManager.ResetState(pomodoro), grant, navUrl, tabUrl, tabParsed, now, lists)
  {
  }

  /** A grant made at `grantedAt` keeps its URL open through `grantedAt +
      300000` inclusive, and from the next millisecond on the overlay is
      back whenever the other conditions hold. */
  lemma GrantWindow(pomodoro: PomodoroManager.PomodoroState, url: string, grantedAt: int, now: int,
                    tabUrl: Option<string>, tabParsed: Option<Url>, lists: DomainLists)
    ensures now <= grantedAt + 300000 ==>
              !ShouldApplyOverlay(pomodoro, Some(GrantAt(url, grantedAt)), url, tabUrl, tabParsed, now, lists)
    ensures now > grantedAt + 300000 ==>
              ShouldApplyOverlay(pomodoro, Some(GrantAt(url, grantedAt)), url, tabUrl, tabParsed, now, lists) ==
              ShouldApplyOverlay(pomodoro, None, url, tabUrl, tabParsed, now, lists)
  {
  }

  /** A grant for one URL does not open another. */
  lemma GrantIsPerUrl(pomodoro: PomodoroManager.PomodoroState, g: Grant, navUrl: string, now: int,
                      tabUrl: Option<string>, tabParsed: Option<Url>, lists: DomainLists)
    requires g.url != navUrl
    ensures ShouldApplyOverlay(pomodoro, Some(g), navUrl, tabUrl, tabParsed, now, lists) ==
            ShouldApplyOverlay(pomodoro, None, navUrl, tabUrl, tabParsed, now, lists)
  {
  }

  // ---------------------------------------------------------------------
  // The tracker object

  class Tracker {
    var timers: SiteTimers
    var flushPending: bool
    var stored: SiteTimers
    var cursor: Cursor
    /** The notifications raised so far, oldest first. */
    var notifications: seq<Alert>
    const lists: DomainLists
    const table: seq<Threshold>

    function State(): TrackerState
      reads this
    {
      TrackerState(timers, cursor, flushPending, stored)
    }

    /** Start-up: the cache is hydrated from what storage holds (an empty map
        if nothing), and the cursor is empty. */
    constructor (storedTimers: Option<SiteTimers>, lists: DomainLists, table: seq<Threshold>)
      ensures this.lists == lists && this.table == table
      ensures stored == (if storedTimers.Some? then storedTimers.value else map[])
      ensures State() == Restart(State()) && notifications == []
    {
      var fromStorage := if storedTimers.Some? then storedTimers.value else map[];
      timers := fromStorage;
      stored := fromStorage;
      flushPending := false;
      cursor := Idle;
      notifications := [];
      this.lists := lists;
      this.table := table;
    }

    method ScheduleFlush()
      modifies this`flushPending
      ensures State() == ScheduleFlushState(old(State()))
    {
      if !flushPending {
        flushPending := true;
      }
    }

    /** Runs when the write-back timer fires; `writeOk` is whether the
        storage write succeeds. */
    method FlushSiteTimers(writeOk: bool)
      modifies this`stored, this`flushPending
      ensures State() == FlushState(old(State()), writeOk)
    {
      if writeOk {
        stored := timers;
      }
      flushPending := false;
    }

    method UpdateSiteTimers(hostname: string, elapsed: int)
      modifies this`timers, this`flushPending
      ensures timers == UpdatedTimers(old(timers), hostname, elapsed) && flushPending
    {
      timers := timers[hostname := Millis(Duration(timers, hostname) + elapsed)];
      ScheduleFlush();
    }

    method CheckThresholdNotifications(hostname: string, pick: nat -> nat)
      modifies this`timers, this`flushPending, this`notifications
      ensures var c := CheckThresholds(old(timers), hostname, table, pick);
              timers == c.timers && notifications == old(notifications) + c.alerts &&
              flushPending == (old(flushPending) || c.alerts != [])
    {
      ghost var timers0, notifications0, pending0 := timers, notifications, flushPending;
      var accumulatedTime := Duration(timers, hostname);
      var i := 0;
      while i < |table|
        invariant 0 <= i <= |table|
        invariant var c := CheckThresholds(timers0, hostname, table[..i], pick);
                  timers == c.timers && notifications == notifications0 + c.alerts &&
                  flushPending == (pending0 || c.alerts != [])
      {
        var threshold := table[i];
        var thresholdMs := threshold.minutes * 60 * 1000;
        var key := NotifiedKey(hostname, threshold.key);
        assert table[..i + 1][..i] == table[..i];
        if accumulatedTime >= thresholdMs && !IsNotified(timers, key) {
          var message := GetRandomMessage(threshold.pool, pick(i));
          notifications := notifications + [Alert(threshold.key, ALERT_TITLE, message, ALERT_ICON, ALERT_PRIORITY)];
          timers := timers[key := Flag(true)];
          ScheduleFlush();
        }
        i := i + 1;
      }
      assert table[..|table|] == table;
    }

    /** Deletes the current host's key, then every key of the map. */
    method ClearSiteTimers(current: string)
      modifies this`timers
      ensures timers == map[]
    {
      timers := timers - {current};
      var keys := timers.Keys;
      while keys != {}
        invariant timers.Keys == keys
        decreases |keys|
      {
        var key :| key in keys;
        timers := timers - {key};
        keys := keys - {key};
      }
    }

    method CheckDistractingTime(obs: Observation, pick: nat -> nat)
      modifies this`timers, this`flushPending, this`notifications, this`cursor
      ensures var o := Sample(old(State()), obs, lists, table, pick);
              State() == o.state && notifications == old(notifications) + o.alerts
    {
      if !obs.trackingEnabled {
        cursor := Idle;
        return;
      }
      if obs.activeUrl.None? || obs.activeUrl.value == "" {
        cursor := Idle;
        return;
      }
      if obs.parsed.None? {
        cursor := Idle;
        return;
      }
      var parsedUrl := obs.parsed.value;
      if parsedUrl.protocol == "chrome:" || parsedUrl.hostname == "newtab" {
        cursor := Idle;
        return;
      }
      if IsDistractingDomain(obs.parsed, lists) {
        var hostname := parsedUrl.hostname;
        var now := obs.now;
        if !Active(cursor) {
          cursor := Session(hostname, now);
        } else if cursor.host != hostname {
          var elapsed := now - cursor.start;
          var previous := cursor.host;
          UpdateSiteTimers(previous, elapsed);
          CheckThresholdNotifications(previous, pick);
          cursor := Session(hostname, now);
        } else {
          var elapsed := now - cursor.start;
          UpdateSiteTimers(hostname, elapsed);
          CheckThresholdNotifications(hostname, pick);
          cursor := Session(hostname, now);
        }
      } else {
        if Active(cursor) {
          ClearSiteTimers(cursor.host);
          ScheduleFlush();
        }
        cursor := Idle;
      }
    }
  }
}
