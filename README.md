# Now-or-Never background logic, in Dafny

The extension combines a Pomodoro focus timer with a distraction tracker. This project models its background core and proves properties of the model:

- **Domain classifier** (`background/domainChecker.js`, module `DomainChecker`, file `domain_checker.dfy`). Hostname normalisation strips one leading `www.` and then lowercases. The list-entry match is a suffix match on a `.` boundary. Both domain lists are lowercased once at load. `DomainChecker` is pure: datatypes, functions and lemmas.
- **Pomodoro state machine** (`background/pomodoroManager.js`, module `PomodoroManager`, file `pomodoro_manager.dfy`). It has start, the one-second tick, stop, reset and the state query.
  - The spec functions `StartState`, `TickState`, `StopState` and `ResetState` give each command's effect on a `PomodoroState` value. `TickEvents`, `StopEvents` and `ResetEvents` give the messages each command sends.
  - The class `Pomodoro` holds the same state in fields. Its methods are proved to have exactly those effects.
- **Distraction tracker** (`background.js`, module `Background`, file `background.dfy`).
  - A map from hostname to milliseconds. The same map holds `<host>_notified_<key>` flags.
  - The debounced write-back, modelled as a pending flag and the stored copy.
  - The session cursor.
  - The periodic sample (`checkDistractingTime`) and the threshold scan (`checkThresholdNotifications`).
  - The decision whether a completed navigation gets the blocking overlay.

  The spec function `Sample` gives one sample's effect on a `TrackerState` value. The class `Tracker` holds that state in fields. Its method `CheckDistractingTime` is proved to agree with `Sample`, and `CheckThresholdNotifications` and `ClearSiteTimers` keep the source's loops.

`prelude.dfy` (module `Prelude`) holds `Option`, ASCII lowercasing and the prefix and suffix tests.

Inputs that come from the browser are parameters:
- the current time;
- the tracking toggle;
- the active tab's URL and its parse (protocol and hostname);
- the Pomodoro state;
- the temporary-access grant;
- the loaded domain lists;
- the threshold table.

The random choice of a message is a parameter `pick`: `pick(i)` is the draw for the i-th threshold, and the message index is `draw % |pool|`.

Some behaviour of the code is easy to misread, and the model follows the code as written:
- **Threshold scan.** The scan visits every threshold in table order and has no early exit. So a counter that jumps past several thresholds in one sample notifies each of them, not just the first.
- **Leaving a site.** A sample of a page that is not distracting, taken while the session is still running, wipes the **whole** map: every host's duration and every flag, not only that host's entries.
- **Passing an untracked page.** An untracked sample clears the cursor: tracking off, no tab, an unparsable URL, a `chrome:` page or the new tab page. A plain page after it then wipes nothing. So reddit → new tab page → google.com keeps every counter and flag, and on return the old counter resumes with its flagged thresholds silent.
- **Map keys.** Keys are the raw `hostname` of the parsed URL, before normalisation. So `www.x.com` and `x.com` are counted separately.
- **Sampling period.** The 6-second alarm period is not modelled. Time is an input.

## Model

| member | source | states |
|---|---|---|
| `Prelude.Lower` | background/domainChecker.js:7 | lowercasing keeps the length and maps every character to its lowercase form (ASCII letters) |
| `DomainChecker.LoadList` | background/domainChecker.js:3-4 | the loaded list has one entry per raw entry, each the raw entry lowercased |
| `DomainChecker.Load` | background/domainChecker.js:3-4 | each loaded list has one entry per raw entry, and entry `i` is raw entry `i` lowercased, for both lists |
| `DomainChecker.LoadIsLowercase` | background/domainChecker.js:3-4 | after loading, no entry of either list holds an upper-case letter |
| `DomainChecker.EntryCaseInsensitive` | background/domainChecker.js:3-4 | two raw lists that agree up to letter case classify every URL the same way |
| `DomainChecker.NormalizeHostName` | background/domainChecker.js:6-8 | the normalised hostname is lowercase |
| `DomainChecker.NormalizeStripsOnePrefix` | background/domainChecker.js:6-8 | `"www." + rest` normalises to `rest` lowercased: exactly one `www.` is removed |
| `DomainChecker.NormalizeWithoutPrefix` | background/domainChecker.js:6-8 | a hostname without a leading lowercase `www.` is only lowercased |
| `DomainChecker.NormalizeExamples` | background/domainChecker.js:6-8 | `www.www.a.com` becomes `www.a.com`; `WWW.Reddit.com` keeps its `www.` because the strip is case-sensitive |
| `DomainChecker.UppercaseWwwIsKept` | background/domainChecker.js:6-8 | an upper-case `WWW.` is not stripped, only lowercased |
| `DomainChecker.NormalizedMatchLower` | background/domainChecker.js:6-15 | a hostname whose normalised form matches an entry also matches it when only lowercased, since the stripped `www.` is one more label |
| `DomainChecker.NormalizeSubdomain` | background/domainChecker.js:6-15 | if the lowercased host matches an entry, then `sub + "." + host` normalises to a host that matches it too, whether or not the result starts with `www.` |
| `DomainChecker.Matches` | background/domainChecker.js:14 | the one-entry rule: `h` equals `d`, or `h` ends with `"." + d`; its meaning is stated by `MatchesIff`, `DotBoundary` and `SubdomainClosure` |
| `DomainChecker.MatchesIff` | background/domainChecker.js:13-15 | hostname `h` matches entry `d` iff `h == d` or `h == x + "." + d` for some `x` |
| `DomainChecker.DotBoundary` | background/domainChecker.js:14 | a non-empty prefix not ending in `.` glued to `d` never matches `d` |
| `DomainChecker.DotBoundaryExamples` | background/domainChecker.js:14 | `notreddit.com` does not match `reddit.com`; `m.reddit.com` and `reddit.com` do |
| `DomainChecker.SubdomainClosure` | background/domainChecker.js:14 | if `h` matches `d`, then so does `sub + "." + h` |
| `DomainChecker.AnyMatch` | background/domainChecker.js:13-15 | `some` over the list is true iff some entry matches |
| `DomainChecker.Classify` | background/domainChecker.js:10-19 | true iff the URL parsed and its normalised hostname matches some entry; an unparsable URL gives false |
| `DomainChecker.IsDistractingDomain` | background/domainChecker.js:10-19 | the classification against the distracting list, with both directions of the iff |
| `DomainChecker.IsProductiveDomain` | background/domainChecker.js:21-30 | the classification against the productive list, with both directions of the iff |
| `DomainChecker.ProductiveIsDistractingOfSwapped` | background/domainChecker.js:21-30 | the productive predicate is the distracting predicate applied to the productive list |
| `DomainChecker.ClassifySubdomain` | background/domainChecker.js:6-15 | a URL whose host is a further subdomain of a classified host is classified too, with or without `www.` on either |
| `DomainChecker.WwwOfClassified` | background/domainChecker.js:6-15 | if `reddit.com` is classified, then `www.reddit.com` is too |
| `DomainChecker.MixedCaseExample` | background/domainChecker.js:1-19 | `www.Reddit.com` is distracting when the raw list holds `Reddit.COM` |
| `PomodoroManager.Nominal` | background/pomodoroManager.js:1-3 | nominal durations are 1500, 300 and 900 seconds, all positive |
| `PomodoroManager.NextMode` | background/pomodoroManager.js:57-65 | after focus comes the long break iff the updated count is a multiple of 4, otherwise the short break; after any break comes focus |
| `PomodoroManager.Initial` | background/pomodoroManager.js:5-10 | the initial state value; its contract is in `InitialSatisfiesInv` |
| `PomodoroManager.StartState` | background/pomodoroManager.js:14-25 | the effect of start on the state; its contract is in `StartResumes` and `CommandsPreserveInv` |
| `PomodoroManager.TickState` | background/pomodoroManager.js:31-98 | the effect of one tick; its contract is in `TickWhileDisabled`, `TickCountsDown`, `TickCompletes` and `RunToCompletion` |
| `PomodoroManager.Completed` | background/pomodoroManager.js:48-89 | the state after the completing tick; its contract is in `TickCompletes`, `CycleCounts`, `CycleFromFocus` and `CycleFromBreak` |
| `PomodoroManager.TickEvents` | background/pomodoroManager.js:42-96 | the messages a tick sends; its contract is in `TickWhileDisabled`, `TickCountsDown`, `TickCompletes` and `Pomodoro.Tick` |
| `PomodoroManager.StopState` | background/pomodoroManager.js:101-107 | the effect of stop; its contract is in `StopKeepsProgress` and `NoOverlayWhenStopped` |
| `PomodoroManager.StopEvents` | background/pomodoroManager.js:109-119 | the overlay removal and the progress broadcast of stop; its contract is in `Pomodoro.Stop` |
| `PomodoroManager.ResetState` | background/pomodoroManager.js:122-126 | the effect of reset; its contract is in `ResetIsInitial` and `NoOverlayWhenStopped` |
| `PomodoroManager.ResetEvents` | background/pomodoroManager.js:122-137 | the messages of reset, stop's first; its contract is in `Pomodoro.Reset` |
| `PomodoroManager.InitialSatisfiesInv` | background/pomodoroManager.js:5-10 | the initial state is disabled, focus, 1500 s, 0 sessions, and satisfies `1 <= remaining <= nominal(mode)` |
| `PomodoroManager.StartResumes` | background/pomodoroManager.js:14-25 | start enables; it keeps positive remaining time and restores the nominal duration when remaining is `<= 0`; mode and count are unchanged |
| `PomodoroManager.TickWhileDisabled` | background/pomodoroManager.js:32 | a tick while disabled changes nothing and sends nothing |
| `PomodoroManager.TickCountsDown` | background/pomodoroManager.js:33-46 | a tick with remaining > 1 takes off exactly one second, keeps mode, count and enabled, and broadcasts the mode's nominal duration as total |
| `PomodoroManager.TickCompletes` | background/pomodoroManager.js:48-97 | the completing tick disables; it adds one session exactly for focus, picks the next mode by the `% 4` rule, sets remaining to the next mode's duration and sends the completion message |
| `PomodoroManager.StopKeepsProgress` | background/pomodoroManager.js:101-120 | stop disables and keeps mode, remaining and count; stopping twice equals stopping once |
| `PomodoroManager.ResetIsInitial` | background/pomodoroManager.js:122-126 | reset from any state yields exactly the initial state |
| `PomodoroManager.CommandsPreserveInv` | background/pomodoroManager.js:14-126 | start, tick, stop and reset preserve `1 <= remaining <= nominal(mode)` |
| `PomodoroManager.RunToCompletion` | background/pomodoroManager.js:31-98 | from a valid running state, exactly `remaining` ticks reach the completion state, and every earlier tick leaves the timer running |
| `PomodoroManager.CycleCompletes` | background/pomodoroManager.js:14-98 | start followed by running to the end is one completion, and it preserves the invariant |
| `PomodoroManager.CycleCounts` | background/pomodoroManager.js:53-62 | a cycle adds one session exactly when it was a focus cycle; a focus cycle leads to the long break iff the new count is a multiple of 4 |
| `PomodoroManager.FirstFocusSession` | background/pomodoroManager.js:14-98 | start from the initial state, then 1500 ticks: a stopped short break of 300 s with one session completed |
| `PomodoroManager.CycleFromFocus` | background/pomodoroManager.js:53-62 | a full focus cycle from count `c` ends stopped in `NextMode(Focus, c + 1)` at full length with count `c + 1` |
| `PomodoroManager.CycleFromBreak` | background/pomodoroManager.js:63-65 | a full break cycle ends stopped in focus at 1500 s with the count unchanged |
| `PomodoroManager.FourthFocusGoesToLongBreak` | background/pomodoroManager.js:53-62 | from reset, focus completions 1 to 3 lead to the short break, the fourth to the long break, and every break back to focus |
| `PomodoroManager.Pomodoro.constructor` | background/pomodoroManager.js:5-12 | the object starts in the initial state with no interval installed |
| `PomodoroManager.Pomodoro.GetState` | background/pomodoroManager.js:170-172 | returns the current state |
| `PomodoroManager.Pomodoro.Start` | background/pomodoroManager.js:14-31 | the fields become `StartState` of the old state, the interval is installed, and the invariant is kept |
| `PomodoroManager.Pomodoro.Tick` | background/pomodoroManager.js:31-98 | the fields become `TickState` of the old state, the messages sent are `TickEvents`, and the invariant is kept |
| `PomodoroManager.Pomodoro.Stop` | background/pomodoroManager.js:101-120 | the fields become `StopState` of the old state; the interval is cleared; the overlay removal and a progress broadcast are sent |
| `PomodoroManager.Pomodoro.Reset` | background/pomodoroManager.js:122-137 | the fields become the initial state; the stop messages are followed by another removal and a 1500/1500 broadcast |
| `Background.UpdatedTimers` | background.js:36-39 | the host's counter (0 if absent) grows by `elapsed`; every other key keeps its value; the key set gains only the host |
| `Background.NotifiedKeyInjective` | background.js:191 | flag keys of one host for different threshold keys differ |
| `Background.HostIsNoFlagKey` | background.js:191 | a hostname is never one of its own flag keys |
| `Background.GetRandomMessage` | background.js:107-114 | an empty pool gives `""`; otherwise the message is a member of the pool |
| `Background.EveryMessageCanBeDrawn` | background.js:107-114 | every message of the pool is the result of some draw |
| `Background.CheckThresholds` | background.js:185-205 | the threshold scan as a fold over table prefixes; its contract is in `CheckFrame`, `CheckKeepsDuration`, `CheckFlags`, `CheckAlerts`, `CheckFiresOnce` and `Tracker.CheckThresholdNotifications` |
| `Background.CheckFrame` | background.js:185-205 | the threshold scan changes no key except flag keys of this host, and every value it changes or adds is `true` |
| `Background.CheckKeepsDuration` | background.js:185-205 | the scan leaves every counter that is not a flag key of the host unchanged, the host's own counter included |
| `Background.CheckFlags` | background.js:185-205 | after the scan, a threshold's flag is set iff it was set before or the accumulated time reached `minutes * 60000` |
| `Background.CheckAlerts` | background.js:185-205 | the notifications are those of every reached, unflagged threshold, in table order, with no break after the first |
| `Background.CheckAlertsFromPool` | background.js:185-205 | every notification carries the key of a threshold of the table, the fixed title, icon and priority, and a message from that threshold's pool (`""` for an empty pool) |
| `Background.CheckFiresOnce` | background.js:185-205 | in one scan a threshold notifies exactly once if it is reached and unflagged, and never otherwise |
| `Background.FiveMinuteScenario` | background.js:185-205 | a counter going from 4m59s to 5m01s with thresholds 5 and 15 raises exactly the 5-minute notification |
| `Background.ScheduleFlushState` | background.js:30-34 | the debounce of `scheduleFlush`; its contract is in `FlushDebounce` |
| `Background.FlushState` | background.js:21-28 | the flush: storage receives the map only when the write succeeds, and the handle is cleared either way; its contract is in `FlushDebounce` and `FlushRestartRoundTrip` |
| `Background.Restart` | background.js:17-19 | hydration from storage with an empty cursor; its contract is in `FlushRestartRoundTrip` and `Tracker.constructor` |
| `Background.FlushDebounce` | background.js:21-34 | scheduling sets the pending flag; scheduling while pending changes nothing; a flush clears the flag |
| `Background.FlushRestartRoundTrip` | background.js:17-28 | a restart after a successful flush reads back the flushed map; after a failed write it reads back what storage held before; the cursor starts empty |
| `Background.Sample` | background.js:116-183 | one sample of the active tab; its contract is in `SampleUntracked`, `SampleStartsSession`, `SampleSameHost`, `SampleSwitchesHost`, `SampleLeaves`, `SampleKeepsFlag`, `SampleSilentWhenFlagged` and `Tracker.CheckDistractingTime` |
| `Background.SampleUntracked` | background.js:122-151 | disabled tracking, no tab or URL, an unparsable URL, `chrome:` or `newtab`: the cursor is reset and nothing else changes |
| `Background.SampleStartsSession` | background.js:157-159 | a distracting page with no session sets the cursor to (hostname, now) and leaves the map and the flush flag alone |
| `Background.SampleSameHost` | background.js:166-170 | the same host gains `now - start`; the start is re-armed to `now`; a flush is pending; the alerts are that host's scan; other non-flag keys keep their values |
| `Background.SampleSwitchesHost` | background.js:160-165 | on a switch only the previous host gains the elapsed time and is scanned; no other non-flag key changes, the new host's counter included; a flush is pending; the cursor becomes (new host, now) |
| `Background.RawHostnamesAreDistinct` | background.js:153-165 | moving from `x.com` to `www.x.com` credits `x.com` and starts a separate session for `www.x.com` |
| `Background.SampleLeaves` | background.js:172-182 | a non-distracting page with a running session empties the map and schedules a flush; with no session the map is kept; the cursor ends empty |
| `Background.LeaveThenReturn` | background.js:153-182 | after leaving while the session is still running and coming back, the host's counter is 0, no flag is set, a threshold is eligible iff it is at most 0 ms, and the session restarts now |
| `Background.SampleKeepsFlag` | background.js:116-205 | a set flag stays set through any sample that does not wipe the map, including a switch to another distracting host and an untracked page |
| `Background.SampleSilentWhenFlagged` | background.js:160-205 | a sample taken while the session is on a host whose threshold is flagged raises no notification for that threshold, whatever the next page is |
| `Background.DwellTelescopes` | background.js:166-170 | over consecutive same-host samples the counter grows by exactly the last time minus the session start |
| `Background.SampleFlagAccount` | background.js:160-205 | in one same-host sample, flagged-after equals flagged-before plus the number of notifications for that threshold |
| `Background.StreakFiresOnce` | background.js:185-205 | over a streak on one host each threshold notifies at most once, never if already flagged, and it is flagged at the end iff flagged at the start or notified |
| `Background.UntrackedThenPlainKeepsMap` | background.js:122-183 | an untracked sample followed by a page that is not distracting leaves the map unchanged, with no notification and an empty cursor |
| `Background.FlagSurvives` | background.js:116-205 | over any sequence of samples none of which wipes the map, following the states they pass through, a set flag is still set at the end |
| `Background.NoPlainPageNeverWipes` | background.js:122-183 | a sequence made only of untracked and distracting pages never wipes the map |
| `Background.SampleFlagIff` | background.js:166-205 | after one same-host sample a threshold is flagged iff it was flagged before or the updated counter has reached it |
| `Background.RunFlagIff` | background.js:166-205 | over a same-host run with times that never go back, a threshold is flagged at the end iff it was flagged at the start or the final counter has reached it |
| `Background.StreakFiresIff` | background.js:185-205 | over such a run, starting unflagged, a threshold notifies exactly once if the final counter has reached it, and never otherwise |
| `Background.ShouldApplyOverlay` | background.js:64-90 | the overlay decision; its contract is in `OverlayOnlyInFocus`, `NoOverlayWhenStopped`, `GrantWindow` and `GrantIsPerUrl` |
| `Background.GrantAt` | background/overlayManager.js:83-90 | the grant written by "just 5 minutes", the URL and `now + 300000`; its contract is in `GrantWindow` |
| `Background.OverlayOnlyInFocus` | background.js:64-90 | the overlay needs an enabled Pomodoro in focus mode, a distracting tab and no honoured grant |
| `Background.NoOverlayWhenStopped` | background.js:69 | after stop or reset no navigation gets the overlay |
| `Background.GrantWindow` | background.js:72-76 | a grant made at `t` for a URL keeps it open through `t + 300000` inclusive (`expiresAt < now` is strict); after that it is as if there were no grant |
| `Background.GrantIsPerUrl` | background.js:74 | a grant for another URL has no effect |
| `Background.Tracker.constructor` | background.js:14-19 | the cache is hydrated from storage (an empty map if none); the cursor is empty and no flush is pending |
| `Background.Tracker.ScheduleFlush` | background.js:30-34 | the state becomes `ScheduleFlushState` of the old state |
| `Background.Tracker.FlushSiteTimers` | background.js:21-28 | the state becomes `FlushState` of the old state: storage receives the map when the write succeeds and keeps its content when it fails; the pending flag is cleared either way |
| `Background.Tracker.UpdateSiteTimers` | background.js:36-39 | the map becomes `UpdatedTimers` of the old map, and a flush is pending |
| `Background.Tracker.CheckThresholdNotifications` | background.js:185-205 | the loop's map and notifications equal the `CheckThresholds` scan; a flush is pending iff one was before or something fired |
| `Background.Tracker.ClearSiteTimers` | background.js:173-177 | the key-by-key delete loop leaves the map empty |
| `Background.Tracker.CheckDistractingTime` | background.js:116-183 | the new state and the notifications added are those of the `Sample` spec function |

## Left out

- Browser calls are not modelled: `chrome.storage`, `chrome.alarms`, `chrome.notifications`, `chrome.runtime.sendMessage`, `chrome.tabs` and `chrome.scripting`.
  - Their results are parameters.
  - Their effects are state fields or emitted-event sequences: the stored map, `Alert` notifications, Pomodoro `Event` messages.
- The writes of `pomodoroEnabled` and `focusModeEnabled` to storage are not modelled. Nothing in the core reads them back.
- The tab reloads of `updateFocusModeForPomodoro` are not modelled. They are browser side effects.
- The DOM work of `removeBlur` is modelled only as the `RemoveOverlay` event.
- Timer scheduling and asynchrony are not modelled:
  - the 6-second sampling alarm and the one-second interval (a tick is a method call);
  - the one-second flush delay (a flush is the `FlushSiteTimers` call);
  - the `await` points inside `checkDistractingTime`;
  - the start-up hydration race.
- URL parsing (`new URL`) is an input, because it is a browser built-in. Likewise the string → number conversion of threshold keys: each table entry carries the minutes its key denotes.
  - The model's parse is unconstrained. It admits capitalised hostnames, which the browser never produces for http(s) URLs, since `new URL(...).hostname` lowercases them.
  - So `UppercaseWwwIsKept`, `NormalizeExamples` and `MixedCaseExample` state facts about the normalisation function itself. They are not about pages a user can reach.
- `Array.prototype.some` is modelled, but `Math.random` is not. It is the draw parameter.
- `toLowerCase` is modelled on ASCII letters only. Unicode case mapping is not modelled.
- `Duration` reads a boolean stored under a hostname key as 0. In JavaScript, `true || 0` plus a number is that number plus 1. This can only happen when a hostname collides with a flag key.
- `Background.SampleSwitchesHost` states that the new host's counter is unchanged only when the new hostname is not itself a flag key of the previous host. Such a name would have to contain `_notified_`.
- `Background.DwellTelescopes` uses one `pick` function for every sample of the run. The durations do not depend on the draws.
- `Background.StreakFiresOnce` uses one `pick` function for every sample of the run. The notification counts do not depend on the draws.
- The message listener's routing is not modelled: `createFiveMinuteTimer` alarms, `backToFocus`, the tracking toggle write, and the start/stop/reset dispatch to the `Pomodoro` methods. The same holds for `onInstalled` and the `progressCheck` alarm. These are plumbing around the modelled operations.
- The grant's shape is still modelled, as `GrantAt` (url, now + 300000). But `background/overlayManager.js` (DOM injection), `background/autoFocusManager.js` (tab switching) and `popup.js` (rendering) are not part of this model.
