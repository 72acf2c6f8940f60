/** The background service's session state machine: one `active` slot, the pause deadline, the
    tracking switch, the rule set, the last heartbeat per tab and the stored log list. Every
    browser event or popup message is one atomic method; the clock (`now`) and what the browser
    reports about a tab are parameters. */
module Tracker {
  import opened Common
  import opened Text
  import opened Rules
  import opened Logs

  /** What `chrome.tabs` reports about a tab: `url` is absent when the browser does not expose it,
      and `host` is what URL parsing gives for it (the empty string when it cannot be parsed). */
  datatype Tab = Tab(id: int, active: bool, url: Option<string>, host: string)

  /** `tab.url || ""`. */
  function UrlText(t: Tab): string
  {
    if t.url.Some? then t.url.value else ""
  }

  /** A change notification of `chrome.storage`: each present field carries its new value. */
  datatype StorageDelta = StorageDelta(
    rules: Option<seq<string>>, pausedUntil: Option<int>,
    trackingEnabled: Option<bool>, badgeMode: Option<string>)

  /** `ACTIVITY_STALE_MS`: a tab silent for longer than this is idle. */
  const ACTIVITY_STALE_MS := 60000

  /** Sessions shorter than this are not logged. */
  const MIN_SESSION_MS := 1000

  /** `chrome.windows.WINDOW_ID_NONE`. */
  const WINDOW_ID_NONE := -1

  const DEFAULT_RULES: seq<string> := [
    "chatgpt.com", "chat.openai.com", "openai.com", "claude.ai", "gemini.google.com",
    "perplexity.ai", "midjourney.com", "runwayml.com", "poe.com"]

  /** The stored logs after the active session `s` is closed at `now`: a session of at least one
      second is appended and the list compacted; a shorter one is dropped. */
  function Closed(logs: seq<Log>, s: Session, now: int): seq<Log>
  {
    if Max(0, now - s.start) >= MIN_SESSION_MS then
      Compact(logs + [Log(Ms(s.start), Ms(now), s.domain)])
    else logs
  }

  /** Closing a session of at least a second loses none of it: some stored entry of its site covers
      its whole interval, and the stored list is left compacted. A shorter one leaves the list as it was. */
  lemma ClosedShape(logs: seq<Log>, s: Session, now: int)
    ensures var r := Closed(logs, s, now);
      if now - s.start >= MIN_SESSION_MS then
        Compact(r) == r &&
        exists k :: 0 <= k < |r| && Covers(r[k], Log(Ms(s.start), Ms(now), s.domain))
      else r == logs
  {
    if now - s.start >= MIN_SESSION_MS {
      var e := Log(Ms(s.start), Ms(now), s.domain);
      var all := logs + [e];
      CompactIdempotent(all);
      if |all| > 1 {
        CompactShape(all);
        assert all[|all| - 1] == e;
      } else {
        assert Compact(all) == [e];
        assert Covers(e, e);
      }
    }
  }

  /** An 800 ms visit leaves no trace in the log. */
  lemma ShortSessionExample(logs: seq<Log>)
    ensures Closed(logs, Session(7, "claude.ai", 5000), 5800) == logs
  {
  }

  /** `new Set(list)`: the distinct elements of the list, first occurrences first. */
  function Distinct(list: seq<string>): (r: seq<string>)
    ensures forall x :: x in r <==> x in list
    ensures forall i, j :: 0 <= i < j < |r| ==> r[i] != r[j]
  {
    if list == [] then []
    else
      var init := Distinct(list[..|list| - 1]);
      var x := list[|list| - 1];
      assert list == list[..|list| - 1] + [x];
      if x in init then init else init + [x]
  }

  /** `msg.ts || Date.now()`: the heartbeat's own time stamp unless it is missing or 0. */
  function HeartbeatTime(ts: Option<int>, now: int): (t: int)
    ensures t == now || (ts == Some(t) && t != 0)
  {
    if ts.Some? && ts.value != 0 then ts.value else now
  }

  /** The heartbeat's own shortcut: with no session running, a tab reporting a URL the rules
      match starts one, whatever the tab's focus, the switch or the pause. */
  predicate HeartbeatStarts(t: Tab, active: Option<Session>, rules: seq<string>)
  {
    active.None? && t.url.Some? && Tracked(t.url.value, t.host, rules)
  }

  class Tracker {
    var trackingEnabled: bool
    /** `state.rules`, the rule set the matcher reads. */
    var rules: seq<string>
    var active: Option<Session>
    var pausedUntil: int
    var badgeMode: string
    var lastActivityByTab: map<int, int>
    /** The `logs` array in extension storage. */
    var logs: seq<Log>
    /** The `rules` array in extension storage, which the popup edits. */
    var storedRules: seq<string>

    /** The tab being timed has a recorded activity time. Every session event keeps this once it
        holds, but a session restored from storage at start-up comes without one. */
    ghost predicate Valid()
      reads this
    {
      active.Some? ==> active.value.tabId in lastActivityByTab
    }

    /** The settings no session event touches. */
    twostate predicate SettingsKept()
      reads this
    {
      && trackingEnabled == old(trackingEnabled) && rules == old(rules)
      && pausedUntil == old(pausedUntil) && badgeMode == old(badgeMode)
      && storedRules == old(storedRules)
    }

    /** Start-up (`ensureDefaults` then `hydrateCache`) from what storage holds: a missing or
        empty rule list becomes the default list, a missing switch is on, a missing deadline
        is 0 and a missing badge mode is "minutes". */
    constructor(stored: Option<seq<string>>, enabled: Option<bool>, paused: Option<int>,
                mode: string, storedLogs: seq<Log>)
      ensures storedRules == (if stored.None? || stored.value == [] then DEFAULT_RULES else stored.value)
      ensures rules == Distinct(storedRules)
      ensures trackingEnabled == (enabled != Some(false))
      ensures pausedUntil == (if paused.Some? then paused.value else 0)
      ensures badgeMode == (if mode == "" then "minutes" else mode)
      ensures active == None && lastActivityByTab == map[] && logs == storedLogs
      ensures Valid()
    {
      var list := if stored.None? || stored.value == [] then DEFAULT_RULES else stored.value;
      storedRules := list;
      rules := Distinct(list);
      trackingEnabled := enabled != Some(false);
      pausedUntil := if paused.Some? then paused.value else 0;
      badgeMode := if mode == "" then "minutes" else mode;
      active := None;
      lastActivityByTab := map[];
      logs := storedLogs;
    }

    /** `compactLogsOnBoot`: the compacted list is written back only when its length differs,
        so a list that compaction would merely reorder stays as it was. */
    method CompactLogsOnBoot()
      modifies this
      ensures logs == if |Compact(old(logs))| != |old(logs)| then Compact(old(logs)) else old(logs)
      ensures active == old(active) && lastActivityByTab == old(lastActivityByTab) && SettingsKept()
    {
      var merged := CompactLogs(logs);
      if |merged| != |logs| {
        logs := merged;
      }
    }

    /** `restoreActiveFromStorage`: a session saved in storage becomes the active one unless one is
        already running; its tab gets no activity time. */
    method RestoreActiveFromStorage(saved: Option<Session>)
      modifies this
      ensures active == if old(active).None? && saved.Some? then saved else old(active)
      ensures logs == old(logs) && lastActivityByTab == old(lastActivityByTab) && SettingsKept()
    {
      if saved.Some? && active.None? {
        active := saved;
      }
    }

    /** `startSession`: the tab becomes the active one and its activity time is now. */
    method StartSession(tabId: int, domain: string, now: int)
      modifies this
      ensures active == Some(Session(tabId, domain, now))
      ensures lastActivityByTab == old(lastActivityByTab)[tabId := now]
      ensures logs == old(logs) && SettingsKept()
      ensures Valid()
    {
      lastActivityByTab := lastActivityByTab[tabId := now];
      active := Some(Session(tabId, domain, now));
    }

    /** `endActiveSession`: with no active session nothing happens; otherwise the slot is
        cleared and the session logged if it lasted at least a second. */
    method EndActiveSession(now: int)
      modifies this
      ensures active == None
      ensures logs == if old(active).Some? then Closed(old(logs), old(active).value, now) else old(logs)
      ensures lastActivityByTab == old(lastActivityByTab) && SettingsKept()
      ensures Valid()
    {
      if active.None? {
        return;
      }
      var act := active.value;
      var dur := Max(0, now - act.start);
      active := None;
      if dur >= MIN_SESSION_MS {
        var merged := CompactLogs(logs + [Log(Ms(act.start), Ms(now), act.domain)]);
        logs := merged;
      }
    }

    /** `maybeCloseActive`: the same guard as `EndActiveSession`, kept as its own entry point. */
    method MaybeCloseActive(now: int)
      modifies this
      ensures active == None
      ensures logs == if old(active).Some? then Closed(old(logs), old(active).value, now) else old(logs)
      ensures lastActivityByTab == old(lastActivityByTab) && SettingsKept()
      ensures Valid()
    {
      if active.None? {
        return;
      }
      EndActiveSession(now);
    }

    /** The tab may be timed: the browser reports it (`tab` is None when the lookup fails) as
        the active tab of its window on a tracked URL, tracking is on and the pause is over. */
    predicate MayTrack(tab: Option<Tab>, now: int)
      reads this
    {
      && tab.Some? && tab.value.active
      && Tracked(UrlText(tab.value), tab.value.host, rules)
      && trackingEnabled && now >= pausedUntil
    }

    /** The conditions under which `maybeStartOrExtend` starts timing `tabId`: it may be tracked
        and is not the tab already timed. */
    predicate StartAllowed(tabId: int, tab: Option<Tab>, now: int)
      reads this
    {
      MayTrack(tab, now) && !(active.Some? && active.value.tabId == tabId)
    }

    /** `maybeStartOrExtend`: starts a session on an active, matching tab while tracking is on and
        not paused, unless that tab is already the one being timed. A session on another tab is
        replaced without being logged. */
    method MaybeStartOrExtend(tabId: int, tab: Option<Tab>, now: int)
      modifies this
      ensures old(StartAllowed(tabId, tab, now)) ==>
        active == Some(Session(tabId, tab.value.host, now)) &&
        lastActivityByTab == old(lastActivityByTab)[tabId := now]
      ensures !old(StartAllowed(tabId, tab, now)) ==>
        active == old(active) && lastActivityByTab == old(lastActivityByTab)
      ensures logs == old(logs) && SettingsKept()
      ensures old(Valid()) ==> Valid()
    {
      if tab.None? || !tab.value.active {
        return;
      }
      var t := tab.value;
      var matches := UrlMatchesRules(UrlText(t), t.host, rules);
      if !matches || !trackingEnabled || now < pausedUntil {
        return;
      }
      if active.Some? && active.value.tabId == tabId {
        return;
      }
      StartSession(tabId, t.host, now);
    }

    /** `handleTabActivated`: any session is closed first, then the new tab may start one. */
    method HandleTabActivated(tabId: int, tab: Option<Tab>, now: int)
      modifies this
      ensures logs == if old(active).Some? then Closed(old(logs), old(active).value, now) else old(logs)
      ensures active == if old(MayTrack(tab, now)) then Some(Session(tabId, tab.value.host, now)) else None
      ensures lastActivityByTab ==
        if old(MayTrack(tab, now)) then old(lastActivityByTab)[tabId := now] else old(lastActivityByTab)
      ensures SettingsKept() && Valid()
    {
      MaybeCloseActive(now);
      MaybeStartOrExtend(tabId, tab, now);
    }

    /** `handleTabUpdated`: only a finished load (or an update with no status) of the active tab
        with a URL counts; if it still matches, the tab may start a session, and if the timed tab
        navigated away from the rules, its session ends. Every other update changes nothing. */
    method HandleTabUpdated(tabId: int, status: string, tab: Option<Tab>, now: int)
      modifies this
      ensures var seen := (status == "" || status == "complete") && tab.Some? && tab.value.active && tab.value.url.Some?;
        var hit := seen && Tracked(tab.value.url.value, tab.value.host, rules);
        var leave := seen && !hit && old(active).Some? && old(active).value.tabId == tabId;
        var start := hit && old(StartAllowed(tabId, tab, now));
        && active == (if leave then None else if start then Some(Session(tabId, tab.value.host, now)) else old(active))
        && logs == (if leave then Closed(old(logs), old(active).value, now) else old(logs))
        && lastActivityByTab == (if start then old(lastActivityByTab)[tabId := now] else old(lastActivityByTab))
      ensures SettingsKept() && (old(Valid()) ==> Valid())
    {
      if status != "" && status != "complete" {
        return;
      }
      if tab.Some? && tab.value.active && tab.value.url.Some? {
        var stillMatches := UrlMatchesRules(tab.value.url.value, tab.value.host, rules);
        if !stillMatches && active.Some? && active.value.tabId == tabId {
          EndActiveSession(now);
          return;
        }
        if stillMatches {
          MaybeStartOrExtend(tabId, tab, now);
        }
      }
    }

    /** `handleTabRemoved`: closing the timed tab ends its session; the tab's activity record
        is always forgotten. */
    method HandleTabRemoved(tabId: int, now: int)
      modifies this
      ensures active == if old(active).Some? && old(active).value.tabId == tabId then None else old(active)
      ensures logs == if old(active).Some? && old(active).value.tabId == tabId
        then Closed(old(logs), old(active).value, now) else old(logs)
      ensures lastActivityByTab == old(lastActivityByTab) - {tabId}
      ensures SettingsKept()
      ensures old(Valid()) ==> Valid()
    {
      if active.Some? && active.value.tabId == tabId {
        EndActiveSession(now);
      }
      lastActivityByTab := lastActivityByTab - {tabId};
    }

    /** `handleWindowFocusChanged`: focus leaving every window (`WINDOW_ID_NONE`, or no id) is
        ignored; otherwise the focused window's active tab may start a session. The session
        already running is not closed first. */
    method HandleWindowFocusChanged(windowId: int, focused: Option<Tab>, now: int)
      modifies this
      ensures var start := windowId != 0 && windowId != WINDOW_ID_NONE && focused.Some? &&
                           old(StartAllowed(focused.value.id, focused, now));
        && active == (if start then Some(Session(focused.value.id, focused.value.host, now)) else old(active))
        && lastActivityByTab == (if start then old(lastActivityByTab)[focused.value.id := now] else old(lastActivityByTab))
      ensures logs == old(logs) && SettingsKept() && (old(Valid()) ==> Valid())
    {
      if windowId == 0 || windowId == WINDOW_ID_NONE {
        return;
      }
      if focused.Some? {
        var t := focused.value;
        var matches := UrlMatchesRules(UrlText(t), t.host, rules);
        if matches {
          MaybeStartOrExtend(t.id, focused, now);
        }
      }
    }

    /** The heartbeat message: a sender without a tab id is ignored; otherwise the tab's activity
        time becomes the message's time stamp (or now). With no session running, a tab on a
        matching URL starts one at once, even while paused or switched off; otherwise the usual
        start-or-extend applies, which replaces a session on another tab without logging it.
        Starting a session sets the activity time to now. */
    method HeartbeatMsgHandler(sender: Option<Tab>, isHeartbeat: bool, ts: Option<int>, now: int)
      modifies this
      ensures sender.None? || sender.value.id == 0 || !isHeartbeat ==>
        active == old(active) && lastActivityByTab == old(lastActivityByTab)
      ensures sender.Some? && sender.value.id != 0 && isHeartbeat ==>
        var t := sender.value;
        var start := HeartbeatStarts(t, old(active), rules) || old(StartAllowed(t.id, sender, now));
        && active == (if start then Some(Session(t.id, t.host, now)) else old(active))
        && lastActivityByTab == old(lastActivityByTab)[t.id := if start then now else HeartbeatTime(ts, now)]
      ensures logs == old(logs) && SettingsKept() && (old(Valid()) ==> Valid())
    {
      if sender.None? || sender.value.id == 0 || !isHeartbeat {
        return;
      }
      var t := sender.value;
      lastActivityByTab := lastActivityByTab[t.id := HeartbeatTime(ts, now)];
      ghost var stamped := lastActivityByTab;
      StartFromHeartbeat(t, now);
      assert stamped[t.id := now] == old(lastActivityByTab)[t.id := now];
    }

    /** After the activity time is recorded: with no session running, a tab whose URL matches
        starts one; otherwise the usual start-or-extend applies. */
    method StartFromHeartbeat(t: Tab, now: int)
      modifies this
      ensures var start := HeartbeatStarts(t, old(active), rules) || old(StartAllowed(t.id, Some(t), now));
        && active == (if start then Some(Session(t.id, t.host, now)) else old(active))
        && lastActivityByTab == (if start then old(lastActivityByTab)[t.id := now] else old(lastActivityByTab))
      ensures logs == old(logs) && SettingsKept() && (old(Valid()) ==> Valid())
    {
      var matches := false;
      if active.None? && t.url.Some? {
        matches := UrlMatchesRules(t.url.value, t.host, rules);
      }
      if matches {
        StartSession(t.id, t.host, now);
      } else {
        MaybeStartOrExtend(t.id, Some(t), now);
      }
    }

    /** `enforceIdleTimeout`: the session ends only when its tab has a recorded activity time and
        has been silent for strictly longer than `ACTIVITY_STALE_MS`. */
    method EnforceIdleTimeout(now: int)
      modifies this
      ensures var stale := old(active).Some? && old(active).value.tabId in old(lastActivityByTab)
        && old(lastActivityByTab)[old(active).value.tabId] != 0
        && now - old(lastActivityByTab)[old(active).value.tabId] > ACTIVITY_STALE_MS;
        if stale then active == None && logs == Closed(old(logs), old(active).value, now)
        else active == old(active) && logs == old(logs)
      ensures lastActivityByTab == old(lastActivityByTab) && SettingsKept()
      ensures old(Valid()) ==> Valid()
    {
      if active.None? {
        return;
      }
      var act := active.value;
      var last := if act.tabId in lastActivityByTab then lastActivityByTab[act.tabId] else 0;
      if last == 0 {
        return;
      }
      if now - last > ACTIVITY_STALE_MS {
        EndActiveSession(now);
      }
    }

    /** `pauseFor`: tracking is paused for `mins` minutes from now and any session is closed. */
    method PauseFor(mins: int, now: int)
      modifies this
      ensures pausedUntil == now + mins * 60000
      ensures active == None
      ensures logs == if old(active).Some? then Closed(old(logs), old(active).value, now) else old(logs)
      ensures trackingEnabled == old(trackingEnabled) && rules == old(rules)
      ensures badgeMode == old(badgeMode) && storedRules == old(storedRules)
      ensures lastActivityByTab == old(lastActivityByTab)
      ensures Valid()
    {
      pausedUntil := now + mins * 60000;
      MaybeCloseActive(now);
    }

    /** `resumeAll`: the pause is lifted and the focused window's active tab may start a session,
        judged with the pause already lifted. */
    method ResumeAll(focused: Option<Tab>, now: int)
      modifies this
      ensures pausedUntil == 0
      ensures var start := && focused.Some? && focused.value.active
                           && Tracked(UrlText(focused.value), focused.value.host, rules) && trackingEnabled && now >= 0
                           && !(old(active).Some? && old(active).value.tabId == focused.value.id);
        && active == (if start then Some(Session(focused.value.id, focused.value.host, now)) else old(active))
        && lastActivityByTab == (if start then old(lastActivityByTab)[focused.value.id := now] else old(lastActivityByTab))
      ensures logs == old(logs) && trackingEnabled == old(trackingEnabled) && rules == old(rules)
      ensures badgeMode == old(badgeMode) && storedRules == old(storedRules)
      ensures old(Valid()) ==> Valid()
    {
      pausedUntil := 0;
      if focused.Some? {
        MaybeStartOrExtend(focused.value.id, focused, now);
      }
    }

    /** `onStorageChanged` for the local area: each changed setting is copied into the cache,
        a removed value falling back to its default. */
    method OnStorageChanged(isLocal: bool, delta: StorageDelta)
      modifies this
      ensures !isLocal ==> SettingsKept()
      ensures isLocal ==>
        && rules == (if delta.rules.Some? then Distinct(delta.rules.value) else old(rules))
        && pausedUntil == (if delta.pausedUntil.Some? then delta.pausedUntil.value else old(pausedUntil))
        && trackingEnabled == (if delta.trackingEnabled.Some? then delta.trackingEnabled.value else old(trackingEnabled))
        && badgeMode == (if delta.badgeMode.Some? then
                           (if delta.badgeMode.value == "" then "minutes" else delta.badgeMode.value)
                         else old(badgeMode))
      ensures active == old(active) && logs == old(logs) && lastActivityByTab == old(lastActivityByTab)
      ensures storedRules == old(storedRules)
      ensures old(Valid()) ==> Valid()
    {
      if !isLocal {
        return;
      }
      if delta.rules.Some? {
        rules := Distinct(delta.rules.value);
      }
      if delta.pausedUntil.Some? {
        pausedUntil := delta.pausedUntil.value;
      }
      if delta.trackingEnabled.Some? {
        trackingEnabled := delta.trackingEnabled.value;
      }
      if delta.badgeMode.Some? {
        badgeMode := if delta.badgeMode.value == "" then "minutes" else delta.badgeMode.value;
      }
    }

    /** `RESET_TODAY`: entries ending before the start of today are kept and compacted, and only
        then is the active session closed, so its log entry goes into the fresh list. */
    method ResetToday(sod: int, now: int)
      modifies this
      ensures var keep := Compact(KeepBefore(old(logs), sod));
        logs == if old(active).Some? then Closed(keep, old(active).value, now) else keep
      ensures active == None
      ensures lastActivityByTab == old(lastActivityByTab) && SettingsKept()
      ensures Valid()
    {
      var keep := KeepBefore(logs, sod);
      var compacted := CompactLogs(keep);
      logs := compacted;
      MaybeCloseActive(now);
    }

    /** `CLEAR_DATA`: no logs, no session. */
    method ClearData()
      modifies this
      ensures logs == [] && active == None
      ensures lastActivityByTab == old(lastActivityByTab) && SettingsKept()
      ensures Valid()
    {
      logs := [];
      active := None;
    }

    /** `ADD_RULE`: the value is appended to the stored list unless already there. */
    method AddRule(value: string)
      modifies this
      ensures storedRules == if value in old(storedRules) then old(storedRules) else old(storedRules) + [value]
      ensures value in storedRules
      ensures forall x :: x in old(storedRules) ==> x in storedRules
      ensures rules == old(rules) && active == old(active) && logs == old(logs)
      ensures lastActivityByTab == old(lastActivityByTab)
      ensures old(Valid()) ==> Valid()
    {
      if value !in storedRules {
        storedRules := storedRules + [value];
      }
    }

    /** `REMOVE_RULE`: every copy of the value leaves the stored list; the others keep their order. */
    method RemoveRule(value: string)
      modifies this
      ensures storedRules == Without(old(storedRules), value)
      ensures value !in storedRules
      ensures forall x :: x in old(storedRules) && x != value ==> x in storedRules
      ensures rules == old(rules) && active == old(active) && logs == old(logs)
      ensures lastActivityByTab == old(lastActivityByTab)
      ensures old(Valid()) ==> Valid()
    {
      storedRules := Without(storedRules, value);
    }

    /** `RESET_RULES`: the stored list becomes the default list. */
    method ResetRules()
      modifies this
      ensures storedRules == DEFAULT_RULES
      ensures rules == old(rules) && active == old(active) && logs == old(logs)
      ensures lastActivityByTab == old(lastActivityByTab)
      ensures old(Valid()) ==> Valid()
    {
      storedRules := DEFAULT_RULES;
    }
  }

  /** `logs.filter(l => (l.end || 0) < sod)`. */
  function KeepBefore(logs: seq<Log>, sod: int): (r: seq<Log>)
    ensures |r| <= |logs|
    ensures forall l :: l in r <==> l in logs && EndKey(l) < sod
  {
    if logs == [] then []
    else if EndKey(logs[0]) < sod then [logs[0]] + KeepBefore(logs[1..], sod)
    else KeepBefore(logs[1..], sod)
  }

  /** `list.filter(r => r !== value)`. */
  function Without(list: seq<string>, value: string): (r: seq<string>)
    ensures |r| <= |list|
    ensures forall x :: x in r <==> x in list && x != value
  {
    if list == [] then []
    else if list[0] != value then [list[0]] + Without(list[1..], value)
    else Without(list[1..], value)
  }

  // ---------------------------------------------------------------------------------------
  // The badge text (`updateBadge`)

  /** Overlap in ms of one entry with [sod, now]; entries with a non-numeric time add nothing. */
  function TodayPart(l: Log, sod: int, now: int): (ms: int)
    ensures ms >= 0 && ms <= Max(0, now - sod)
  {
    if l.start.Ms? && l.end.Ms? && Min(l.end.ms, now) > Max(l.start.ms, sod)
    then Min(l.end.ms, now) - Max(l.start.ms, sod) else 0
  }

  /** Milliseconds of today in the stored logs. */
  function TodayMs(logs: seq<Log>, sod: int, now: int): int
  {
    if logs == [] then 0 else TodayMs(logs[..|logs| - 1], sod, now) + TodayPart(logs[|logs| - 1], sod, now)
  }

  /** Today's logged time is never negative and never more than the length of today so far
      for each entry. */
  lemma {:induction false} TodayMsBounds(logs: seq<Log>, sod: int, now: int)
    ensures 0 <= TodayMs(logs, sod, now) <= |logs| * Max(0, now - sod)
  {
    if logs != [] {
      var init := logs[..|logs| - 1];
      TodayMsBounds(init, sod, now);
      assert TodayMs(logs, sod, now) == TodayMs(init, sod, now) + TodayPart(logs[|logs| - 1], sod, now);
      MulSucc(|init|, Max(0, now - sod));
    }
  }

  lemma MulSucc(k: nat, d: int)
    ensures (k + 1) * d == k * d + d
  {
  }

  /** Today's time of two lists is the sum of their times. */
  lemma {:induction false} TodayMsAppend(a: seq<Log>, b: seq<Log>, sod: int, now: int)
    ensures TodayMs(a + b, sod, now) == TodayMs(a, sod, now) + TodayMs(b, sod, now)
    decreases |b|
  {
    var c := a + b;
    if b == [] {
      assert c == a;
    } else {
      assert c[..|c| - 1] == a + b[..|b| - 1] && c[|c| - 1] == b[|b| - 1];
      TodayMsAppend(a, b[..|b| - 1], sod, now);
    }
  }

  /** `String(n)` for any integer. */
  function IntText(n: int): (t: string)
    ensures t != []
    ensures n >= 0 ==> (forall i :: 0 <= i < |t| ==> IsDigit(t[i])) && ParseDigits(t) == n
    ensures n < 0 ==> t[0] == '-'
  {
    if n < 0 then "-" + Digits(-n)
    else
      DigitsRoundTrip(n);
      Digits(n)
  }

  /** Whole minutes of today: the logs plus a running session with a start, cut at now. */
  function TodayMinutes(logs: seq<Log>, active: Option<Session>, sod: int, now: int): int
  {
    var ms := TodayMs(logs, sod, now) +
      (if active.Some? && active.value.start != 0 then now - Max(active.value.start, sod) else 0);
    ms / 60000
  }

  /** The badge text: blank in "none" mode, the pause glyph while paused, ON/OFF in "onoff"
      mode, and otherwise today's whole minutes. */
  function BadgeText(mode: string, pausedUntil: int, enabled: bool, logs: seq<Log>,
                     active: Option<Session>, sod: int, now: int): string
  {
    if mode == "none" then ""
    else if now < pausedUntil then "\U{23F8}"
    else if mode == "onoff" then (if enabled then "ON" else "OFF")
    else IntText(TodayMinutes(logs, active, sod, now))
  }

  /** The badge is blank exactly in "none" mode; while paused it shows only the pause glyph; in
      minutes mode it reads back as today's minutes, which are never negative when neither
      today nor the running session starts after now. */
  lemma BadgeTextMeaning(mode: string, pausedUntil: int, enabled: bool, logs: seq<Log>,
                         active: Option<Session>, sod: int, now: int)
    ensures var text := BadgeText(mode, pausedUntil, enabled, logs, active, sod, now);
      && (text == "" <==> mode == "none")
      && (mode != "none" && now < pausedUntil ==> text == "\U{23F8}")
      && (mode != "none" && mode != "onoff" && now >= pausedUntil && sod <= now &&
          (active.Some? ==> active.value.start <= now) ==>
            TodayMinutes(logs, active, sod, now) >= 0 &&
            ParseDigits(text) == TodayMinutes(logs, active, sod, now))
  {
    TodayMsBounds(logs, sod, now);
  }
}
