/** `LogManager` (`kpi_ofa/core/log_manager.py`): one entry point that
    writes to Python's logger, to the log widget and to the status bar, and
    a policy that keeps an important status message on screen for a minimum
    time. Callbacks are recorded as the messages they receive; the clock is
    a parameter. */
module Logging {
  import opened PyText

  /** `level_importance`, in increasing order. */
  const Levels: seq<string> := ["debug", "info", "success", "loading", "warning", "error", "critical"]

  /** `level_importance.index(level)`, or 0 for a level not in the list. */
  function Rank(level: string): (r: nat)
    ensures r < |Levels|
    ensures level in Levels ==> Levels[r] == level
    ensures level !in Levels ==> r == 0
  {
    if level == "debug" then 0
    else if level == "info" then 1
    else if level == "success" then 2
    else if level == "loading" then 3
    else if level == "warning" then 4
    else if level == "error" then 5
    else if level == "critical" then 6
    else 0
  }

  /** Ranks follow the order of `level_importance`. */
  lemma RankIncreasing(i: nat, j: nat)
    requires i < j < |Levels|
    ensures Rank(Levels[i]) < Rank(Levels[j])
  {
  }

  /** `default_min_times.get(level, 3)`, in seconds. */
  function DefaultMinTime(level: string): (r: real)
    ensures r > 0.0
  {
    if level == "debug" then 2.0
    else if level == "info" then 3.0
    else if level == "success" then 5.0
    else if level == "loading" then 2.0
    else if level == "warning" then 8.0
    else if level == "error" then 10.0
    else if level == "critical" then 15.0
    else 3.0
  }

  /** `prefix_map.get(level, "")`. */
  function Prefix(level: string): string {
    if level == "error" then "Errore: "
    else if level == "critical" then "Errore critico: "
    else if level == "warning" then "Attenzione: "
    else if level == "loading" then "Caricamento: "
    else ""
  }

  /** `_last_status_level`, `_last_status_time`, `_last_status_min_time`. */
  datatype StatusState = StatusState(level: string, time: real, minTime: real)

  /** The state `__init__` leaves. */
  const Initial := StatusState("", 0.0, 0.0)

  /** `update_condition`. */
  predicate Fires(st: StatusState, level: string, now: real) {
    now - st.time >= st.minTime || Rank(level) > Rank(st.level) || level == st.level
  }

  /** The state after one status request, and the text shown if any. */
  function Step(st: StatusState, level: string, message: string, minSeconds: Option<real>, now: real): (r: (StatusState, Option<string>))
    ensures r.1.Some? <==> Fires(st, level, now)
    ensures r.1.None? ==> r.0 == st
    ensures r.1.Some? ==> r.0.level == level && r.0.time == now && r.1.value == Prefix(level) + message
    ensures r.1.Some? ==> r.0.minTime == (if minSeconds.Some? then minSeconds.value else DefaultMinTime(level))
  {
    if Fires(st, level, now) then
      (StatusState(level, now, if minSeconds.Some? then minSeconds.value else DefaultMinTime(level)), Some(Prefix(level) + message))
    else (st, None)
  }

  /** The first request after start shows, at any time from 0 on. */
  lemma FirstRequestShows(level: string, message: string, minSeconds: Option<real>, now: real)
    requires now >= 0.0
    ensures Step(Initial, level, message, minSeconds, now).1 == Some(Prefix(level) + message)
  {
  }

  /** A request that is held back leaves no trace: the next one is decided
      as if it had not been made. */
  lemma HeldLeavesNoTrace(st: StatusState, l1: string, m1: string, s1: Option<real>, t1: real, l2: string, m2: string, s2: Option<real>, t2: real)
    requires !Fires(st, l1, t1)
    ensures Step(Step(st, l1, m1, s1, t1).0, l2, m2, s2, t2) == Step(st, l2, m2, s2, t2)
  {
  }

  /** A shown message stays for its minimum time: during it only a more
      important level, or the same level, replaces it. */
  lemma ShownStays(st: StatusState, l1: string, m1: string, s1: Option<real>, t1: real, l2: string, m2: string, s2: Option<real>, t2: real)
    requires Fires(st, l1, t1)
    requires var min := if s1.Some? then s1.value else DefaultMinTime(l1); t1 <= t2 < t1 + min
    ensures Step(Step(st, l1, m1, s1, t1).0, l2, m2, s2, t2).1.Some? <==> Rank(l2) > Rank(l1) || l2 == l1
  {
  }

  /** Critical messages always show; a level outside the list ranks like
      `debug` and never pushes another level aside within its time. */
  lemma CriticalAlwaysShows(st: StatusState, message: string, minSeconds: Option<real>, now: real)
    ensures Step(st, "critical", message, minSeconds, now).1.Some?
    ensures forall level :: level !in Levels && level != st.level && now - st.time < st.minTime ==>
      !Fires(st, level, now)
  {
    assert Levels[6] == "critical";
  }

  /** The `logging` method a level goes to: `success` and `loading` are
      logged as `info`, and so is any name the logger has no method for. */
  function LoggerLevel(level: string): string {
    if level in ["debug", "info", "warning", "error", "critical"] then level else "info"
  }

  class LogManager {
    var status: StatusState
    /** Whether `set_ui_callback` / `set_status_bar_callback` installed one. */
    var uiCallback: bool
    var statusCallback: bool
    /** What the Python logger, the log widget and the status bar received. */
    var logged: seq<(string, string)>
    var widget: seq<(string, string)>
    var shown: seq<string>

    constructor ()
      ensures status == Initial && !uiCallback && !statusCallback
      ensures logged == [] && widget == [] && shown == []
    {
      status := Initial;
      uiCallback := false;
      statusCallback := false;
      logged := [];
      widget := [];
      shown := [];
    }

    method SetUiCallback(installed: bool)
      modifies this
      ensures uiCallback == installed
      ensures status == old(status) && statusCallback == old(statusCallback)
      ensures logged == old(logged) && widget == old(widget) && shown == old(shown)
    {
      uiCallback := installed;
    }

    method SetStatusBarCallback(installed: bool)
      modifies this
      ensures statusCallback == installed
      ensures status == old(status) && uiCallback == old(uiCallback)
      ensures logged == old(logged) && widget == old(widget) && shown == old(shown)
    {
      statusCallback := installed;
    }

    /** `_update_status_bar` at time `now`. */
    method UpdateStatusBar(message: string, level: string, minSeconds: Option<real>, now: real)
      modifies this
      ensures status == Step(old(status), level, message, minSeconds, now).0
      ensures shown == old(shown) + (match Step(old(status), level, message, minSeconds, now).1 case Some(t) => [t] case None => [])
      ensures uiCallback == old(uiCallback) && statusCallback == old(statusCallback)
      ensures logged == old(logged) && widget == old(widget)
    {
      var min := if minSeconds.Some? then minSeconds.value else DefaultMinTime(level);
      var current := Rank(level);
      var last := Rank(status.level);
      var elapsed := now - status.time;
      if elapsed >= status.minTime || current > last || level == status.level {
        shown := shown + [Prefix(level) + message];
        status := StatusState(level, now, min);
      }
    }

    /** `log` with the message already formatted. */
    method Log(message: string, level: string, updateStatus: bool, updateLog: bool, minSeconds: Option<real>, origin: string, now: real)
      modifies this
      ensures logged == old(logged) + (if origin == "UnKnown" then [(LoggerLevel(level), message)] else [])
      ensures widget == old(widget) + (if updateLog && uiCallback then [(message, level)] else [])
      ensures updateStatus && statusCallback ==>
        status == Step(old(status), level, message, minSeconds, now).0 &&
        shown == old(shown) + (match Step(old(status), level, message, minSeconds, now).1 case Some(t) => [t] case None => [])
      ensures !(updateStatus && statusCallback) ==> status == old(status) && shown == old(shown)
      ensures uiCallback == old(uiCallback) && statusCallback == old(statusCallback)
    {
      if origin == "UnKnown" {
        logged := logged + [(LoggerLevel(level), message)];
      }
      if updateLog && uiCallback {
        widget := widget + [(message, level)];
      }
      if updateStatus && statusCallback {
        UpdateStatusBar(message, level, minSeconds, now);
      }
    }
  }
}
