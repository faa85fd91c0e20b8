/** The admin overview page (van-rakshak-admin/src/pages/overview.jsx): live
    counters nudged by a periodic tick and kept within bounds, and the
    activity feed with acknowledge and clear-all. */
module AdminOverview {
  import Lists

  datatype LiveStats = LiveStats(
    activePatrols: int, pendingIncidents: int, activeSos: int,
    totalOfficers: int, resolvedToday: int, avgResponseTime: string)

  datatype Activity = Activity(id: int, kind: string, message: string, time: string, priority: string, officer: string)

  const PatrolsLow := 8
  const PatrolsHigh := 15
  const PendingLow := 0
  const PendingHigh := 10

  /** `Math.max(lo, Math.min(hi, v))`. */
  function Clamp(lo: int, hi: int, v: int): (r: int)
    ensures lo <= hi ==> lo <= r <= hi
    ensures lo <= v <= hi ==> r == v
    ensures v < lo ==> r == lo
    ensures lo <= hi && hi < v ==> r == hi
  {
    var capped := if hi < v then hi else v;
    if capped < lo then lo else capped
  }

  /** One tick's new counters; `patrolStep` and `pendingStep` stand for
      `Math.floor(Math.random() * 3) - 1`. */
  function Ticked(s: LiveStats, patrolStep: int, pendingStep: int): LiveStats {
    s.(activePatrols := Clamp(PatrolsLow, PatrolsHigh, s.activePatrols + patrolStep),
       pendingIncidents := Clamp(PendingLow, PendingHigh, s.pendingIncidents + pendingStep))
  }

  /** After a tick both counters are within their bounds, whatever they
      were; a counter within bounds moves by at most one when its step is
      one of -1, 0 and 1; no other counter changes. */
  lemma TickProperties(s: LiveStats, patrolStep: int, pendingStep: int)
    ensures PatrolsLow <= Ticked(s, patrolStep, pendingStep).activePatrols <= PatrolsHigh
    ensures PendingLow <= Ticked(s, patrolStep, pendingStep).pendingIncidents <= PendingHigh
    ensures PatrolsLow <= s.activePatrols <= PatrolsHigh && -1 <= patrolStep <= 1 ==>
      -1 <= Ticked(s, patrolStep, pendingStep).activePatrols - s.activePatrols <= 1
    ensures PendingLow <= s.pendingIncidents <= PendingHigh && -1 <= pendingStep <= 1 ==>
      -1 <= Ticked(s, patrolStep, pendingStep).pendingIncidents - s.pendingIncidents <= 1
    ensures Ticked(s, patrolStep, pendingStep).(activePatrols := s.activePatrols, pendingIncidents := s.pendingIncidents) == s
  {
  }

  /** The page's component state. */
  class OverviewPage {
    var liveStats: LiveStats
    var recentActivity: seq<Activity>
    var autoRefresh: bool

    constructor (stats: LiveStats, feed: seq<Activity>)
      ensures liveStats == stats && recentActivity == feed && autoRefresh
    {
      liveStats, recentActivity, autoRefresh := stats, feed, true;
    }

    /** One firing of the refresh timer; while auto-refresh is off no
        timer is scheduled, so nothing changes. */
    method Tick(patrolStep: int, pendingStep: int)
      modifies this
      ensures liveStats == if old(autoRefresh) then Ticked(old(liveStats), patrolStep, pendingStep) else old(liveStats)
      ensures recentActivity == old(recentActivity) && autoRefresh == old(autoRefresh)
    {
      if autoRefresh {
        liveStats := Ticked(liveStats, patrolStep, pendingStep);
      }
    }

    /** `handleAcknowledge`: the activity leaves the feed. */
    method Acknowledge(id: int)
      modifies this
      ensures recentActivity == Lists.Keep(old(recentActivity), (a: Activity) => a.id != id)
      ensures liveStats == old(liveStats) && autoRefresh == old(autoRefresh)
    {
      recentActivity := Lists.Keep(recentActivity, (a: Activity) => a.id != id);
    }

    /** The Clear All button. */
    method ClearAll()
      modifies this
      ensures recentActivity == []
      ensures liveStats == old(liveStats) && autoRefresh == old(autoRefresh)
    {
      recentActivity := [];
    }
  }

  /** Acknowledging removes exactly the activities with that id and keeps
      the rest of the feed in order. */
  lemma AcknowledgeRemovesExactly(feed: seq<Activity>, id: int)
    ensures forall x :: x in Lists.Keep(feed, (a: Activity) => a.id != id) <==> x in feed && x.id != id
    ensures Lists.IsSubsequence(Lists.Keep(feed, (a: Activity) => a.id != id), feed)
  {
    var p := (a: Activity) => a.id != id;
    Lists.KeepIsSubsequence(feed, p);
    forall x ensures x in Lists.Keep(feed, p) <==> x in feed && p(x) {
      Lists.KeepMembers(feed, p, x);
    }
  }

  /** `getPriorityColor`. */
  function PriorityColor(priority: string): (c: string)
    ensures c != "#666" <==> priority in {"high", "medium", "low"}
  {
    match priority
    case "high" => "#dc2626"
    case "medium" => "#ea580c"
    case "low" => "#16a34a"
    case _ => "#666"
  }

  /** `getPriorityBg`. */
  function PriorityBg(priority: string): (c: string)
    ensures c != "#f8fafc" <==> priority in {"high", "medium", "low"}
  {
    match priority
    case "high" => "#fef2f2"
    case "medium" => "#fff7ed"
    case "low" => "#f0fdf4"
    case _ => "#f8fafc"
  }
}
