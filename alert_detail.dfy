/** The incident detail dialog
    (Van-Rakshak-Community-App/src/components/AlertDetailModal.js): its own
    copy of the relative-time helper, the type icon and the severity
    badge. */
module AlertDetail {
  import Text
  import AlertList

  /** This file's `getTimeAgo`, written out again as in the file. */
  function TimeAgoText(now: int, past: int): string {
    var d := (now - past) / 1000;
    if d < 60 then Text.IntToString(d) + " seconds ago"
    else if d < 3600 then Text.IntToString(d / 60) + " minutes ago"
    else if d < 86400 then Text.IntToString(d / 3600) + " hours ago"
    else Text.IntToString(d / 86400) + " days ago"
  }

  /** The two copies give the same text for every pair of times. */
  lemma SameAsAlertList(now: int, past: int)
    ensures TimeAgoText(now, past) == AlertList.TimeAgoText(now, past)
  {
    var d := AlertList.ElapsedSeconds(now, past);
    assert d == (now - past) / 1000;
    var t := AlertList.Bucket(d);
    if d < 60 {
      assert t == AlertList.TimeAgo(d, AlertList.Seconds);
    } else if d < 3600 {
      assert t == AlertList.TimeAgo(d / 60, AlertList.Minutes);
    } else if d < 86400 {
      assert t == AlertList.TimeAgo(d / 3600, AlertList.Hours);
    } else {
      assert t == AlertList.TimeAgo(d / 86400, AlertList.Days);
    }
  }

  /** The boundaries of the copy: under a minute in seconds; exactly one
      minute, one hour and one day each start the next unit at one. */
  lemma Boundaries(past: int)
    ensures TimeAgoText(past + 59999, past) == Text.IntToString(59) + " seconds ago"
    ensures TimeAgoText(past + 60000, past) == Text.IntToString(1) + " minutes ago"
    ensures TimeAgoText(past + 3600000, past) == Text.IntToString(1) + " hours ago"
    ensures TimeAgoText(past + 86400000, past) == Text.IntToString(1) + " days ago"
    ensures TimeAgoText(past - 1, past) == Text.IntToString(-1) + " seconds ago"
  {
  }

  /** `getIncidentIcon`, the same table as the list's. */
  function IncidentIcon(kind: string): (r: string)
    ensures r == AlertList.AlertIcon(kind)
  {
    match kind
    case "fire" => "\U{1F525}"
    case "wildlife" => "\U{1F418}"
    case "illegal" => "\U{26A0}\U{FE0F}"
    case _ => "\U{1F4E2}"
  }

  /** The severity badge text. */
  function SeverityLabel(severity: string): (r: string)
    ensures |r| == |severity|
    ensures forall i :: 0 <= i < |r| ==> !('a' <= r[i] <= 'z')
    ensures Text.ToLower(r) == Text.ToLower(severity)
  {
    Text.ToUpper(severity)
  }
}
