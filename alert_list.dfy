/** The community alert list
    (Van-Rakshak-Community-App/src/components/AlertList.js): the relative
    time of a report, the shortened card title and the type icon. */
module AlertList {
  import Text

  datatype Unit = Seconds | Minutes | Hours | Days

  /** A relative time: a count of one unit. */
  datatype TimeAgo = TimeAgo(count: int, unit: Unit)

  /** `Math.floor((now - past) / 1000)` for times in milliseconds. */
  function ElapsedSeconds(now: int, past: int): (d: int)
    ensures d * 1000 <= now - past < (d + 1) * 1000
  {
    (now - past) / 1000
  }

  /** The bucket of `getTimeAgo` for `d` elapsed seconds: below a minute
      (a timestamp in the future included) in seconds, then whole minutes,
      whole hours and whole days, each rounded down. */
  function Bucket(d: int): (t: TimeAgo)
    ensures t.unit == Seconds <==> d < 60
    ensures t.unit == Seconds ==> t.count == d
    ensures t.unit == Minutes <==> 60 <= d < 3600
    ensures t.unit == Minutes ==> 1 <= t.count < 60 && t.count * 60 <= d < (t.count + 1) * 60
    ensures t.unit == Hours <==> 3600 <= d < 86400
    ensures t.unit == Hours ==> 1 <= t.count < 24 && t.count * 3600 <= d < (t.count + 1) * 3600
    ensures t.unit == Days <==> 86400 <= d
    ensures t.unit == Days ==> 1 <= t.count && t.count * 86400 <= d < (t.count + 1) * 86400
  {
    if d < 60 then TimeAgo(d, Seconds)
    else if d < 3600 then TimeAgo(d / 60, Minutes)
    else if d < 86400 then TimeAgo(d / 3600, Hours)
    else TimeAgo(d / 86400, Days)
  }

  function Rank(u: Unit): nat {
    match u
    case Seconds => 0
    case Minutes => 1
    case Hours => 2
    case Days => 3
  }

  /** As time passes the unit only grows. */
  lemma BucketMonotone(d1: int, d2: int)
    requires d1 <= d2
    ensures Rank(Bucket(d1).unit) <= Rank(Bucket(d2).unit)
    ensures Bucket(d1).unit == Bucket(d2).unit ==> Bucket(d1).count <= Bucket(d2).count
  {
  }

  /** The words after the count. */
  function Suffix(u: Unit): string {
    match u
    case Seconds => " seconds ago"
    case Minutes => " minutes ago"
    case Hours => " hours ago"
    case Days => " days ago"
  }

  /** `getTimeAgo`, for a report at `past` seen at `now` (milliseconds). */
  function TimeAgoText(now: int, past: int): string {
    var t := Bucket(ElapsedSeconds(now, past));
    Text.IntToString(t.count) + Suffix(t.unit)
  }

  const TitleLength := 70

  /** The card title: the first seventy characters of the description,
      and an ellipsis when anything was cut. */
  function Title(description: string): (r: string)
    ensures |description| <= TitleLength ==> r == description
    ensures |description| > TitleLength ==> |r| == TitleLength + 3 && r[..TitleLength] == description[..TitleLength]
    ensures |description| > TitleLength ==> r[TitleLength..] == "..."
  {
    if |description| > TitleLength then description[..TitleLength] + "..." else description
  }

  /** `getAlertIcon`. */
  function AlertIcon(kind: string): (r: string)
    ensures r == "\U{1F4E2}" <==> kind !in {"fire", "wildlife", "illegal"}
  {
    match kind
    case "fire" => "\U{1F525}"
    case "wildlife" => "\U{1F418}"
    case "illegal" => "\U{26A0}\U{FE0F}"
    case _ => "\U{1F4E2}"
  }
}
