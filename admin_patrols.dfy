/** The helpers of the admin Patrols page
    (van-rakshak-admin/src/pages/Patrols.jsx): officer status colour,
    battery colour and the signal-strength glyphs. */
module AdminPatrols {
  import opened Common
  import Text

  /** `getStatusColor`, on the lower-cased status. */
  function StatusColor(status: string): (c: string)
    ensures c != "#666" <==> Text.ToLower(status) in {"on duty", "patrolling", "break", "offline"}
  {
    match Text.ToLower(status)
    case "on duty" => "#16a34a"
    case "patrolling" => "#2563eb"
    case "break" => "#f59e0b"
    case "offline" => "#6b7280"
    case _ => "#666"
  }

  /** The status colour ignores letter case. */
  lemma StatusColorIgnoresCase(status: string)
    ensures StatusColor(Text.ToLower(status)) == StatusColor(status)
  {
    Text.ToLowerIdempotent(status);
  }

  const Green := "#16a34a"
  const Amber := "#f59e0b"
  const Red := "#dc2626"

  /** `getBatteryColor`, for a battery percentage. */
  function BatteryColor(battery: int): (c: string)
    ensures c == Green <==> battery > 60
    ensures c == Amber <==> 30 < battery <= 60
    ensures c == Red <==> battery <= 30
  {
    if battery > 60 then Green
    else if battery > 30 then Amber
    else Red
  }

  const FullBar := '\U{1F4F6}'   // antenna with bars
  const EmptyBar := '\U{1F4F5}'  // no mobile phones

  /** `c.repeat(n)` for a one-character string and a count that is not negative. */
  function Repeat(c: char, n: nat): (r: string)
    ensures |r| == n && forall i :: 0 <= i < n ==> r[i] == c
  {
    seq(n, _ => c)
  }

  /** `getSignalBars`: `strength` full bars then `4 - strength` empty
      ones; `repeat` throws a range error on a negative count, that is
      for a strength below 0 or above 4. */
  function SignalBars(strength: int): (r: Result<string, string>)
    ensures r.Ok? <==> 0 <= strength <= 4
    ensures r.Ok? ==> |r.value| == 4
    ensures r.Ok? ==> forall i :: 0 <= i < 4 ==> r.value[i] == if i < strength then FullBar else EmptyBar
    ensures r.Err? ==> r.error == "RangeError"
  {
    if strength < 0 || 4 - strength < 0 then Err("RangeError")
    else Ok(Repeat(FullBar, strength) + Repeat(EmptyBar, 4 - strength))
  }

  /** The number of times `c` occurs in `s`. */
  function Occurrences(s: string, c: char): nat
    decreases |s|
  {
    if s == [] then 0 else (if s[0] == c then 1 else 0) + Occurrences(s[1..], c)
  }

  lemma {:induction false} OccurrencesAppend(a: string, b: string, c: char)
    ensures Occurrences(a + b, c) == Occurrences(a, c) + Occurrences(b, c)
    decreases |a|
  {
    if a != [] {
      assert (a + b)[1..] == a[1..] + b;
      OccurrencesAppend(a[1..], b, c);
    } else {
      assert a + b == b;
    }
  }

  lemma {:induction false} OccurrencesRepeat(d: char, n: nat, c: char)
    ensures Occurrences(Repeat(d, n), c) == if d == c then n else 0
    decreases n
  {
    if n > 0 {
      assert Repeat(d, n)[1..] == Repeat(d, n - 1);
      OccurrencesRepeat(d, n - 1, c);
    }
  }

  /** The glyphs give the strength back: it is the number of full bars,
      and the empty bars make up the rest. */
  lemma SignalBarsCount(strength: int)
    requires 0 <= strength <= 4
    ensures Occurrences(SignalBars(strength).value, FullBar) == strength
    ensures Occurrences(SignalBars(strength).value, EmptyBar) == 4 - strength
  {
    OccurrencesAppend(Repeat(FullBar, strength), Repeat(EmptyBar, 4 - strength), FullBar);
    OccurrencesAppend(Repeat(FullBar, strength), Repeat(EmptyBar, 4 - strength), EmptyBar);
    OccurrencesRepeat(FullBar, strength, FullBar);
    OccurrencesRepeat(EmptyBar, 4 - strength, FullBar);
    OccurrencesRepeat(FullBar, strength, EmptyBar);
    OccurrencesRepeat(EmptyBar, 4 - strength, EmptyBar);
  }
}
