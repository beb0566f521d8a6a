/** The display helpers of the public reviews widget: the star bar, the
    relative date and the avatar picked for a card. The current time is a
    parameter. */
module Reviews {
  import opened Wrappers
  import opened Js

  const AVATARS: seq<string> := [
    "https://images.unsplash.com/photo-1494790108377-be9c29b29330",
    "https://images.unsplash.com/photo-1507003211169-0a1dd7228f2d",
    "https://images.unsplash.com/photo-1500648767791-00dcc994a43e",
    "https://images.unsplash.com/photo-1568602471122-7832951cc4c5",
    "https://images.unsplash.com/photo-1573497019940-1c28c88b4f3e",
    "https://images.unsplash.com/photo-1472099645785-5658abf4ff4e",
    "https://images.unsplash.com/photo-1519085360753-af0119f7cbe7",
    "https://images.unsplash.com/photo-1506794778202-cad84cf45f1d",
    "https://images.unsplash.com/photo-1534528741775-53994a69daeb"
  ]

  const FULL_STAR: char := '★'
  const EMPTY_STAR: char := '☆'

  // ------------------------------------------------------------ stars

  /** `Math.min(5, Math.max(0, Math.round(rating) || 0))`; a rating that is
      not a number (`None`) rounds to `NaN`, which `|| 0` turns into 0. */
  function StarCount(rating: Option<real>): (n: int)
    ensures 0 <= n <= 5
    ensures rating.None? ==> n == 0
    ensures rating.Some? && 0.0 <= rating.value <= 5.0 ==> n == Round(rating.value)
  {
    if rating.None? then 0
    else
      var r := Round(rating.value);
      if r < 0 then 0 else if r > 5 then 5 else r
  }

  /** `stars(rating)`: as many full stars as the count, then empty ones. */
  function Stars(rating: Option<real>): (r: string)
    ensures |r| == 5
    ensures forall i :: 0 <= i < |r| ==> (r[i] == FULL_STAR <==> i < StarCount(rating))
    ensures forall i :: 0 <= i < |r| ==> (r[i] == EMPTY_STAR <==> i >= StarCount(rating))
  {
    var n := StarCount(rating);
    Repeat(FULL_STAR, n) + Repeat(EMPTY_STAR, 5 - n)
  }

  // ------------------------------------------------------------ relative dates

  const MINUTE: int := 60
  const HOUR: int := 3600
  const DAY: int := 86400
  const MONTH: int := 2592000
  const YEAR: int := 31536000

  /** `Math.floor((now - d) / 1000)`: whole seconds elapsed. Dafny's `/`
      floors for a positive divisor, as `Math.floor` does. */
  function ElapsedSeconds(date: int, now: int): int {
    (now - date) / 1000
  }

  /** The bucket a number of seconds falls into: its unit and French label. */
  function Bucket(s: int): (b: (int, string))
    requires s >= MINUTE
    ensures b.0 in [MINUTE, HOUR, DAY, MONTH, YEAR]
    ensures b.0 <= s
    ensures b.0 < YEAR ==> s < (if b.0 == MINUTE then HOUR else if b.0 == HOUR then DAY
                               else if b.0 == DAY then MONTH else YEAR)
  {
    if s < HOUR then (MINUTE, " min")
    else if s < DAY then (HOUR, " h")
    else if s < MONTH then (DAY, " jours")
    else if s < YEAR then (MONTH, " mois")
    else (YEAR, " an(s)")
  }

  /** `timeAgo(dateStr)` for a date given in milliseconds (`None` for an
      empty or missing string): 'À l'instant' below a minute, future dates
      included, else the whole number of the largest unit that fits. */
  function TimeAgo(date: Option<int>, now: int): (r: string)
    ensures date.None? ==> r == ""
    ensures date.Some? && ElapsedSeconds(date.value, now) < MINUTE ==> r == "À l'instant"
    ensures date.Some? && ElapsedSeconds(date.value, now) >= MINUTE ==>
      var s := ElapsedSeconds(date.value, now);
      var b := Bucket(s);
      s / b.0 >= 1 && r == "Il y a " + NatToString(s / b.0) + b.1
  {
    if date.None? then ""
    else
      var s := ElapsedSeconds(date.value, now);
      if s < MINUTE then "À l'instant"
      else
        var b := Bucket(s);
        "Il y a " + NatToString(s / b.0) + b.1
  }

  // ------------------------------------------------------------ avatars

  /** JavaScript's `%`: the remainder takes the sign of the dividend. */
  function JsRem(i: int, n: int): (r: int)
    requires n > 0
    ensures i >= 0 ==> r == i % n
    ensures -n < r < n
    ensures i < 0 ==> r <= 0
  {
    if i >= 0 then i % n else -((-i) % n)
  }

  /** `AVATARS[i % AVATARS.length]`; a negative remainder reads `undefined`. */
  function AvatarForIndex(i: int): (r: Option<string>)
    ensures i >= 0 ==> r == Some(AVATARS[i % |AVATARS|])
    ensures r.Some? ==> r.value in AVATARS
  {
    var k := JsRem(i, |AVATARS|);
    if k >= 0 then Some(AVATARS[k]) else None
  }
}
