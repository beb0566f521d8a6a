/** Properties of the review display helpers. */
module ReviewsLemmas {
  import opened Wrappers
  import opened Js
  import opened Reviews

  /** A whole rating from 0 to 5 shows exactly that many full stars. */
  lemma WholeRatingStars(k: int)
    requires 0 <= k <= 5
    ensures Stars(Some(k as real)) == Repeat(FULL_STAR, k) + Repeat(EMPTY_STAR, 5 - k)
  {
    assert Round(k as real) == k;
  }

  /** Ratings beyond the scale are clamped to it. */
  lemma RatingsClamped(x: real)
    ensures x >= 4.5 ==> StarCount(Some(x)) == 5
    ensures x < 0.5 ==> StarCount(Some(x)) == 0
  {
  }

  /** A higher rating never shows fewer stars. */
  lemma StarsMonotone(x: real, y: real)
    requires x <= y
    ensures StarCount(Some(x)) <= StarCount(Some(y))
  {
    assert (x + 0.5).Floor <= (y + 0.5).Floor by {
      assert ((x + 0.5).Floor as real) <= x + 0.5 <= y + 0.5 < (y + 0.5).Floor as real + 1.0;
    }
  }

  /** Past the first minute, the number shown is at least 1 and is the whole
      number of the bucket's unit that has elapsed: it multiplied by the
      unit does not exceed the elapsed seconds, one more does. */
  lemma TimeAgoShowsWholeUnits(date: int, now: int)
    requires ElapsedSeconds(date, now) >= MINUTE
    ensures var s := ElapsedSeconds(date, now);
      var b := Bucket(s);
      var digits := NatToString(s / b.0);
      && TimeAgo(Some(date), now) == "Il y a " + digits + b.1
      && DigitsValue(digits) >= 1
      && DigitsValue(digits) * b.0 <= s < (DigitsValue(digits) + 1) * b.0
  {
    var s := ElapsedSeconds(date, now);
    var b := Bucket(s);
    NatToStringValue(s / b.0);
  }

  /** Below a year the number shown stays below the next unit: under 60
      minutes, 24 hours, 30 days or 12 months. */
  lemma TimeAgoBelowNextUnit(date: int, now: int)
    requires MINUTE <= ElapsedSeconds(date, now) < YEAR
    ensures var s := ElapsedSeconds(date, now);
      var b := Bucket(s);
      && (b.0 == MINUTE ==> s / b.0 < 60)
      && (b.0 == HOUR ==> s / b.0 < 24)
      && (b.0 == DAY ==> s / b.0 < 30)
      && (b.0 == MONTH ==> s / b.0 < 13)
  {
  }

  /** Cards cycle through the nine avatars. */
  lemma AvatarsCycle(i: int)
    requires i >= 0
    ensures AvatarForIndex(i + |AVATARS|) == AvatarForIndex(i)
    ensures AvatarForIndex(i).Some?
  {
    assert |AVATARS| == 9;
    assert (i + 9) % 9 == i % 9;
  }

  /** A negative index that is not a multiple of nine reads past the list
      (`undefined`); a negative multiple reads the first avatar, since `-0`
      is index 0. */
  lemma NegativeIndices(i: int)
    requires i < 0
    ensures i % |AVATARS| != 0 ==> AvatarForIndex(i).None?
    ensures i % |AVATARS| == 0 ==> AvatarForIndex(i) == Some(AVATARS[0])
  {
    assert ((-i) % 9 == 0) == (i % 9 == 0);
  }
}
