/** The "amazing offers" strip: a countdown of hours, minutes and seconds that ticks once a
    second and wraps from 00:00:00 to 23:59:59, its two-digit display, and the carousel's scroll
    buttons. */
module AmazingOffers {
  import opened Text
  import Types
  import ProductCarousel

  datatype TimeLeft = TimeLeft(hours: int, minutes: int, seconds: int)

  /** The countdown starts at 12:34:56. */
  const InitialTimeLeft: TimeLeft := TimeLeft(12, 34, 56)

  const SecondsPerDay: int := 86400

  /** A clock reading: hours 0..23, minutes and seconds 0..59. */
  predicate Valid(t: TimeLeft) {
    0 <= t.hours < 24 && 0 <= t.minutes < 60 && 0 <= t.seconds < 60
  }

  /** The reading as a number of seconds since midnight. */
  function ToSeconds(t: TimeLeft): int {
    t.hours * 3600 + t.minutes * 60 + t.seconds
  }

  /** The reading of a number of seconds within a day. */
  function FromSeconds(n: int): (t: TimeLeft)
    requires 0 <= n < SecondsPerDay
    ensures Valid(t) && ToSeconds(t) == n
  {
    TimeLeft(n / 3600, (n % 3600) / 60, n % 60)
  }

  /** Valid readings and seconds within a day correspond one to one. */
  lemma SecondsRoundTrip(t: TimeLeft)
    requires Valid(t)
    ensures 0 <= ToSeconds(t) < SecondsPerDay && FromSeconds(ToSeconds(t)) == t
  {
    var n := ToSeconds(t);
    assert n / 3600 == t.hours;
    assert n % 3600 == t.minutes * 60 + t.seconds;
  }

  /** One second back within a day, at the level of numbers. */
  lemma StepBack(n: int)
    requires 0 <= n < SecondsPerDay
    ensures (n + SecondsPerDay - 1) % SecondsPerDay == if n == 0 then SecondsPerDay - 1 else n - 1
  {
  }

  /** The interval's updater: count the seconds down; at zero, borrow a minute (seconds to 59);
      at zero minutes, borrow an hour (minutes to 59); at 00:00:00 start over at 23:59:59. From a
      valid reading it steps one second back, modulo a day, and stays valid. */
  method Tick(prev: TimeLeft) returns (next: TimeLeft)
    ensures prev.seconds > 0 ==> next == prev.(seconds := prev.seconds - 1)
    ensures Valid(prev) ==> Valid(next)
    ensures Valid(prev) ==> ToSeconds(next) == (ToSeconds(prev) + SecondsPerDay - 1) % SecondsPerDay
    ensures Valid(prev) && ToSeconds(prev) != 0 ==> ToSeconds(next) == ToSeconds(prev) - 1
    ensures prev == TimeLeft(0, 0, 0) ==> next == TimeLeft(23, 59, 59)
  {
    var hours, minutes, seconds := prev.hours, prev.minutes, prev.seconds;
    if seconds > 0 {
      seconds := seconds - 1;
    } else {
      seconds := 59;
      if minutes > 0 {
        minutes := minutes - 1;
      } else {
        minutes := 59;
        if hours > 0 {
          hours := hours - 1;
        } else {
          hours := 23;
          minutes := 59;
          seconds := 59;
        }
      }
    }
    next := TimeLeft(hours, minutes, seconds);
    if Valid(prev) {
      StepBack(ToSeconds(prev));
    }
  }

  /** The component's countdown state, replaced on every tick. */
  class Countdown {
    var timeLeft: TimeLeft

    constructor ()
      ensures timeLeft == InitialTimeLeft && Valid(timeLeft)
      ensures ToSeconds(timeLeft) == 45296
    {
      timeLeft := InitialTimeLeft;
    }

    /** One interval firing: the state becomes the tick of the previous state. */
    method OnInterval()
      modifies this
      ensures Valid(old(timeLeft)) ==> Valid(timeLeft)
      ensures Valid(old(timeLeft)) ==>
                ToSeconds(timeLeft) == (ToSeconds(old(timeLeft)) + SecondsPerDay - 1) % SecondsPerDay
    {
      timeLeft := Tick(timeLeft);
    }
  }

  /** `formatTime`: the number's decimal string, padded on the left with '0' to two characters. */
  function FormatTime(value: int): (r: string)
    ensures |r| >= 2
  {
    PadStart(ToDecimal(value), 2, '0')
  }

  /** A leading zero does not change the value a digit string denotes. */
  lemma {:induction false} LeadingZero(s: string)
    requires AllDigits(s)
    ensures AllDigits("0" + s) && ParseDigits("0" + s) == ParseDigits(s)
  {
    if s != [] {
      assert ("0" + s)[..|"0" + s| - 1] == "0" + s[..|s| - 1];
      LeadingZero(s[..|s| - 1]);
    }
  }

  /** A value from 0 to 99 is shown as exactly two digits that denote it. */
  lemma FormatTimeTwoDigits(value: int)
    requires 0 <= value < 100
    ensures |FormatTime(value)| == 2 && AllDigits(FormatTime(value))
    ensures ParseDigits(FormatTime(value)) == value
  {
    var d := Digits(value);
    ParseDigitsOfDigits(value);
    if value < 10 {
      assert FormatTime(value) == "0" + d;
      LeadingZero(d);
    } else {
      assert FormatTime(value) == d;
    }
  }

  /** A value whose decimal string already has two or more characters is shown unchanged. */
  lemma FormatTimeLongUnchanged(value: int)
    requires value >= 10 || value < 0
    ensures FormatTime(value) == ToDecimal(value)
  {
  }

  /** Every field of a valid reading is shown as two digits denoting it. */
  lemma FormatValidReading(t: TimeLeft)
    requires Valid(t)
    ensures |FormatTime(t.hours)| == 2 && AllDigits(FormatTime(t.hours)) &&
            ParseDigits(FormatTime(t.hours)) == t.hours
    ensures |FormatTime(t.minutes)| == 2 && AllDigits(FormatTime(t.minutes)) &&
            ParseDigits(FormatTime(t.minutes)) == t.minutes
    ensures |FormatTime(t.seconds)| == 2 && AllDigits(FormatTime(t.seconds)) &&
            ParseDigits(FormatTime(t.seconds)) == t.seconds
  {
    FormatTimeTwoDigits(t.hours);
    FormatTimeTwoDigits(t.minutes);
    FormatTimeTwoDigits(t.seconds);
  }

  /** The scroll buttons appear only for more than two products. */
  predicate ShowScrollButtons(productCount: int) {
    productCount > 2
  }

  /** The strip, which shows every product it is given, follows the carousel's rule: with a
      carousel limit above two, both show scroll buttons for the same product lists. */
  lemma ScrollButtonsAgreeWithCarousel(products: seq<Types.Product>, maxItems: int)
    requires maxItems > 2
    ensures ShowScrollButtons(|products|) <==> ProductCarousel.ShowScrollButtons(products, maxItems)
  {
    ProductCarousel.ScrollButtonsIff(products, maxItems);
  }
}
