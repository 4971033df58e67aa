/** The run clock on the HUD: it accumulates unscaled frame time while the
    game is not paused and shows it as minutes, seconds and hundredths,
    "mm:ss:cc". */
module Clock {
  import opened Decimal

  // ---------------------------------------------------------------------------
  // Casts and remainders as the scripting language performs them

  /** The (int) cast: truncation toward zero. */
  function Trunc(x: real): (r: int)
    ensures x >= 0.0 ==> r >= 0 && r as real <= x < r as real + 1.0
    ensures x < 0.0 ==> r <= 0 && r as real - 1.0 < x <= r as real
  {
    if x >= 0.0 then x.Floor else -((-x).Floor)
  }

  /** x % 1 on a float: the remainder keeps the sign of x. */
  function FractionalPart(x: real): (r: real)
    ensures x >= 0.0 ==> 0.0 <= r < 1.0 && (x - r).Floor == x.Floor && x - r == x.Floor as real
    ensures x < 0.0 ==> -1.0 < r <= 0.0
  {
    x - Trunc(x) as real
  }

  // ---------------------------------------------------------------------------
  // The three readings

  /** Whole minutes elapsed. */
  function Minutes(timer: real): (r: int)
    ensures timer >= 0.0 ==> r >= 0 && 60.0 * r as real <= timer < 60.0 * (r + 1) as real
  {
    Trunc(timer / 60.0)
  }

  /** Whole seconds into the current minute. */
  function Seconds(timer: real): (r: int)
    ensures timer >= 0.0 ==> 0 <= r <= 59
  {
    Trunc(timer - (60 * Minutes(timer)) as real)
  }

  /** Hundredths into the current second. */
  function Cents(timer: real): (r: int)
    ensures timer >= 0.0 ==> 0 <= r <= 99
  {
    Trunc(FractionalPart(timer) * 100.0)
  }

  /** The three readings rebuild the timer to within a hundredth, from below. */
  lemma ReadingApproximatesTimer(timer: real)
    requires timer >= 0.0
    ensures var shown := 60.0 * Minutes(timer) as real + Seconds(timer) as real + Cents(timer) as real / 100.0;
      shown <= timer < shown + 0.01
  {
    var m := Minutes(timer);
    var s := Seconds(timer);
    var f := FractionalPart(timer);
    assert timer.Floor == 60 * m + s;
    assert timer == (60 * m + s) as real + f;
  }

  // ---------------------------------------------------------------------------
  // The text

  /** The label text: the three readings in the "00" format, joined by ':'. */
  function Render(timer: real): (r: string)
    ensures timer >= 0.0 ==> |r| >= 8 && ':' in r
    ensures 0.0 <= timer < 6000.0 ==> |r| == 8 && r[2] == ':' && r[5] == ':'
    ensures 0.0 <= timer < 6000.0 ==> AllDigits(r[..2]) && AllDigits(r[3..5]) && AllDigits(r[6..])
  {
    PadTwo(Minutes(timer)) + ":" + PadTwo(Seconds(timer)) + ":" + PadTwo(Cents(timer))
  }

  /** The fields of a string between its ':' separators. */
  function Fields(s: string): (r: seq<string>)
    ensures |r| >= 1
    decreases |s|
  {
    if s == [] then [[]]
    else
      var rest := Fields(s[1..]);
      if s[0] == ':' then [[]] + rest else [[s[0]] + rest[0]] + rest[1..]
  }

  lemma {:induction false} FieldsOfPlain(a: string)
    requires ':' !in a
    ensures Fields(a) == [a]
    decreases |a|
  {
    if a != [] {
      FieldsOfPlain(a[1..]);
      assert [a[0]] + a[1..] == a;
    }
  }

  lemma {:induction false} FieldsOfJoin(a: string, b: string)
    requires ':' !in a
    ensures Fields(a + ":" + b) == [a] + Fields(b)
    decreases |a|
  {
    if a == [] {
      assert a + ":" + b == [':'] + b;
      assert (a + ":" + b)[1..] == b;
    } else {
      var joined := a + ":" + b;
      assert joined[0] == a[0] && joined[1..] == a[1..] + ":" + b;
      FieldsOfJoin(a[1..], b);
      assert [a[0]] + a[1..] == a;
    }
  }

  datatype Reading = Reading(minutes: int, seconds: int, cents: int)

  datatype Option<T> = None | Some(value: T)

  /** A field of the clock text: at least two digits. */
  predicate NumberField(s: string)
  {
    |s| >= 2 && AllDigits(s)
  }

  /** Reads a clock text back: exactly three ':'-separated fields of at least
      two digits each. */
  function ParseClock(text: string): Option<Reading>
  {
    var fs := Fields(text);
    if |fs| == 3 && NumberField(fs[0]) && NumberField(fs[1]) && NumberField(fs[2]) then
      Some(Reading(DecimalValue(fs[0]), DecimalValue(fs[1]), DecimalValue(fs[2])))
    else None
  }

  lemma DigitsHaveNoColon(s: string)
    requires AllDigits(s)
    ensures ':' !in s
  {
  }

  /** Three fields without ':', joined by ':', split back into those fields. */
  lemma FieldsOfThree(m: string, s: string, c: string)
    requires ':' !in m && ':' !in s && ':' !in c
    ensures Fields(m + ":" + s + ":" + c) == [m, s, c]
  {
    var tail := s + ":" + c;
    FieldsOfPlain(c);
    FieldsOfJoin(s, c);
    assert m + ":" + s + ":" + c == m + ":" + tail;
    FieldsOfJoin(m, tail);
  }

  /** Three digit fields of at least two characters, joined by ':', read back as their values. */
  lemma ParseJoinedFields(m: string, s: string, c: string)
    requires NumberField(m) && NumberField(s) && NumberField(c)
    ensures ParseClock(m + ":" + s + ":" + c) == Some(Reading(DecimalValue(m), DecimalValue(s), DecimalValue(c)))
  {
    DigitsHaveNoColon(m);
    DigitsHaveNoColon(s);
    DigitsHaveNoColon(c);
    FieldsOfThree(m, s, c);
  }

  /** The label text of a non-negative timer is three ':'-separated fields of
      at least two digits, and reading it back gives the three readings. */
  lemma RenderReadsBack(timer: real)
    requires timer >= 0.0
    ensures ParseClock(Render(timer)) == Some(Reading(Minutes(timer), Seconds(timer), Cents(timer)))
  {
    ParseJoinedFields(PadTwo(Minutes(timer)), PadTwo(Seconds(timer)), PadTwo(Cents(timer)));
  }

  // ---------------------------------------------------------------------------
  // Accumulation

  /** One frame as the component sees it: the global time scale and the
      unscaled frame time. */
  datatype TimeFrame = TimeFrame(timeScale: real, unscaledDeltaTime: real)

  /** The timer after one frame: frozen while the time scale is 0, otherwise
      advanced by the unscaled frame time. */
  function Advance(timer: real, f: TimeFrame): (r: real)
    ensures f.timeScale == 0.0 ==> r == timer
    ensures f.timeScale != 0.0 ==> r - timer == f.unscaledDeltaTime
  {
    if f.timeScale == 0.0 then timer else timer + f.unscaledDeltaTime
  }

  /** The timer after a run of frames. */
  function TimerAfter(timer: real, frames: seq<TimeFrame>): real
    decreases |frames|
  {
    if frames == [] then timer else TimerAfter(Advance(timer, frames[0]), frames[1..])
  }

  /** The time counted over a run: the unscaled frame times of the frames
      that were not paused. */
  function CountedTime(frames: seq<TimeFrame>): real
    decreases |frames|
  {
    if frames == [] then 0.0
    else (if frames[0].timeScale == 0.0 then 0.0 else frames[0].unscaledDeltaTime) + CountedTime(frames[1..])
  }

  predicate NonNegativeTimes(frames: seq<TimeFrame>)
  {
    forall i :: 0 <= i < |frames| ==> frames[i].unscaledDeltaTime >= 0.0
  }

  /** The timer gains exactly the unpaused frame time of a run. */
  lemma {:induction false} TimerCountsUnpausedTime(timer: real, frames: seq<TimeFrame>)
    ensures TimerAfter(timer, frames) == timer + CountedTime(frames)
    decreases |frames|
  {
    if frames != [] {
      TimerCountsUnpausedTime(Advance(timer, frames[0]), frames[1..]);
    }
  }

  /** With non-negative frame times the timer never goes back. */
  lemma {:induction false} TimerNeverDecreases(timer: real, frames: seq<TimeFrame>)
    requires NonNegativeTimes(frames)
    ensures TimerAfter(timer, frames) >= timer
    decreases |frames|
  {
    if frames != [] {
      assert NonNegativeTimes(frames[1..]);
      TimerNeverDecreases(Advance(timer, frames[0]), frames[1..]);
    }
  }

  // ---------------------------------------------------------------------------
  // The component

  class UITimer {
    var timer: real
    /** The text of the label the component writes to. */
    var text: string

    constructor (labelText: string)
      ensures timer == 0.0 && text == labelText
    {
      timer := 0.0;
      text := labelText;
    }

    /** Update: one frame. While paused neither the timer nor the label changes. */
    method Update(f: TimeFrame)
      modifies this
      ensures timer == Advance(old(timer), f)
      ensures text == if f.timeScale == 0.0 then old(text) else Render(timer)
      ensures f.unscaledDeltaTime >= 0.0 ==> timer >= old(timer)
    {
      if f.timeScale == 0.0 {
        return;
      }
      timer := timer + f.unscaledDeltaTime;
      text := Render(timer);
    }
  }
}
