/**
 Times of the scheduler page (html/static/scheduler.js): clock times and URL durations as
 text, and the next run of a daily or a weekly rule.

 Days are uniform: every local day has 24 hours.
 */
module SchedulerTime {
  import opened Decimals

  datatype Option<T> = None | Some(value: T)

  // ---------- Text ----------

  /** White space of String.trim and of \\s. */
  predicate IsSpace(c: char)
  {
    var u := c as int;
    || 9 <= u <= 13 || u == 32 || u == 0xa0 || u == 0x1680 || 0x2000 <= u <= 0x200a
    || u == 0x2028 || u == 0x2029 || u == 0x202f || u == 0x205f || u == 0x3000 || u == 0xfeff
  }

  function TrimLeft(s: string): (r: string)
    ensures r != "" ==> !IsSpace(r[0])
    ensures s != "" && !IsSpace(s[0]) ==> r == s
  {
    if s != "" && IsSpace(s[0]) then TrimLeft(s[1..]) else s
  }

  function TrimRight(s: string): (r: string)
    ensures r <= s && (r != "" ==> !IsSpace(r[|r| - 1]))
    ensures s != "" && !IsSpace(s[|s| - 1]) ==> r == s
  {
    if s != "" && IsSpace(s[|s| - 1]) then TrimRight(s[..|s| - 1]) else s
  }

  function Trim(s: string): string { TrimRight(TrimLeft(s)) }

  lemma TrimKeeps(s: string)
    requires s != "" && !IsSpace(s[0]) && !IsSpace(s[|s| - 1])
    ensures Trim(s) == s
  {
  }

  /** padStart(2, '0') */
  function Pad(n: nat): (s: string)
    ensures AllDigits(s) && |s| >= 2
  {
    if n < 10 then "0" + Text(n) else Text(n)
  }

  lemma PadValue(n: nat)
    ensures Value(Pad(n)) == n && (n < 100 <==> |Pad(n)| == 2)
  {
    ValueOfText(n);
    if n < 10 {
      assert Pad(n) == ['0', Digit(n)] && Pad(n)[..1] == ['0'] && Pad(n)[..1][..0] == "";
    } else if n >= 100 {
      assert |Text(n / 10)| >= 2;
    }
  }

  lemma {:induction false} TextOfValue(s: string)
    requires s != "" && AllDigits(s) && s[0] != '0'
    ensures Value(s) > 0 && Text(Value(s)) == s
  {
    var front, last := s[..|s| - 1], s[|s| - 1];
    assert s == front + [last];
    if front == "" {
      assert Value(front) == 0;
    } else {
      TextOfValue(front);
      OneMoreDigit(Value(front), last as int - '0' as int);
    }
  }

  lemma OneMoreDigit(n: nat, d: nat)
    requires n > 0 && d < 10
    ensures Text(10 * n + d) == Text(n) + [Digit(d)]
  {
    assert (10 * n + d) / 10 == n && (10 * n + d) % 10 == d;
  }

  /** Padding gives back the digits it could have printed. */
  lemma PadOfDigits(s: string)
    requires |s| >= 2 && AllDigits(s)
    ensures Pad(Value(s)) == s <==> |s| == 2 || s[0] != '0'
  {
    if s[0] != '0' {
      TextOfValue(s);
      TextLength(Value(s));
    } else if |s| == 2 {
      PadOfZeroDigit(s);
    } else {
      PadStart(Value(s));
    }
  }

  lemma TextLength(n: nat)
    ensures |Text(n)| == 1 <==> n < 10
  {
  }

  lemma PadOfZeroDigit(s: string)
    requires |s| == 2 && s[0] == '0' && IsDigit(s[1])
    ensures Pad(Value(s)) == s
  {
    assert s[..1] == "0" && Value("0") == 0 by { assert "0"[..0] == ""; }
    assert s == "0" + [s[1]];
  }

  lemma PadStart(n: nat)
    ensures |Pad(n)| > 2 ==> Pad(n)[0] != '0'
  {
    if n > 0 { TextStart(n); }
  }

  lemma {:induction false} TextStart(n: nat)
    requires n > 0
    ensures Text(n)[0] != '0'
  {
    if n >= 10 { TextStart(n / 10); }
  }

  // ---------- Clock times ----------

  datatype Clock = Clock(hours: nat, minutes: nat, seconds: nat)

  predicate ValidClock(c: Clock) { c.hours < 24 && c.minutes < 60 && c.seconds < 60 }

  function ClockText(c: Clock): string
  {
    Pad(c.hours) + ":" + Pad(c.minutes) + ":" + Pad(c.seconds)
  }

  predicate TwoDigitsAt(s: string, i: nat)
  {
    i + 2 <= |s| && IsDigit(s[i]) && IsDigit(s[i + 1])
  }

  /** The digits of a time whose first colon is at `h`: (\\d{h}):(\\d{2})(?::(\\d{2}))? */
  predicate TimeShape(s: string, h: nat)
  {
    && (h == 1 || h == 2) && h < |s| && AllDigits(s[..h]) && s[h] == ':' && TwoDigitsAt(s, h + 1)
    && (|s| == h + 3 || (|s| == h + 6 && s[h + 3] == ':' && TwoDigitsAt(s, h + 4)))
  }

  function TimeOf(s: string, h: nat): Clock
    requires TimeShape(s, h)
  {
    Clock(Value(s[..h]), Value(s[h + 1..h + 3]), if |s| == h + 3 then 0 else Value(s[h + 4..h + 6]))
  }

  function ReadTime(s: string): (c: Option<Clock>)
    ensures c.Some? ==> ValidClock(c.value)
  {
    var h := if TimeShape(s, 1) then 1 else 2;
    if TimeShape(s, h) && ValidClock(TimeOf(s, h)) then Some(TimeOf(s, h)) else None
  }

  /** normalizeSchedulerTime: the minutes stay as written; empty when the text is not a time. */
  function Normalize(text: string): string
  {
    var s := Trim(text);
    var h := if TimeShape(s, 1) then 1 else 2;
    var c := ReadTime(s);
    if c.Some? then Pad(c.value.hours) + ":" + s[h + 1..h + 3] + ":" + Pad(c.value.seconds) else ""
  }

  /** The result is the time printed afresh. */
  lemma NormalizePrints(text: string)
    requires ReadTime(Trim(text)).Some?
    ensures Normalize(text) == ClockText(ReadTime(Trim(text)).value)
  {
    var s := Trim(text);
    var h := if TimeShape(s, 1) then 1 else 2;
    PadOfDigits(s[h + 1..h + 3]);
  }

  /** Reading inverts printing. */
  lemma ClockRoundTrip(c: Clock)
    requires ValidClock(c)
    ensures ReadTime(ClockText(c)) == Some(c) && Trim(ClockText(c)) == ClockText(c)
  {
    PadValue(c.hours);
    PadValue(c.minutes);
    PadValue(c.seconds);
    ThreePairs(ClockText(c), Pad(c.hours), Pad(c.minutes), Pad(c.seconds));
  }

  lemma ThreePairs(s: string, a: string, b: string, c: string)
    requires |a| == |b| == |c| == 2 && AllDigits(a) && AllDigits(b) && AllDigits(c) && s == a + ":" + b + ":" + c
    ensures TimeShape(s, 2) && !TimeShape(s, 1) && TimeOf(s, 2) == Clock(Value(a), Value(b), Value(c)) && Trim(s) == s
    ensures !IsSpace(s[0]) && !IsSpace(s[|s| - 1])
  {
    assert s[..2] == a && s[3..5] == b && s[6..8] == c;
    assert s[0] == a[0] && s[1] == a[1] && s[3] == b[0] && s[4] == b[1] && s[6] == c[0] && s[7] == c[1];
    assert IsDigit(a[1]) && IsDigit(b[0]) && IsDigit(b[1]) && IsDigit(c[0]) && IsDigit(c[1]);
    TrimKeeps(s);
  }

  /** A normal form keeps the time, is its own normal form, and is the same for two texts
      exactly when they name the same time. */
  lemma NormalFormOfTimes(a: string, b: string)
    requires ReadTime(Trim(a)).Some? && ReadTime(Trim(b)).Some?
    ensures ReadTime(Trim(Normalize(a))) == ReadTime(Trim(a))
    ensures Normalize(Normalize(a)) == Normalize(a)
    ensures Normalize(a) == Normalize(b) <==> ReadTime(Trim(a)) == ReadTime(Trim(b))
  {
    ClockRoundTrip(ReadTime(Trim(a)).value);
    ClockRoundTrip(ReadTime(Trim(b)).value);
    NormalizePrints(a);
    NormalizePrints(b);
    NormalizePrints(Normalize(a));
  }

  // ---------- URL durations ----------

  const MAX_SAFE := 0x1f_ffff_ffff_ffff

  /** formatUrlDuration of a whole number. */
  function FormatDuration(seconds: int): string
  {
    if !(0 < seconds <= MAX_SAFE) then ""
    else Pad(seconds / 3600) + ":" + Pad(seconds % 3600 / 60) + ":" + Pad(seconds % 60)
  }

  /** (\\d{2,}):([0-5]\\d):([0-5]\\d), with the hours in the first `h` characters. */
  predicate DurationShape(s: string, h: nat)
  {
    && 2 <= h && |s| == h + 6 && AllDigits(s[..h]) && s[h] == ':' && s[h + 3] == ':'
    && '0' <= s[h + 1] <= '5' && IsDigit(s[h + 2]) && '0' <= s[h + 4] <= '5' && IsDigit(s[h + 5])
  }

  function SecondsOf(s: string, h: nat): nat
    requires DurationShape(s, h)
  {
    Value(s[..h]) * 3600 + Value(s[h + 1..h + 3]) * 60 + Value(s[h + 4..h + 6])
  }

  /** parseUrlDuration: -1 for no text, which stands for no end. */
  function ParseDuration(text: string): Option<int>
  {
    var s := Trim(text);
    if s == "" then Some(-1)
    else if |s| >= 6 && DurationShape(s, |s| - 6) && 0 < SecondsOf(s, |s| - 6) <= MAX_SAFE
      then Some(SecondsOf(s, |s| - 6))
    else None
  }

  lemma DivisionParts(n: nat)
    ensures n / 3600 * 3600 + n % 3600 / 60 * 60 + n % 60 == n
    ensures n % 3600 / 60 < 60 && n % 60 < 60
  {
    assert n % 3600 % 60 == n % 60;
  }

  /** The parts of a duration's text. */
  predicate Part(s: string) { |s| == 2 && '0' <= s[0] <= '5' && IsDigit(s[1]) }

  lemma DurationText(s: string, a: string, b: string, c: string)
    requires |a| >= 2 && AllDigits(a) && Part(b) && Part(c) && s == a + ":" + b + ":" + c
    ensures |s| == |a| + 6 && DurationShape(s, |a|) && Trim(s) == s
    ensures SecondsOf(s, |a|) == Value(a) * 3600 + Value(b) * 60 + Value(c)
  {
    assert s[..|a|] == a && s[|a| + 1..|a| + 3] == b && s[|a| + 4..|a| + 6] == c;
    assert s[|a| + 1] == b[0] && s[|a| + 2] == b[1] && s[|a| + 4] == c[0] && s[|a| + 5] == c[1];
    assert s[0] == a[0];
    TrimKeeps(s);
  }

  lemma DurationReads(s: string, n: nat, a: string, b: string, c: string)
    requires |a| >= 2 && AllDigits(a) && Part(b) && Part(c) && s == a + ":" + b + ":" + c
    requires n == Value(a) * 3600 + Value(b) * 60 + Value(c) && 0 < n <= MAX_SAFE
    ensures ParseDuration(s) == Some(n)
  {
    DurationText(s, a, b, c);
    ParsesAs(s, |a|);
  }

  lemma ParsesAs(s: string, h: nat)
    requires Trim(s) == s && DurationShape(s, h) && 0 < SecondsOf(s, h) <= MAX_SAFE
    ensures ParseDuration(s) == Some(SecondsOf(s, h))
  {
    assert |s| - 6 == h;
  }

  lemma TensDigit(n: nat)
    requires n < 60
    ensures '0' <= Pad(n)[0] <= '5'
  {
    if n >= 10 { assert Text(n) == Text(n / 10) + [Digit(n % 10)] && Text(n / 10) == [Digit(n / 10)]; }
  }

  /** A duration survives printing and parsing exactly when it is a positive safe integer, or
      the -1 of no end. */
  lemma DurationRoundTripExactlyWhen(seconds: int)
    ensures ParseDuration(FormatDuration(seconds)) == Some(seconds) <==> seconds == -1 || 0 < seconds <= MAX_SAFE
  {
    if 0 < seconds <= MAX_SAFE {
      var h, m, sec := seconds / 3600, seconds % 3600 / 60, seconds % 60;
      DivisionParts(seconds);
      PadValue(h);
      PadValue(m);
      PadValue(sec);
      TensDigit(m);
      TensDigit(sec);
      DurationReads(FormatDuration(seconds), seconds, Pad(h), Pad(m), Pad(sec));
    }
  }

  /** Printing what was parsed gives the text back exactly when its hours have two digits or
      no leading zero. */
  lemma CanonicalTextExactlyWhen(text: string)
    requires ParseDuration(text).Some? && ParseDuration(text).value > 0
    ensures var s := Trim(text); FormatDuration(ParseDuration(text).value) == s <==> |s| == 8 || s[0] != '0'
  {
    var s := Trim(text);
    var h := |s| - 6;
    var hours, minutes, seconds := Value(s[..h]), Value(s[h + 1..h + 3]), Value(s[h + 4..h + 6]);
    TwoDigits(s[h + 1..h + 3]);
    TwoDigits(s[h + 4..h + 6]);
    PartsOfSeconds(SecondsOf(s, h), hours, minutes, seconds);
    PadOfDigits(s[..h]);
    PadOfDigits(s[h + 1..h + 3]);
    PadOfDigits(s[h + 4..h + 6]);
    SameParts(s, h, Pad(hours));
  }

  lemma TwoDigits(s: string)
    requires |s| == 2 && AllDigits(s) && '0' <= s[0] <= '5'
    ensures Value(s) < 60
  {
    assert s[..1] == [s[0]] && s[..1][..0] == "";
    assert Value(s[..1]) == s[0] as int - '0' as int;
  }

  lemma PartsOfSeconds(n: nat, hours: nat, minutes: nat, seconds: nat)
    requires n == hours * 3600 + minutes * 60 + seconds && minutes < 60 && seconds < 60
    ensures n / 3600 == hours && n % 3600 / 60 == minutes && n % 60 == seconds
  {
  }

  lemma SameParts(s: string, h: nat, hours: string)
    requires h >= 2 && |s| == h + 6 && s[h] == ':' && s[h + 3] == ':'
    ensures hours + ":" + s[h + 1..h + 3] + ":" + s[h + 4..h + 6] == s <==> hours == s[..h]
  {
    var t := hours + ":" + s[h + 1..h + 3] + ":" + s[h + 4..h + 6];
    if t == s {
      assert |hours| == h;
      assert t[..h] == hours;
    }
    if hours == s[..h] { assert t == s; }
  }

  // ---------- The next run ----------

  /** Instants are milliseconds since a local midnight that began a Thursday. */
  const DAY := 86400000

  function Millis(c: Clock): (ms: nat)
    ensures ValidClock(c) ==> ms < DAY
  {
    ((c.hours * 60 + c.minutes) * 60 + c.seconds) * 1000
  }

  /** Days of the week count from Sunday. */
  function Weekday(t: int): (w: nat)
    ensures w < 7
  {
    (t / DAY + 4) % 7
  }

  datatype Rule = Daily(clock: Clock) | Weekly(weekday: nat, clock: Clock)

  predicate ValidRule(r: Rule) { ValidClock(r.clock) && (r.Weekly? ==> r.weekday < 7) }

  /** The instants at which a rule runs. */
  predicate Due(r: Rule, t: int)
  {
    t % DAY == Millis(r.clock) && (r.Weekly? ==> Weekday(t) == r.weekday)
  }

  /** The first such instant after `now`. */
  ghost predicate IsNext(r: Rule, now: int, t: int)
  {
    t > now && Due(r, t) && forall u :: u > now && Due(r, u) ==> t <= u
  }

  /** Two runs of a rule are at least a day, or a week, apart. */
  lemma RunsAreApart(r: Rule, u: int, v: int)
    requires Due(r, u) && Due(r, v) && u < v
    ensures v - u >= if r.Weekly? then 7 * DAY else DAY
  {
    var days := v / DAY - u / DAY;
    assert v - u == days * DAY;
    if r.Weekly? { assert (u / DAY + 4 + days) % 7 == (u / DAY + 4) % 7; }
  }

  lemma NextWithinOnePeriod(r: Rule, now: int, t: int)
    requires Due(r, t) && now < t <= now + if r.Weekly? then 7 * DAY else DAY
    ensures IsNext(r, now, t)
  {
    forall u | u > now && Due(r, u) ensures t <= u {
      if u < t { RunsAreApart(r, u, t); }
    }
  }

  /** The daily rule: today at the time, or else tomorrow. */
  method NextDaily(clock: Clock, now: int) returns (candidate: int)
    requires ValidClock(clock)
    ensures IsNext(Daily(clock), now, candidate)
  {
    candidate := now - now % DAY + Millis(clock);
    AtTime(now / DAY, clock);
    AtTime(now / DAY + 1, clock);
    if candidate <= now { candidate := candidate + DAY; }
    NextWithinOnePeriod(Daily(clock), now, candidate);
  }

  /** nextDateFromWeekdayTime: the coming such day of the week, today included, or else a
      week later. */
  method NextWeekly(weekday: nat, clock: Clock, now: int) returns (candidate: int)
    requires weekday < 7 && ValidClock(clock)
    ensures IsNext(Weekly(weekday, clock), now, candidate)
  {
    ghost var day := now / DAY;
    candidate := now - now % DAY + Millis(clock);
    AtTime(day, clock);
    var delta := (weekday - Weekday(candidate) + 7) % 7;
    ReachesWeekday(day, weekday, delta);
    AtTime(day + delta, clock);
    AtTime(day + delta + 7, clock);
    candidate := candidate + delta * DAY;
    if candidate <= now { candidate := candidate + 7 * DAY; }
    NextWithinOnePeriod(Weekly(weekday, clock), now, candidate);
  }

  lemma ReachesWeekday(day: int, weekday: nat, delta: int)
    requires weekday < 7 && delta == (weekday - (day + 4) % 7 + 7) % 7
    ensures 0 <= delta < 7 && (day + delta + 4) % 7 == weekday && (day + delta + 7 + 4) % 7 == weekday
  {
  }

  lemma AtTime(day: int, clock: Clock)
    requires ValidClock(clock)
    ensures var t := day * DAY + Millis(clock);
            t / DAY == day && t % DAY == Millis(clock) && Weekday(t) == (day + 4) % 7
  {
  }

  // ---------- Rule texts ----------

  const DAY_NAMES := ["sunday", "monday", "tuesday", "wednesday", "thursday", "friday", "saturday"]

  function Lower(s: string): (r: string)
    ensures |r| == |s|
  {
    seq(|s|, i requires 0 <= i < |s| => if 'A' <= s[i] <= 'Z' then s[i] + ('a' - 'A') else s[i])
  }

  /** The characters before the first white space. */
  function Word(s: string): (w: string)
    ensures w <= s && forall i :: 0 <= i < |w| ==> !IsSpace(w[i])
    ensures |w| < |s| ==> IsSpace(s[|w|])
  {
    if s == "" || IsSpace(s[0]) then "" else [s[0]] + Word(s[1..])
  }

  /** The position of a day's name, or 7. */
  function DayNamed(name: string, from: nat := 0): (w: nat)
    requires from <= 7
    ensures from <= w <= 7 && (w < 7 ==> DAY_NAMES[w] == name)
    ensures forall i :: from <= i < w ==> DAY_NAMES[i] != name
    decreases 7 - from
  {
    if from == 7 || DAY_NAMES[from] == name then from else DayNamed(name, from + 1)
  }

  /** A recurring rule: "Everyday" or a day's name in any case, white space, and a time with
      two-digit hours. */
  function ParseRule(text: string): (r: Option<Rule>)
    ensures r.Some? ==> ValidRule(r.value)
  {
    var s := Trim(text);
    var word := Word(s);
    var time := TrimLeft(s[|word|..]);
    if |word| == |s| || !TimeShape(time, 2) || ReadTime(time).None? then None
    else if Lower(word) == "everyday" then Some(Daily(ReadTime(time).value))
    else if DayNamed(Lower(word)) < 7 then Some(Weekly(DayNamed(Lower(word)), ReadTime(time).value))
    else None
  }

  /** computeNextRunDateFromRunWhen; `oneShot` is the instant of a text that is a date. */
  method ComputeNextRun(text: string, oneShot: Option<int>, now: int) returns (r: Option<int>)
    ensures oneShot.Some? ==> r == if oneShot.value > now then oneShot else None
    ensures oneShot.None? ==> (r.Some? <==> ParseRule(text).Some?)
    ensures oneShot.None? && r.Some? ==> IsNext(ParseRule(text).value, now, r.value)
  {
    if oneShot.Some? { return if oneShot.value > now then oneShot else None; }
    var rule := ParseRule(text);
    if rule.None? { return None; }
    var candidate;
    if rule.value.Daily? {
      candidate := NextDaily(rule.value.clock, now);
    } else {
      candidate := NextWeekly(rule.value.weekday, rule.value.clock, now);
    }
    r := Some(candidate);
  }

  function RuleText(r: Rule): string
    requires ValidRule(r)
  {
    (if r.Daily? then "everyday" else DAY_NAMES[r.weekday]) + " " + ClockText(r.clock)
  }

  lemma {:induction false} WordOf(w: string, rest: string)
    requires forall i :: 0 <= i < |w| ==> !IsSpace(w[i])
    requires rest != "" && IsSpace(rest[0])
    ensures Word(w + rest) == w
  {
    if w == "" {
      assert w + rest == rest;
    } else {
      assert (w + rest)[1..] == w[1..] + rest;
      WordOf(w[1..], rest);
    }
  }

  predicate IsName(w: string)
  {
    w != "" && Lower(w) == w && forall i :: 0 <= i < |w| ==> 'a' <= w[i] <= 'z'
  }

  lemma NamesAreNames(r: Rule)
    requires ValidRule(r)
    ensures var w := if r.Daily? then "everyday" else DAY_NAMES[r.weekday];
            IsName(w) && (r.Weekly? ==> w != "everyday" && DayNamed(w) == r.weekday)
  {
    if r.Weekly? { assert DAY_NAMES[r.weekday] != "everyday"; }
  }

  lemma ReadsAs(s: string, w: string, time: string)
    requires IsName(w) && s == w + (" " + time) && TimeShape(time, 2) && ReadTime(time).Some?
    requires !IsSpace(time[0]) && !IsSpace(time[|time| - 1])
    ensures w == "everyday" ==> ParseRule(s) == Some(Daily(ReadTime(time).value))
    ensures w != "everyday" && DayNamed(w) < 7 ==> ParseRule(s) == Some(Weekly(DayNamed(w), ReadTime(time).value))
  {
    WordOf(w, " " + time);
    assert s[0] == w[0] && s[|s| - 1] == time[|time| - 1];
    TrimKeeps(s);
    assert s[|w|..] == " " + time && (" " + time)[1..] == time;
    assert TrimLeft(" " + time) == TrimLeft(time) == time;
    assert Word(s) == w && TrimLeft(s[|w|..]) == time;
  }

  lemma ClockTextShape(c: Clock)
    requires ValidClock(c)
    ensures var time := ClockText(c); TimeShape(time, 2) && !IsSpace(time[0]) && !IsSpace(time[|time| - 1])
  {
    PadValue(c.hours);
    PadValue(c.minutes);
    PadValue(c.seconds);
    ThreePairs(ClockText(c), Pad(c.hours), Pad(c.minutes), Pad(c.seconds));
  }

  /** A rule written out reads back. */
  lemma RuleRoundTrip(r: Rule)
    requires ValidRule(r)
    ensures ParseRule(RuleText(r)) == Some(r)
  {
    var w := if r.Daily? then "everyday" else DAY_NAMES[r.weekday];
    NamesAreNames(r);
    ClockRoundTrip(r.clock);
    ClockTextShape(r.clock);
    assert RuleText(r) == w + (" " + ClockText(r.clock));
    ReadsAs(RuleText(r), w, ClockText(r.clock));
  }
}
