/**
 * `parse_korean_datetime`: the timestamp Naver prints under a headline,
 * such as `2024.01.14. 오후 3:07`, read as a naive date and time. The
 * hour is written on a 12-hour clock with 오전 (AM) or 오후 (PM) in front.
 */
module KoreanTime {
  import opened Strings

  /** A naive timestamp; the time-zone attachment of the source is not modelled. */
  datatype DateTime = DateTime(year: int, month: int, day: int, hour: int, minute: int, second: int)

  /** 오전 (AM) or 오후 (PM). */
  datatype Meridiem = Am | Pm

  /** The groups of one match of the pattern, as the integers `int()` reads from them. */
  datatype Stamp = Stamp(year: nat, month: nat, day: nat, meridiem: Meridiem, hour: nat, minute: nat)

  const AmMarker := "오전"
  const PmMarker := "오후"

  predicate IsLeapYear(y: int)
  {
    (y % 4 == 0 && y % 100 != 0) || y % 400 == 0
  }

  function DaysInMonth(y: int, m: int): int
    requires 1 <= m <= 12
  {
    if m == 2 then (if IsLeapYear(y) then 29 else 28)
    else if m == 4 || m == 6 || m == 9 || m == 11 then 30
    else 31
  }

  /** The values Python's `datetime(y, mo, d, h, mi, s)` accepts; any other raises `ValueError`. */
  predicate ValidDateTime(dt: DateTime)
  {
    && 1 <= dt.year <= 9999
    && 1 <= dt.month <= 12
    && 1 <= dt.day <= DaysInMonth(dt.year, dt.month)
    && 0 <= dt.hour <= 23
    && 0 <= dt.minute <= 59
    && 0 <= dt.second <= 59
  }

  /** The 오전/오후 correction of lines 167-170. */
  function To24Hour(m: Meridiem, h: nat): nat
  {
    if m == Pm && h != 12 then h + 12
    else if m == Am && h == 12 then 0
    else h
  }

  /**
   * The match of
   * `(?P<y>\d{4})\.(?P<m>\d{2})\.(?P<d>\d{2})\.\s*(?P<ap>오전|오후)\s*(?P<h>\d{1,2}):(?P<min>\d{2})`
   * anchored at index `i`. A greedy `\s*` is never undone (the next item is
   * not whitespace), and `\d{1,2}` followed by `:` succeeds exactly when the
   * digit run there has length 1 or 2.
   */
  function MatchAt(t: string, i: nat): Option<Stamp>
  {
    if !(i + 11 <= |t|) then None
    else if !(AllDigits(t[i..i + 4]) && t[i + 4] == '.' && AllDigits(t[i + 5..i + 7]) && t[i + 7] == '.'
              && AllDigits(t[i + 8..i + 10]) && t[i + 10] == '.') then None
    else
      var p := i + 11 + SpaceRun(t, i + 11);
      if p + 2 > |t| then None
      else
        var ap := if t[p..p + 2] == AmMarker then Some(Am) else if t[p..p + 2] == PmMarker then Some(Pm) else None;
        if ap.None? then None
        else
          var q := p + 2 + SpaceRun(t, p + 2);
          var n := DigitRun(t, q);
          if !(1 <= n <= 2 && q + n < |t| && t[q + n] == ':') then None
          else
            var c := q + n + 1;
            if !(c + 2 <= |t| && AllDigits(t[c..c + 2])) then None
            else Some(Stamp(DigitsValue(t[i..i + 4]), DigitsValue(t[i + 5..i + 7]), DigitsValue(t[i + 8..i + 10]),
                            ap.value, DigitsValue(t[q..q + n]), DigitsValue(t[c..c + 2])))
  }

  /** Leftmost match at or after index `i` (`re.search`). */
  function Search(t: string, i: nat): (r: Option<Stamp>)
    requires i <= |t|
    ensures r.Some? ==> exists k | i <= k <= |t| :: MatchAt(t, k) == r
    ensures r.None? ==> forall k | i <= k <= |t| :: MatchAt(t, k).None?
    decreases |t| - i
  {
    if MatchAt(t, i).Some? then MatchAt(t, i)
    else if i >= |t| then None
    else Search(t, i + 1)
  }

  /** The search returns the first match: when `k` matches and no index from `i` up to `k` does, the result is the match at `k`. */
  lemma {:induction false} SearchLeftmost(t: string, i: nat, k: nat)
    requires i <= k <= |t|
    requires MatchAt(t, k).Some?
    requires forall j | i <= j < k :: MatchAt(t, j).None?
    ensures Search(t, i) == MatchAt(t, k)
    decreases k - i
  {
    if i < k {
      SearchSkip(t, i);
      SearchLeftmost(t, i + 1, k);
    }
  }

  lemma SearchSkip(t: string, i: nat)
    requires i < |t| && MatchAt(t, i).None?
    ensures Search(t, i) == Search(t, i + 1)
  {
  }

  /** The timestamp a match denotes: the groups with the hour corrected; the seconds are 0. */
  function StampTime(s: Stamp): DateTime
  {
    DateTime(s.year, s.month, s.day, To24Hour(s.meridiem, s.hour), s.minute, 0)
  }

  /** `parse_korean_datetime`: None for an empty value, a value without a match, or an impossible date or hour. */
  function ParseKoreanDateTime(value: string): (r: Option<DateTime>)
    ensures r.Some? ==> ValidDateTime(r.value) && r.value.second == 0
    ensures value == "" ==> r.None?
  {
    if value == "" then None
    else
      match Search(Strip(value), 0)
      case None => None
      case Some(s) => if ValidDateTime(StampTime(s)) then Some(StampTime(s)) else None
  }

  /** How Naver prints a timestamp: zero-padded date, 12-hour clock hour without padding, two-digit minutes. */
  function FormatKorean(dt: DateTime): string
    requires ValidDateTime(dt)
  {
    PadDigits(dt.year, 4) + "." + PadDigits(dt.month, 2) + "." + PadDigits(dt.day, 2) + ". "
    + (if dt.hour < 12 then AmMarker else PmMarker) + " "
    + NatToString(Hour12(dt.hour)) + ":" + PadDigits(dt.minute, 2)
  }

  function Hour12(h: nat): (r: nat)
    ensures 1 <= r <= 12
  {
    if h % 12 == 0 then 12 else h % 12
  }
}

module KoreanTimeFacts {
  import opened Strings
  import opened KoreanTime

  /**
   * The hour correction: 오후 with an hour other than 12 adds 12, 오전 12
   * becomes 0, every other hour is kept; the result exists exactly when
   * the pattern matches and the corrected timestamp is a valid one.
   * This only unfolds the parser's definition into its cases; what the
   * correction achieves is stated by `To24HourInverse` and
   * `FormatRoundTrip`.
   */
  lemma HourCorrection(value: string)
    requires value != ""
    ensures var m := Search(Strip(value), 0);
      && (ParseKoreanDateTime(value).Some? <==> m.Some? && ValidDateTime(StampTime(m.value)))
      && (ParseKoreanDateTime(value).Some? ==> m.Some? && ParseKoreanDateTime(value).value == StampTime(m.value))
    ensures forall s: Stamp ::
      && (s.meridiem == Pm && s.hour != 12 ==> StampTime(s).hour == s.hour + 12)
      && (s.meridiem == Am && s.hour == 12 ==> StampTime(s).hour == 0)
      && (!(s.meridiem == Pm && s.hour != 12) && !(s.meridiem == Am && s.hour == 12) ==> StampTime(s).hour == s.hour)
  {
  }

  /** An hour beyond the 12-hour clock after 오후 (such as `오후 13:00`) yields no timestamp. */
  lemma PmOverflowRejected(value: string)
    requires value != "" && Search(Strip(value), 0).Some?
    requires Search(Strip(value), 0).value.meridiem == Pm && Search(Strip(value), 0).value.hour >= 12
    requires Search(Strip(value), 0).value.hour != 12
    ensures ParseKoreanDateTime(value).None?
  {
  }

  lemma To24HourInverse(h: nat)
    requires h <= 23
    ensures To24Hour(if h < 12 then Am else Pm, Hour12(h)) == h
  {
  }

  /** A string laid out as `y4.m2.d2. ap hs:mm` is matched at index 0 with those groups. */
  lemma {:induction false} MatchLayout(t: string, y4: string, m2: string, d2: string, ap: string, hs: string, mm: string)
    requires |y4| == 4 && |m2| == 2 && |d2| == 2 && |mm| == 2 && (ap == AmMarker || ap == PmMarker)
    requires AllDigits(y4) && AllDigits(m2) && AllDigits(d2) && AllDigits(mm) && 1 <= |hs| <= 2 && AllDigits(hs)
    requires |t| == 18 + |hs|
    requires t[..4] == y4 && t[4] == '.' && t[5..7] == m2 && t[7] == '.' && t[8..10] == d2 && t[10] == '.'
    requires t[11] == ' ' && t[12..14] == ap && t[14] == ' ' && t[15..15 + |hs|] == hs
    requires t[15 + |hs|] == ':' && t[16 + |hs|..] == mm
    ensures MatchAt(t, 0) == Some(Stamp(DigitsValue(y4), DigitsValue(m2), DigitsValue(d2),
                                        if ap == AmMarker then Am else Pm, DigitsValue(hs), DigitsValue(mm)))
  {
    assert t[0..4] == y4;
    NoSpaceRun(t, 12);
    assert SpaceRun(t, 11) == 1;
    NoSpaceRun(t, 15);
    assert SpaceRun(t, 14) == 1;
    DigitRunOf(t, 15, hs);
    assert t[16 + |hs|..18 + |hs|] == mm;
  }

  /** The printed form of a timestamp has the layout `MatchLayout` expects. */
  lemma FormatLayout(dt: DateTime)
    requires ValidDateTime(dt)
    ensures var t, hs := FormatKorean(dt), NatToString(Hour12(dt.hour));
      && |t| == 18 + |hs|
      && t[..4] == PadDigits(dt.year, 4) && t[4] == '.' && t[5..7] == PadDigits(dt.month, 2) && t[7] == '.'
      && t[8..10] == PadDigits(dt.day, 2) && t[10] == '.' && t[11] == ' '
      && t[12..14] == (if dt.hour < 12 then AmMarker else PmMarker) && t[14] == ' '
      && t[15..15 + |hs|] == hs && t[15 + |hs|] == ':' && t[16 + |hs|..] == PadDigits(dt.minute, 2)
  {
    PrintedLayout(PadDigits(dt.year, 4), PadDigits(dt.month, 2), PadDigits(dt.day, 2),
                  if dt.hour < 12 then AmMarker else PmMarker,
                  NatToString(Hour12(dt.hour)), PadDigits(dt.minute, 2));
  }

  /** The layout of the printed form, over its six fields. */
  lemma PrintedLayout(y4: string, m2: string, d2: string, ap: string, hs: string, mm: string)
    requires |y4| == 4 && |m2| == 2 && |d2| == 2 && |ap| == 2 && |mm| == 2
    ensures var t := y4 + "." + m2 + "." + d2 + ". " + ap + " " + hs + ":" + mm;
      && |t| == 18 + |hs|
      && t[..4] == y4 && t[4] == '.' && t[5..7] == m2 && t[7] == '.'
      && t[8..10] == d2 && t[10] == '.' && t[11] == ' '
      && t[12..14] == ap && t[14] == ' '
      && t[15..15 + |hs|] == hs && t[15 + |hs|] == ':' && t[16 + |hs|..] == mm
  {
    var head := y4 + "." + m2 + "." + d2 + ". ";
    var tail := ap + " " + hs + ":" + mm;
    HeadLayout(y4, m2, d2);
    TailLayout(ap, hs, mm);
    var t := y4 + "." + m2 + "." + d2 + ". " + ap + " " + hs + ":" + mm;
    assert t == head + tail;
    SliceLeft(head, tail, 0, 4);
    SliceLeft(head, tail, 5, 7);
    SliceLeft(head, tail, 8, 10);
    SliceRight(head, tail, 0, 2);
    SliceRight(head, tail, 3, 3 + |hs|);
    SliceRight(head, tail, 4 + |hs|, |tail|);
  }

  lemma HeadLayout(y4: string, m2: string, d2: string)
    requires |y4| == 4 && |m2| == 2 && |d2| == 2
    ensures var head := y4 + "." + m2 + "." + d2 + ". ";
      && |head| == 12 && head[..4] == y4 && head[4] == '.' && head[5..7] == m2 && head[7] == '.'
      && head[8..10] == d2 && head[10] == '.' && head[11] == ' '
  {
  }

  lemma TailLayout(ap: string, hs: string, mm: string)
    requires |ap| == 2 && |mm| == 2
    ensures var tail := ap + " " + hs + ":" + mm;
      && |tail| == 6 + |hs| && tail[..2] == ap && tail[2] == ' ' && tail[3..3 + |hs|] == hs
      && tail[3 + |hs|] == ':' && tail[4 + |hs|..] == mm
  {
  }

  lemma SliceLeft(a: string, b: string, i: nat, j: nat)
    requires i <= j <= |a|
    ensures (a + b)[i..j] == a[i..j]
  {
  }

  lemma SliceRight(a: string, b: string, i: nat, j: nat)
    requires i <= j <= |b|
    ensures (a + b)[|a| + i..|a| + j] == b[i..j]
  {
  }

  /** The printed form starts and ends with a digit, so `strip()` leaves it alone. */
  lemma FormatIsStripped(dt: DateTime)
    requires ValidDateTime(dt)
    ensures Strip(FormatKorean(dt)) == FormatKorean(dt)
  {
    FormatLayout(dt);
    DigitEndsStripped(FormatKorean(dt), PadDigits(dt.year, 4), PadDigits(dt.minute, 2),
                      16 + |NatToString(Hour12(dt.hour))|);
  }

  /** A string that starts with a 4-digit field and ends with a 2-digit field is its own strip. */
  lemma DigitEndsStripped(t: string, y4: string, mm: string, n: nat)
    requires |y4| == 4 && AllDigits(y4) && |mm| == 2 && AllDigits(mm)
    requires 4 <= n && |t| == n + 2 && t[..4] == y4 && t[n..] == mm
    ensures Strip(t) == t
  {
    assert t[0] == y4[0];
    assert t[|t| - 1] == mm[1];
  }

  /**
   * Round trip: every valid timestamp with zero seconds, printed the way
   * Naver prints it, is read back unchanged.
   */
  lemma FormatRoundTrip(dt: DateTime)
    requires ValidDateTime(dt) && dt.second == 0
    ensures ParseKoreanDateTime(FormatKorean(dt)) == Some(dt)
  {
    FormatMatches(dt);
    FormatIsStripped(dt);
    To24HourInverse(dt.hour);
    FormatLayout(dt);
    ParseOfMatch(FormatKorean(dt), StampOf(dt));
  }

  /** The groups Naver's printed form of `dt` carries. */
  function StampOf(dt: DateTime): Stamp
    requires ValidDateTime(dt)
  {
    Stamp(dt.year, dt.month, dt.day, if dt.hour < 12 then Am else Pm, Hour12(dt.hour), dt.minute)
  }

  lemma FormatMatches(dt: DateTime)
    requires ValidDateTime(dt)
    ensures MatchAt(FormatKorean(dt), 0) == Some(StampOf(dt))
  {
    FormatLayout(dt);
    MatchLayout(FormatKorean(dt), PadDigits(dt.year, 4), PadDigits(dt.month, 2), PadDigits(dt.day, 2),
                if dt.hour < 12 then AmMarker else PmMarker, NatToString(Hour12(dt.hour)), PadDigits(dt.minute, 2));
  }

  lemma ParseOfMatch(t: string, st: Stamp)
    requires t != "" && Strip(t) == t && MatchAt(t, 0) == Some(st) && ValidDateTime(StampTime(st))
    ensures ParseKoreanDateTime(t) == Some(StampTime(st))
  {
  }
}
