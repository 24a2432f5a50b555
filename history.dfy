/** The recently-played page: the relative "played at" label of each row and
    the play button that turns a stored row back into a track.  The clock
    reading and the parsed `played_at` time are parameters (milliseconds
    since the epoch); the locale date text is supplied by the caller. */
module History {
  import opened Wrappers
  import opened Text
  import opened Catalog
  import opened PlayerEngine

  const MillisPerHour: int := 1000 * 60 * 60

  /** `Math.floor((now - date) / (1000 * 60 * 60))`: whole hours elapsed,
      rounded down (negative for a time in the future). */
  function HoursSince(nowMs: int, playedMs: int): (h: int)
    ensures h * MillisPerHour <= nowMs - playedMs < (h + 1) * MillisPerHour
  {
    (nowMs - playedMs) / MillisPerHour
  }

  /** The four kinds of label. `Older` stands for the locale date text. */
  datatype PlayedLabel = JustNow | HoursAgo(hours: int) | DaysAgo(days: int) | Older

  /** The if-chain of `formatDate` on the hour count. */
  function Classify(hours: int): (l: PlayedLabel)
    ensures l == JustNow <==> hours < 1
    ensures l.HoursAgo? <==> 1 <= hours < 24
    ensures l.HoursAgo? ==> l.hours == hours
    ensures l.DaysAgo? <==> 24 <= hours < 168
    ensures l.DaysAgo? ==> 1 <= l.days <= 6 && l.days * 24 <= hours < (l.days + 1) * 24
    ensures l == Older <==> hours >= 168
  {
    if hours < 1 then JustNow
    else if hours < 24 then HoursAgo(hours)
    else if hours < 168 then DaysAgo(hours / 24)
    else Older
  }

  /** The text of a label: "Just now", "{h}h ago", "{d}d ago", or the
      locale's date text. */
  function LabelText(l: PlayedLabel, localeDate: string): (t: string)
    ensures l == JustNow ==> t == "Just now"
    ensures l == Older ==> t == localeDate
    ensures l.HoursAgo? && l.hours >= 0 ==> ReadLabel(t) == Some(l)
    ensures l.DaysAgo? && l.days >= 0 ==> ReadLabel(t) == Some(l)
  {
    match l
    case JustNow => "Just now"
    case HoursAgo(h) =>
      var t := IntToDecimal(h) + "h ago";
      if h >= 0 then CountedTextReadsBack(h, "h ago"); t else t
    case DaysAgo(d) =>
      var t := IntToDecimal(d) + "d ago";
      if d >= 0 then CountedTextReadsBack(d, "d ago"); t else t
    case Older => localeDate
  }

  /** `formatDate(played_at)` read at clock time `nowMs`. */
  function FormatDate(nowMs: int, playedMs: int, localeDate: string): (t: string)
    ensures nowMs - playedMs < MillisPerHour ==> t == "Just now"
    ensures nowMs - playedMs >= 168 * MillisPerHour ==> t == localeDate
    ensures MillisPerHour <= nowMs - playedMs < 24 * MillisPerHour ==>
      ReadLabel(t) == Some(HoursAgo(HoursSince(nowMs, playedMs)))
    ensures 24 * MillisPerHour <= nowMs - playedMs < 168 * MillisPerHour ==>
      ReadLabel(t) == Some(DaysAgo(HoursSince(nowMs, playedMs) / 24))
  {
    var h := HoursSince(nowMs, playedMs);
    HoursSinceBands(nowMs, playedMs);
    LabelText(Classify(h), localeDate)
  }

  /** The hour count crosses 1, 24 and 168 exactly where the elapsed time
      crosses that many hours. */
  lemma HoursSinceBands(nowMs: int, playedMs: int)
    ensures HoursSince(nowMs, playedMs) < 1 <==> nowMs - playedMs < MillisPerHour
    ensures HoursSince(nowMs, playedMs) < 24 <==> nowMs - playedMs < 24 * MillisPerHour
    ensures HoursSince(nowMs, playedMs) < 168 <==> nowMs - playedMs < 168 * MillisPerHour
  {
  }

  /** How old a label says a play is, 0 for the newest kind. */
  function Age(l: PlayedLabel): int {
    match l
    case JustNow => 0
    case HoursAgo(h) => h
    case DaysAgo(d) => 24 * d
    case Older => 168
  }

  /** A play that happened earlier never gets a label that reads newer. */
  lemma EarlierPlayReadsOlder(nowMs: int, earlier: int, later: int)
    requires earlier <= later
    ensures Age(Classify(HoursSince(nowMs, later))) <= Age(Classify(HoursSince(nowMs, earlier)))
  {
    var h1, h2 := HoursSince(nowMs, later), HoursSince(nowMs, earlier);
    assert h1 <= h2 by {
      assert h1 * MillisPerHour <= nowMs - later <= nowMs - earlier < (h2 + 1) * MillisPerHour;
    }
    if 24 <= h1 < 168 {
      assert 24 * (h1 / 24) <= h1;
    }
    if 24 <= h2 < 168 && 24 <= h1 {
      assert h1 / 24 <= h2 / 24;
    }
  }

  /** Reads a label back from its text; the locale date text is not read. */
  function ReadLabel(text: string): Option<PlayedLabel> {
    if text == "Just now" then Some(JustNow)
    else if |text| > 5 && AllDigits(text[..|text| - 5]) then
      var count, suffix := DigitsValue(text[..|text| - 5]), text[|text| - 5..];
      if suffix == "h ago" then Some(HoursAgo(count))
      else if suffix == "d ago" then Some(DaysAgo(count))
      else None
    else None
  }

  lemma CountedTextReadsBack(n: nat, suffix: string)
    requires suffix == "h ago" || suffix == "d ago"
    ensures var text := NatToDecimal(n) + suffix;
      text != "Just now" && |text| > 5 &&
      text[..|text| - 5] == NatToDecimal(n) && text[|text| - 5..] == suffix &&
      DigitsValue(text[..|text| - 5]) == n
  {
    var d := NatToDecimal(n);
    var text := d + suffix;
    assert text[0] == d[0] && IsDigit(d[0]);
    assert "Just now"[0] == 'J';
    assert text[..|text| - 5] == d;
    assert text[|text| - 5..] == suffix;
    DecimalRoundTrip(n);
  }

  /** Below a week the label text reads back as its label, so the text
      tells both the bucket and the count: two elapsed times get the same
      text only if they get the same label. */
  lemma LabelRoundTrip(hours: int, localeDate: string)
    requires hours < 168
    ensures ReadLabel(LabelText(Classify(hours), localeDate)) == Some(Classify(hours))
  {
    match Classify(hours) {
      case JustNow =>
      case HoursAgo(h) => CountedTextReadsBack(h, "h ago");
      case DaysAgo(d) => CountedTextReadsBack(d, "d ago");
    }
  }

  /** One row of the play-history table. */
  datatype HistoryRow = HistoryRow(rowId: string, columns: TrackColumns, playedAt: string)

  /** `handlePlay(row)`: play the track stored in the row; the track's fields
      are exactly the row's `track_*` columns. */
  function HandlePlay(s: PlayerState, row: HistoryRow): (r: PlayerState)
    ensures s.audio.Some? ==> r.currentTrack.Some? && ColumnsOf(r.currentTrack.value) == row.columns
    ensures s.audio.Some? ==> r.audio.Some? && r.audio.value.src == row.columns.track_preview
    ensures r.queue == s.queue
  {
    Play(s, TrackOf(row.columns))
  }
}
