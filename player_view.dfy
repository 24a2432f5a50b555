/** The player bar: what it shows for the engine's state, and the
    minutes-and-seconds clock text used for the elapsed and total times. */
module PlayerView {
  import opened Wrappers
  import opened Text
  import opened Catalog
  import opened PlayerEngine

  /** `Math.trunc`: rounds toward zero. */
  function Trunc(x: real): int {
    if x >= 0.0 then x.Floor else -((-x).Floor)
  }

  /** JavaScript's `x % m` on numbers: the remainder takes the sign of `x`. */
  function JsRem(x: real, m: real): real
    requires m != 0.0
  {
    x - m * Trunc(x / m) as real
  }

  /** For a positive modulus the remainder of a non-negative `x` lies in
      [0, m). */
  lemma JsRemOfNonNegative(x: real, m: real)
    requires m > 0.0 && x >= 0.0
    ensures 0.0 <= JsRem(x, m) < m
  {
    var q := x / m;
    assert q * m == x;
    var d := q - Trunc(q) as real;
    assert JsRem(x, m) == m * d;
    assert q >= 0.0 && 0.0 <= d < 1.0;
    assert m - m * d == m * (1.0 - d);
    assert m * (1.0 - d) > 0.0;
  }

  /** For a positive modulus the remainder of a non-positive `x` lies in
      (-m, 0]. */
  lemma JsRemOfNonPositive(x: real, m: real)
    requires m > 0.0 && x <= 0.0
    ensures -m < JsRem(x, m) <= 0.0
  {
    var q := x / m;
    assert q * m == x;
    var e := Trunc(q) as real - q;
    assert JsRem(x, m) == -(m * e);
    assert q <= 0.0 && 0.0 <= e < 1.0;
    assert m - m * e == m * (1.0 - e);
    assert m * (1.0 - e) > 0.0;
  }

  /** `Math.floor(time / 60)`: whole minutes, rounded down. */
  function Minutes(time: real): (r: int)
    ensures 60.0 * r as real <= time < 60.0 * (r + 1) as real
  {
    (time / 60.0).Floor
  }

  /** `Math.floor(time % 60)`: the seconds left over, 0 to 59 for a time
      that is not negative, -60 to 0 for a negative one. */
  function Seconds(time: real): (r: int)
    ensures time >= 0.0 ==> 0 <= r <= 59
    ensures time <= 0.0 ==> -60 <= r <= 0
  {
    var rem := JsRem(time, 60.0);
    if time >= 0.0 then JsRemOfNonNegative(time, 60.0); rem.Floor
    else JsRemOfNonPositive(time, 60.0); rem.Floor
  }

  /** `formatTime(time)`: minutes, a colon, and the seconds left-padded with
      '0' to two characters. */
  function FormatTime(time: real): (r: string)
    ensures var m := IntToDecimal(Minutes(time));
      |r| >= |m| + 3 && r[..|m|] == m && r[|m|] == ':'
  {
    var m := IntToDecimal(Minutes(time));
    var sec := PadStart(IntToDecimal(Seconds(time)), 2, '0');
    assert (m + ":" + sec)[..|m|] == m;
    m + ":" + sec
  }

  /** For a non-negative time the clock shows whole minutes and the whole
      seconds left over, 0 to 59, which together account for the time up to
      the dropped fraction of a second. */
  lemma ClockFields(time: real)
    requires time >= 0.0
    ensures Minutes(time) >= 0
    ensures 0 <= Seconds(time) <= 59
    ensures (Minutes(time) * 60 + Seconds(time)) as real <= time < (Minutes(time) * 60 + Seconds(time) + 1) as real
  {
    var m := Minutes(time);
    assert Trunc(time / 60.0) == m;
    var rem := time - 60.0 * m as real;
    assert JsRem(time, 60.0) == rem;
    assert m as real <= time / 60.0 < m as real + 1.0;
    assert 60.0 * m as real <= time < 60.0 * m as real + 60.0;
    assert 0.0 <= rem < 60.0;
  }

  /** For a whole number of seconds, minutes * 60 + seconds gives it back. */
  lemma WholeSeconds(n: nat)
    ensures Minutes(n as real) * 60 + Seconds(n as real) == n
  {
    ClockFields(n as real);
  }

  /** The two characters of a seconds field 0..59. */
  function TwoDigits(sec: nat): (r: string)
    requires sec < 60
    ensures |r| == 2 && AllDigits(r) && DigitsValue(r) == sec
  {
    var r := [DigitChar(sec / 10), DigitChar(sec % 10)];
    DigitRoundTrip(sec / 10);
    DigitRoundTrip(sec % 10);
    assert r[..1] == [DigitChar(sec / 10)];
    assert r[..1][..0] == [];
    assert DigitsValue(r[..1]) == sec / 10;
    assert DigitsValue(r) == DigitsValue(r[..1]) * 10 + DigitValue(r[1]);
    r
  }

  /** The padded seconds field is the two-digit form of the seconds. */
  lemma PaddedSeconds(sec: nat)
    requires sec < 60
    ensures PadStart(IntToDecimal(sec), 2, '0') == TwoDigits(sec)
  {
    var d := NatToDecimal(sec);
    if sec < 10 {
      assert d == [DigitChar(sec)];
    } else {
      assert sec / 10 < 10;
      assert NatToDecimal(sec / 10) == [DigitChar(sec / 10)];
      assert d == [DigitChar(sec / 10), DigitChar(sec % 10)];
    }
  }

  /** For a non-negative time the text has the shape M:SS: the decimal
      minutes, a colon, and exactly two digits of seconds. */
  lemma ClockShape(time: real)
    requires time >= 0.0
    ensures Minutes(time) >= 0 && 0 <= Seconds(time) <= 59
    ensures FormatTime(time) == NatToDecimal(Minutes(time)) + ":" + TwoDigits(Seconds(time))
  {
    ClockFields(time);
    var m, sec := Minutes(time), Seconds(time);
    PaddedSeconds(sec);
    assert IntToDecimal(m) == NatToDecimal(m);
    assert FormatTime(time) == IntToDecimal(m) + ":" + PadStart(IntToDecimal(sec), 2, '0');
  }

  /** Reads clock text back: decimal minutes, a colon, two digits. */
  function ParseClock(text: string): Option<(nat, nat)> {
    match FindFirst(text, ":")
    case None => None
    case Some(k) =>
      var left, right := text[..k], text[k + 1..];
      if |left| > 0 && AllDigits(left) && |right| == 2 && AllDigits(right)
      then Some((DigitsValue(left), DigitsValue(right)))
      else None
  }

  lemma NoColonInDigits(digits: string, rest: string)
    requires AllDigits(digits)
    ensures forall j :: 0 <= j < |digits| ==> !OccursAt(digits + rest, ":", j)
  {
    forall j | 0 <= j < |digits| ensures !OccursAt(digits + rest, ":", j) {
      assert (digits + rest)[j..j + 1][0] == digits[j];
    }
  }

  /** Clock text built from minutes and seconds reads back as them. */
  lemma ClockTextRoundTrip(m: nat, sec: nat)
    requires sec < 60
    ensures ParseClock(NatToDecimal(m) + ":" + TwoDigits(sec)) == Some((m, sec))
  {
    var left, right := NatToDecimal(m), TwoDigits(sec);
    var text := left + ":" + right;
    NoColonInDigits(left, ":" + right);
    assert text == left + (":" + right);
    assert OccursAt(text, ":", |left|);
    assert FindFirst(text, ":") == Some(|left|);
    assert text[..|left|] == left;
    assert text[|left| + 1..] == right;
    DecimalRoundTrip(m);
  }

  /** The clock text of a non-negative time reads back as exactly its
      minutes and seconds. */
  lemma ClockRoundTrip(time: real)
    requires time >= 0.0
    ensures ParseClock(FormatTime(time)) == Some((Minutes(time) as nat, Seconds(time) as nat))
  {
    ClockShape(time);
    ClockTextRoundTrip(Minutes(time), Seconds(time));
  }

  datatype PlayIcon = PauseIcon | PlayIcon
  datatype VolumeIcon = Muted | Audible

  /** What the player bar shows. */
  datatype PlayerBar = PlayerBar(
    cover: string,
    title: string,
    artist: string,
    playIcon: PlayIcon,
    elapsed: string,
    total: string,
    volumeIcon: VolumeIcon)

  /** The player bar for a state: nothing at all without a current track;
      otherwise the track's cover, title and artist, a pause button while
      playing, the two clocks, and the muted icon exactly at volume 0. */
  function Render(s: PlayerState): (r: Option<PlayerBar>)
    ensures r.None? <==> s.currentTrack.None?
    ensures r.Some? ==> r.value.title == s.currentTrack.value.title && r.value.cover == s.currentTrack.value.cover
    ensures r.Some? ==> r.value.artist == s.currentTrack.value.artist
    ensures r.Some? ==> (r.value.volumeIcon == Muted <==> s.volume == 0.0)
    ensures r.Some? ==> (r.value.playIcon == PauseIcon <==> s.isPlaying)
    ensures r.Some? ==> r.value.elapsed == FormatTime(s.currentTime) && r.value.total == FormatTime(s.duration)
  {
    match s.currentTrack
    case None => None
    case Some(t) =>
      Some(PlayerBar(
        t.cover, t.title, t.artist,
        if s.isPlaying then PauseIcon else PlayIcon,
        FormatTime(s.currentTime), FormatTime(s.duration),
        if s.volume == 0.0 then Muted else Audible))
  }
}
