/** Hover-scrub thumbnails (videoProcessing.service.js): the WebVTT
    timestamp formatter and the arithmetic of generateSpriteSheetAndVtt, which
    tiles `count` thumbnails into a near-square sprite sheet and writes one
    cue per thumbnail. Running ffmpeg and writing the files are not part of
    the model; the video's duration is a parameter. */
module SpriteVtt {

  // ---------------------------------------------------------------------------
  // Decimal text
  // ---------------------------------------------------------------------------

  predicate IsDigit(c: char)
  {
    '0' <= c <= '9'
  }

  predicate AllDigits(s: string)
  {
    forall k :: 0 <= k < |s| ==> IsDigit(s[k])
  }

  function DigitChar(d: int): (c: char)
    requires 0 <= d <= 9
    ensures IsDigit(c)
  {
    ('0' as int + d) as char
  }

  /** The number a string of decimal digits denotes. */
  function Value(s: string): nat
    requires AllDigits(s)
  {
    if s == [] then 0 else Value(s[..|s| - 1]) * 10 + (s[|s| - 1] as int - '0' as int)
  }

  /** String(n) for a whole number n >= 0. */
  function Digits(n: nat): (r: string)
    ensures |r| >= 1 && AllDigits(r)
  {
    if n < 10 then [DigitChar(n)] else Digits(n / 10) + [DigitChar(n % 10)]
  }

  function Zeros(k: nat): (r: string)
    ensures |r| == k && AllDigits(r)
  {
    if k == 0 then [] else Zeros(k - 1) + ['0']
  }

  /** String(n).padStart(width, '0'). */
  function Pad(n: nat, width: nat): (r: string)
    ensures AllDigits(r)
  {
    var d := Digits(n);
    if |d| < width then Zeros(width - |d|) + d else d
  }

  function Pow10(k: nat): nat
  {
    if k == 0 then 1 else 10 * Pow10(k - 1)
  }

  /** Digits denotes the number it writes. */
  lemma {:induction false} DigitsValue(n: nat)
    ensures Value(Digits(n)) == n
  {
    if n >= 10 {
      DigitsValue(n / 10);
      var d := Digits(n);
      assert d[..|d| - 1] == Digits(n / 10);
    }
  }

  /** Leading zeros do not change the value. */
  lemma {:induction false} ZerosValue(k: nat, s: string)
    requires AllDigits(s)
    ensures Value(Zeros(k) + s) == Value(s)
    decreases |s|, k
  {
    if s == [] {
      assert Zeros(k) + s == Zeros(k);
      if k > 0 {
        ZerosValue(k - 1, []);
        assert Zeros(k - 1) + [] == Zeros(k - 1);
      }
    } else {
      var t := Zeros(k) + s;
      assert t[..|t| - 1] == Zeros(k) + s[..|s| - 1];
      ZerosValue(k, s[..|s| - 1]);
    }
  }

  /** A number below 10^w takes at most w digits. */
  lemma {:induction false} DigitsLength(n: nat, w: nat)
    requires w >= 1 && n < Pow10(w)
    ensures |Digits(n)| <= w
  {
    if n >= 10 {
      assert w >= 2;
      DigitsLength(n / 10, w - 1);
    }
  }

  /** Padding keeps the value and fills the width exactly for a number that
      fits in it. */
  lemma PadFacts(n: nat, width: nat)
    ensures Value(Pad(n, width)) == n && |Pad(n, width)| >= width
    ensures width >= 1 && n < Pow10(width) ==> |Pad(n, width)| == width
  {
    DigitsValue(n);
    var d := Digits(n);
    if |d| < width {
      ZerosValue(width - |d|, d);
    }
    if width >= 1 && n < Pow10(width) {
      DigitsLength(n, width);
    }
  }

  // ---------------------------------------------------------------------------
  // WebVTT timestamps (formatVttTimestamp)
  // ---------------------------------------------------------------------------

  /** Math.round: the nearest whole number, halves rounded up. */
  function Round(x: real): int
  {
    (x + 0.5).Floor
  }

  /** Whole milliseconds of a time in seconds; negative times count as 0. */
  function TotalMs(seconds: real): (ms: nat)
    ensures seconds <= 0.0 ==> ms == 0
  {
    var r := Round(seconds * 1000.0);
    if r < 0 then 0 else r
  }

  /** Hours, minutes, seconds and milliseconds of t milliseconds. */
  datatype Clock = Clock(h: nat, m: nat, s: nat, ms: nat)

  function ClockOf(t: nat): (c: Clock)
    ensures c.ms < 1000 && c.s < 60 && c.m < 60
    ensures ((c.h * 60 + c.m) * 60 + c.s) * 1000 + c.ms == t
  {
    var totalSeconds := t / 1000;
    var totalMinutes := totalSeconds / 60;
    Clock(totalMinutes / 60, totalMinutes % 60, totalSeconds % 60, t % 1000)
  }

  /** formatVttTimestamp: HH:MM:SS.mmm, with hours widened past two digits
      when needed. */
  function FormatVttTimestamp(seconds: real): string
  {
    var c := ClockOf(TotalMs(seconds));
    Pad(c.h, 2) + ":" + Pad(c.m, 2) + ":" + Pad(c.s, 2) + "." + Pad(c.ms, 3)
  }

  /** A WebVTT timestamp with hours (W3C WebVTT, section 4.1): two or more
      hour digits, then ":" and two minute digits below 60, ":" and two second
      digits below 60, "." and three digits of milliseconds. */
  predicate IsWebVttTimestamp(s: string)
  {
    var n := |s|;
    && n >= 12
    && AllDigits(s[..n - 10]) && s[n - 10] == ':'
    && AllDigits(s[n - 9..n - 7]) && Value(s[n - 9..n - 7]) < 60 && s[n - 7] == ':'
    && AllDigits(s[n - 6..n - 4]) && Value(s[n - 6..n - 4]) < 60 && s[n - 4] == '.'
    && AllDigits(s[n - 3..])
  }

  /** The milliseconds a WebVTT timestamp with hours denotes. */
  function TimestampMs(s: string): nat
    requires IsWebVttTimestamp(s)
  {
    var n := |s|;
    Milliseconds(Value(s[..n - 10]), Value(s[n - 9..n - 7]), Value(s[n - 6..n - 4]), Value(s[n - 3..]))
  }

  function Milliseconds(h: nat, m: nat, s: nat, ms: nat): nat
  {
    ((h * 60 + m) * 60 + s) * 1000 + ms
  }

  /** The formatter writes a WebVTT timestamp, and reading it back gives the
      rounded time in milliseconds. */
  lemma FormatRoundTrip(seconds: real)
    ensures IsWebVttTimestamp(FormatVttTimestamp(seconds))
    ensures TimestampMs(FormatVttTimestamp(seconds)) == TotalMs(seconds)
  {
    var c := ClockOf(TotalMs(seconds));
    assert Pow10(2) == 100 && Pow10(3) == 1000;
    PadFacts(c.h, 2);
    PadFacts(c.m, 2);
    PadFacts(c.s, 2);
    PadFacts(c.ms, 3);
    Assemble(Pad(c.h, 2), Pad(c.m, 2), Pad(c.s, 2), Pad(c.ms, 3));
    assert Milliseconds(c.h, c.m, c.s, c.ms) == TotalMs(seconds);
  }

  /** Joining the four fields with their separators gives a timestamp whose
      fields read back as written. */
  lemma Assemble(hh: string, mm: string, ss: string, mmm: string)
    requires AllDigits(hh) && AllDigits(mm) && AllDigits(ss) && AllDigits(mmm)
    requires |hh| >= 2 && |mm| == 2 && |ss| == 2 && |mmm| == 3
    requires Value(mm) < 60 && Value(ss) < 60
    ensures var r := hh + ":" + mm + ":" + ss + "." + mmm;
            && IsWebVttTimestamp(r)
            && TimestampMs(r) == Milliseconds(Value(hh), Value(mm), Value(ss), Value(mmm))
  {
    var r := hh + ":" + mm + ":" + ss + "." + mmm;
    Regroup(hh, mm, ss, mmm);
    TailFields(mm, ss, mmm);
    var tail := ":" + mm + ":" + ss + "." + mmm;
    HeadAndTail(hh, tail);
    ReadFields(r, hh, mm, ss, mmm);
  }

  /** A text laid out as hh:mm:ss.mmm reads back as its fields. */
  lemma ReadFields(r: string, hh: string, mm: string, ss: string, mmm: string)
    requires AllDigits(hh) && AllDigits(mm) && AllDigits(ss) && AllDigits(mmm)
    requires |hh| >= 2 && Value(mm) < 60 && Value(ss) < 60 && |r| == |hh| + 10
    requires var n := |r|;
             && r[..n - 10] == hh && r[n - 9..n - 7] == mm && r[n - 6..n - 4] == ss && r[n - 3..] == mmm
             && r[n - 10] == ':' && r[n - 7] == ':' && r[n - 4] == '.'
    ensures IsWebVttTimestamp(r)
    ensures TimestampMs(r) == Milliseconds(Value(hh), Value(mm), Value(ss), Value(mmm))
  {
  }

  /** The slices of hh + tail that hold the head and the tail's fields. */
  lemma HeadAndTail(hh: string, tail: string)
    requires |tail| == 10
    ensures var r := hh + tail; var n := |r|;
            && r[..n - 10] == hh && r[n - 10] == tail[0] && r[n - 7] == tail[3] && r[n - 4] == tail[6]
            && r[n - 9..n - 7] == tail[1..3] && r[n - 6..n - 4] == tail[4..6] && r[n - 3..] == tail[7..]
  {
    var r := hh + tail;
    assert r[|hh|..] == tail;
  }

  lemma Regroup(hh: string, mm: string, ss: string, mmm: string)
    ensures hh + ":" + mm + ":" + ss + "." + mmm == hh + (":" + mm + ":" + ss + "." + mmm)
  {
  }

  lemma TailFields(mm: string, ss: string, mmm: string)
    requires |mm| == 2 && |ss| == 2 && |mmm| == 3
    ensures var tail := ":" + mm + ":" + ss + "." + mmm;
            && |tail| == 10
            && tail[0] == ':' && tail[3] == ':' && tail[6] == '.'
            && tail[1..3] == mm && tail[4..6] == ss && tail[7..] == mmm
  {
    var a := ":" + mm;
    var b := a + ":";
    var c := b + ss;
    var d := c + ".";
    var tail := d + mmm;
    assert tail[7..] == mmm;
    assert tail[..7] == d;
    assert d[..6] == c && c[4..6] == ss && c[..4] == b;
    assert b[..3] == a && a[1..3] == mm;
  }

  /** A time below 100 hours gives exactly HH:MM:SS.mmm. */
  lemma FormatWidth(seconds: real)
    requires TotalMs(seconds) < 100 * 3600000
    ensures |FormatVttTimestamp(seconds)| == 12
  {
    var c := ClockOf(TotalMs(seconds));
    assert Pow10(2) == 100 && Pow10(3) == 1000;
    PadFacts(c.h, 2);
    PadFacts(c.m, 2);
    PadFacts(c.s, 2);
    PadFacts(c.ms, 3);
  }

  // ---------------------------------------------------------------------------
  // Sprite grid and cues (generateSpriteSheetAndVtt)
  // ---------------------------------------------------------------------------

  /** `option || fallback` for a numeric option; 0 stands for a missing one. */
  function OrElse(option: real, fallback: real): real
  {
    if option == 0.0 then fallback else option
  }

  function MaxReal(a: real, b: real): real
  {
    if a < b then b else a
  }

  /** The effective settings: sampling interval in seconds, tile size in
      pixels and the thumbnail budget. */
  datatype Settings = Settings(interval: real, tileWidth: real, tileHeight: real, maxThumbnails: int)

  function SettingsOf(interval: real, tileWidth: real, tileHeight: real, maxThumbnails: int): (s: Settings)
    ensures s.interval >= 1.0 && s.tileWidth >= 16.0 && s.tileHeight >= 16.0 && s.maxThumbnails >= 1
    ensures interval >= 1.0 ==> s.interval == interval
    ensures interval == 0.0 ==> s.interval == 10.0
    ensures maxThumbnails == 0 ==> s.maxThumbnails == 100
  {
    var budget := if maxThumbnails == 0 then 100 else maxThumbnails;
    Settings(MaxReal(1.0, OrElse(interval, 10.0)), MaxReal(16.0, OrElse(tileWidth, 160.0)),
             MaxReal(16.0, OrElse(tileHeight, 90.0)), if budget < 1 then 1 else budget)
  }

  /** Thumbnails to take: one at 0 s and one per full interval after it,
      within the budget and at least one. */
  function ThumbnailCount(duration: real, s: Settings): (count: int)
    requires s.interval >= 1.0 && s.maxThumbnails >= 1
    ensures 1 <= count <= s.maxThumbnails
    ensures duration > 0.0 ==> (count - 1) as real * s.interval <= duration
  {
    var d := MaxReal(0.0, duration);
    var estimated := if d > 0.0 then (d / s.interval).Floor + 1 else 1;
    FloorTimesInterval(d, s.interval);
    var bounded := if s.maxThumbnails < estimated then s.maxThumbnails else estimated;
    if bounded < 1 then 1 else bounded
  }

  lemma FloorTimesInterval(d: real, interval: real)
    requires interval >= 1.0
    ensures d > 0.0 ==> (d / interval).Floor >= 0
    ensures d > 0.0 ==> (d / interval).Floor as real * interval <= d
  {
    if d > 0.0 {
      var q := d / interval;
      assert q * interval == d;
      assert q.Floor as real <= q;
      assert q > 0.0;
    }
  }

  /** Math.ceil(Math.sqrt(c)) for a whole c >= 1: the least r with r * r >= c. */
  function CeilSqrt(c: int): (r: int)
    requires c >= 1
    ensures r >= 1 && (r - 1) * (r - 1) < c <= r * r
  {
    CeilSqrtFrom(c, 1)
  }

  function CeilSqrtFrom(c: int, k: int): (r: int)
    requires c >= 1 && k >= 1 && (k - 1) * (k - 1) < c
    ensures r >= k && (r - 1) * (r - 1) < c <= r * r
    decreases c - k
  {
    if c <= k * k then k
    else
      assert k <= k * k;
      CeilSqrtFrom(c, k + 1)
  }

  /** The sheet's layout: columns = ceil(sqrt(count)), rows = ceil(count /
      columns). */
  datatype Grid = Grid(columns: int, rows: int)

  function GridOf(count: int): (g: Grid)
    requires count >= 1
    ensures g.columns >= 1 && g.rows >= 1
  {
    var columns := CeilSqrt(count);
    Grid(columns, (count + columns - 1) / columns)
  }

  /** The grid holds every thumbnail, has no empty row, and is at most as
      tall as it is wide. */
  lemma GridFits(count: int)
    requires count >= 1
    ensures var g := GridOf(count);
            && g.columns * g.rows >= count
            && (g.rows - 1) * g.columns < count
            && g.rows <= g.columns
  {
    var g := GridOf(count);
    CeilingDivision(count, g.columns, g.rows);
    RowsAtMostColumns(count, g.columns, g.rows);
  }

  /** r = (count + c - 1) / c is the least r with r * c >= count. */
  lemma CeilingDivision(count: int, c: int, r: int)
    requires count >= 1 && c >= 1 && r == (count + c - 1) / c
    ensures r * c >= count && (r - 1) * c < count
  {
    var q := count + c - 1;
    assert q == r * c + q % c;
    assert (r - 1) * c == r * c - c;
  }

  /** No empty row and at most c * c cells used leave at most c rows. */
  lemma RowsAtMostColumns(count: int, c: int, r: int)
    requires 1 <= count <= c * c && c >= 1 && (r - 1) * c < count
    ensures r <= c
  {
    if r > c {
      MultiplyAtLeast(r - 1, c, c);
    }
  }

  lemma MultiplyAtLeast(a: int, b: int, c: int)
    requires a >= b >= 0 && c >= 0
    ensures a * c >= b * c
  {
  }

  /** A cue: its time range and the tile it shows. */
  datatype Cue = Cue(start: real, end: real, x: real, y: real)

  /** Cue i: it covers [i * interval, (i + 1) * interval), cut at the end of
      the video, and widened back to a full interval if that leaves it empty;
      its tile is at column i mod columns and row i div columns. */
  function CueAt(i: nat, duration: real, s: Settings, g: Grid): Cue
    requires g.columns >= 1
  {
    var start := i as real * s.interval;
    var full := (i + 1) as real * s.interval;
    var clipped := if duration > 0.0 && duration < full then duration else full;
    var end := if clipped <= start then start + s.interval else clipped;
    Cue(start, end, Offset(i % g.columns, s.tileWidth), Offset(i / g.columns, s.tileHeight))
  }

  /** The pixel offset of tile k along one side of the sheet. */
  function Offset(k: int, w: real): real
  {
    k as real * w
  }

  /** Every cue starts at its thumbnail's time, is non-empty and at most one
      interval long, and ends by the end of the video unless it starts
      there. */
  lemma CueTimes(i: nat, duration: real, s: Settings, g: Grid)
    requires s.interval >= 1.0 && g.columns >= 1
    ensures var cue := CueAt(i, duration, s, g);
            && cue.start == i as real * s.interval
            && cue.start < cue.end <= cue.start + s.interval
            && (duration > 0.0 && cue.start < duration ==> cue.end <= duration)
  {
    NextMultiple(i, s.interval);
  }

  /** Every cue of a grid that holds all `count` thumbnails shows a tile
      that lies inside the sheet. */
  lemma CueTileInSheet(i: nat, count: int, duration: real, s: Settings, g: Grid)
    requires s.tileWidth >= 16.0 && s.tileHeight >= 16.0
    requires g.columns >= 1 && g.columns * g.rows >= count && i < count
    ensures var cue := CueAt(i, duration, s, g);
            && 0.0 <= cue.x && cue.x + s.tileWidth <= g.columns as real * s.tileWidth
            && 0.0 <= cue.y && cue.y + s.tileHeight <= g.rows as real * s.tileHeight
  {
    TileInSheet(i, count, g.columns, g.rows);
    CueTileInRow(i, duration, s, g);
  }

  lemma CueTileInRow(i: nat, duration: real, s: Settings, g: Grid)
    requires s.tileWidth >= 16.0 && s.tileHeight >= 16.0
    requires g.columns >= 1 && i / g.columns < g.rows
    ensures var cue := CueAt(i, duration, s, g);
            && 0.0 <= cue.x && cue.x + s.tileWidth <= g.columns as real * s.tileWidth
            && 0.0 <= cue.y && cue.y + s.tileHeight <= g.rows as real * s.tileHeight
  {
    var col, row := i % g.columns, i / g.columns;
    TileBounds(col, g.columns, s.tileWidth);
    TileBounds(row, g.rows, s.tileHeight);
  }

  /** Tile k of n tiles of length w lies within n * w. */
  lemma TileBounds(k: int, n: int, w: real)
    requires 0 <= k < n && w > 0.0
    ensures 0.0 <= Offset(k, w) && Offset(k, w) + w <= n as real * w
  {
    RealScale(0, k, w);
    RealScale(k + 1, n, w);
  }

  /** Thumbnail i < count sits in a column and a row of the grid. */
  lemma TileInSheet(i: int, count: int, c: int, r: int)
    requires 0 <= i < count && c >= 1 && r * c >= count
    ensures i % c < c && i / c < r
  {
    var row := i / c;
    assert row * c <= i;
  }

  /** a <= b scaled by a positive length keeps its order. */
  lemma RealScale(a: int, b: int, w: real)
    requires a <= b && w > 0.0
    ensures a as real * w <= b as real * w
    ensures (a - 1) as real * w + w == a as real * w
  {
    assert (b - a) as real * w >= 0.0;
  }

  lemma NextMultiple(i: int, interval: real)
    ensures (i + 1) as real * interval == i as real * interval + interval
  {
  }

  /** Cues follow each other without gaps until the end of the video. */
  lemma CuesAreContiguous(i: nat, duration: real, s: Settings, g: Grid)
    requires s.interval >= 1.0 && g.columns >= 1
    requires duration <= 0.0 || (i + 1) as real * s.interval <= duration
    ensures CueAt(i, duration, s, g).end == CueAt(i + 1, duration, s, g).start
  {
    assert (i + 1) as real * s.interval == i as real * s.interval + s.interval;
  }

  /** The cue loop. */
  method BuildCues(count: int, duration: real, s: Settings, g: Grid) returns (cues: seq<Cue>)
    requires g.columns >= 1
    ensures |cues| == if count < 0 then 0 else count
    ensures forall i :: 0 <= i < |cues| ==> cues[i] == CueAt(i, duration, s, g)
  {
    cues := [];
    var i := 0;
    while i < count
      invariant 0 <= i && (count >= 0 ==> i <= count) && (count < 0 ==> i == 0) && |cues| == i
      invariant forall k :: 0 <= k < i ==> cues[k] == CueAt(k, duration, s, g)
    {
      var start := i as real * s.interval;
      var end := (i + 1) as real * s.interval;
      if duration > 0.0 {
        end := if end < duration then end else duration;
      }
      if end <= start {
        end := start + s.interval;
      }
      var col := i % g.columns;
      var row := i / g.columns;
      var cue := Cue(start, end, Offset(col, s.tileWidth), Offset(row, s.tileHeight));
      assert cue == CueAt(i, duration, s, g);
      cues := cues + [cue];
      i := i + 1;
    }
  }

  /** The sprite sheet's description: settings, grid, count and cues. */
  datatype SpriteSheet = SpriteSheet(settings: Settings, grid: Grid, count: int, cues: seq<Cue>)

  /** generateSpriteSheetAndVtt without its I/O. */
  method GenerateSpriteSheetAndVtt(duration: real, interval: real, tileWidth: real, tileHeight: real,
                                   maxThumbnails: int) returns (sheet: SpriteSheet)
    ensures sheet.settings == SettingsOf(interval, tileWidth, tileHeight, maxThumbnails)
    ensures sheet.count == ThumbnailCount(MaxReal(0.0, duration), sheet.settings)
    ensures sheet.grid == GridOf(sheet.count)
    ensures |sheet.cues| == sheet.count
    ensures forall i :: 0 <= i < sheet.count ==>
              sheet.cues[i] == CueAt(i, MaxReal(0.0, duration), sheet.settings, sheet.grid)
  {
    var settings := SettingsOf(interval, tileWidth, tileHeight, maxThumbnails);
    var d := MaxReal(0.0, duration);
    var count := ThumbnailCount(d, settings);
    var grid := GridOf(count);
    var cues := BuildCues(count, d, settings, grid);
    sheet := SpriteSheet(settings, grid, count, cues);
  }
}
