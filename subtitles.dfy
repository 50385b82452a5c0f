/**
 * The SRT content built by `generateSubtitles` and the `HH:MM:SS,mmm`
 * timestamps of `formatSrtTime` (lib/video-service.ts).  Times are integer
 * milliseconds; the JavaScript arithmetic on them (floor division and the
 * dividend-signed `%`) is kept, so a negative start time prints the way the
 * source prints it.
 */
module Subtitles {
  import opened Wrappers
  import opened Text
  import opened JsMath

  /** `wordsPerLine`. */
  const WordsPerLine: nat := 7
  /** `secondsPerLine`, in milliseconds. */
  const MsPerLine: int := 3000

  function Min(a: int, b: int): int {
    if a <= b then a else b
  }

  // ---------------------------------------------------------------------------
  // formatSrtTime

  /** The four numbers `formatSrtTime` prints. */
  datatype SrtClock = SrtClock(hours: int, minutes: int, seconds: int, millis: int)

  /**
   * `Math.floor(s / 3600)`, `Math.floor((s % 3600) / 60)`, `Math.floor(s % 60)`
   * and `Math.floor((s % 1) * 1000)` for `s = ms / 1000`.
   */
  function SrtFields(ms: int): SrtClock {
    SrtClock(
      FloorDiv(ms, 3600000),
      FloorDiv(TruncMod(ms, 3600000), 60000),
      FloorDiv(TruncMod(ms, 60000), 1000),
      TruncMod(ms, 1000))
  }

  /** The four numbers as `HH:MM:SS,mmm`, each padded with zeros but never truncated. */
  function FormatClock(c: SrtClock): string {
    PadStart(IntToString(c.hours), 2, '0') + ":" + PadStart(IntToString(c.minutes), 2, '0') + ":"
    + PadStart(IntToString(c.seconds), 2, '0') + "," + PadStart(IntToString(c.millis), 3, '0')
  }

  /** `formatSrtTime`. */
  function FormatSrtTime(ms: int): (t: string)
    ensures ms >= 0 ==> ParseSrtTime(t) == Some(ms)
  {
    var c := SrtFields(ms);
    if ms >= 0 then
      SrtFieldsSound(ms);
      FormatClockRoundTrip(c);
      assert ClockMillis(c.hours, c.minutes, c.seconds, c.millis) == ms;
      FormatClock(c)
    else FormatClock(c)
  }

  /** The time in milliseconds of an hours, minutes, seconds, milliseconds reading. */
  function ClockMillis(hours: nat, minutes: nat, seconds: nat, millis: nat): nat {
    ((hours * 60 + minutes) * 60 + seconds) * 1000 + millis
  }

  /** Reads an `H:MM:SS,mmm` timestamp back into milliseconds. */
  function ParseSrtTime(t: string): Option<nat> {
    var p := Split(t, ':');
    if |p| == 3 && IsField(p[0]) && IsField(p[1]) then
      var q := Split(p[2], ',');
      if |q| == 2 && IsField(q[0]) && IsField(q[1]) then
        Some(ClockMillis(ParseDigits(p[0]), ParseDigits(p[1]), ParseDigits(q[0]), ParseDigits(q[1])))
      else None
    else None
  }

  lemma ModUnique60000(a: int, q: int, r: int)
    requires 0 <= r < 60000 && a == 60000 * q + r
    ensures a % 60000 == r
  {
  }

  lemma ModUnique1000(a: int, q: int, r: int)
    requires 0 <= r < 1000 && a == 1000 * q + r
    ensures a % 1000 == r
  {
  }

  /**
   * For a non-negative time the fields are hours, minutes in 0..59,
   * seconds in 0..59 and milliseconds in 0..999, and they add back up to
   * the time.
   */
  lemma SrtFieldsSound(ms: nat)
    ensures SrtFields(ms).hours == ms / 3600000
    ensures 0 <= SrtFields(ms).minutes < 60 && 0 <= SrtFields(ms).seconds < 60
    ensures 0 <= SrtFields(ms).millis < 1000
    ensures SrtFields(ms).hours * 3600000 + SrtFields(ms).minutes * 60000
          + SrtFields(ms).seconds * 1000 + SrtFields(ms).millis == ms
  {
    var h, r1 := ms / 3600000, ms % 3600000;
    assert ms == 3600000 * h + r1;
    var m, r2 := r1 / 60000, r1 % 60000;
    assert r1 == 60000 * m + r2;
    ModUnique60000(ms, 60 * h + m, r2);
    var s, r3 := r2 / 1000, r2 % 1000;
    assert r2 == 1000 * s + r3;
    ModUnique1000(ms, 3600 * h + 60 * m + s, r3);
    assert SrtFields(ms) == SrtClock(h, m, s, r3);
  }

  /**
   * A clock with non-negative fields, minutes and seconds below 60 and
   * milliseconds below 1000 prints as three `:` fields, the last holding
   * one `,`; the widths are at least 2, exactly 2, 2 and 3, and the text
   * reads back as the fields' total in milliseconds.
   */
  lemma FormatClockRoundTrip(c: SrtClock)
    requires c.hours >= 0 && 0 <= c.minutes < 60 && 0 <= c.seconds < 60 && 0 <= c.millis < 1000
    ensures var p := Split(FormatClock(c), ':');
      && |p| == 3 && |p[0]| >= 2 && |p[1]| == 2
      && (c.hours >= 100 ==> |p[0]| >= 3)
      && var q := Split(p[2], ',');
      |q| == 2 && |q[0]| == 2 && |q[1]| == 3
    ensures ParseSrtTime(FormatClock(c))
         == Some(ClockMillis(c.hours, c.minutes, c.seconds, c.millis))
  {
    var hh := PadStart(NatToString(c.hours), 2, '0');
    var mm := PadStart(NatToString(c.minutes), 2, '0');
    var ss := PadStart(NatToString(c.seconds), 2, '0');
    var mmm := PadStart(NatToString(c.millis), 3, '0');
    assert FormatClock(c) == hh + ":" + mm + ":" + ss + "," + mmm;
    PadNatRoundTrip(c.hours, 2);
    PadNatRoundTrip(c.minutes, 2);
    PadNatRoundTrip(c.seconds, 2);
    PadNatRoundTrip(c.millis, 3);
    PadNatWidth(c.minutes, 2);
    PadNatWidth(c.seconds, 2);
    PadNatWidth(c.millis, 3);
    if c.hours >= 100 {
      ThreeDigits(c.hours);
    }
    ClockTextFields(hh, mm, ss, mmm);
    ParseClockText(hh, mm, ss, mmm);
  }

  lemma ParseClockText(hh: string, mm: string, ss: string, mmm: string)
    requires IsField(hh) && IsField(mm) && IsField(ss) && IsField(mmm)
    ensures ParseSrtTime(hh + ":" + mm + ":" + ss + "," + mmm)
         == Some(ClockMillis(ParseDigits(hh), ParseDigits(mm), ParseDigits(ss), ParseDigits(mmm)))
  {
    ClockTextFields(hh, mm, ss, mmm);
    var t := hh + ":" + mm + ":" + ss + "," + mmm;
    var p := Split(t, ':');
    assert p[0] == hh && p[1] == mm && p[2] == ss + "," + mmm;
    var q := Split(p[2], ',');
    assert q[0] == ss && q[1] == mmm;
  }

  lemma ThreeDigits(n: nat)
    requires n >= 100
    ensures |NatToString(n)| >= 3
  {
    assert NatToString(n) == NatToString(n / 10) + [DigitChar(n % 10)];
    assert NatToString(n / 10) == NatToString(n / 100) + [DigitChar(n / 10 % 10)];
  }

  /** `hh:mm:ss,mmm` made of digit runs splits back into its four runs. */
  lemma ClockTextFields(hh: string, mm: string, ss: string, mmm: string)
    requires AllDigits(hh) && AllDigits(mm) && AllDigits(ss) && AllDigits(mmm)
    ensures Split(hh + ":" + mm + ":" + ss + "," + mmm, ':') == [hh, mm, ss + "," + mmm]
    ensures Split(ss + "," + mmm, ',') == [ss, mmm]
  {
    DigitsHaveNoSeparator(hh, ':');
    DigitsHaveNoSeparator(mm, ':');
    DigitsHaveNoSeparator(ss, ':');
    DigitsHaveNoSeparator(ss, ',');
    DigitsHaveNoSeparator(mmm, ',');
    DigitsHaveNoSeparator(mmm, ':');
    var tail := ss + "," + mmm;
    assert ':' !in tail;
    SplitField(hh, ':', mm + ":" + tail);
    SplitField(mm, ':', tail);
    SplitNoSep(tail, ':');
    assert hh + ":" + mm + ":" + ss + "," + mmm == hh + [':'] + (mm + [':'] + tail);
    SplitField(ss, ',', mmm);
    SplitNoSep(mmm, ',');
  }

  /**
   * `formatSrtTime` on a non-negative time: the hour field has at least two
   * digits (three or more from 100 hours on), minutes and seconds exactly
   * two, milliseconds exactly three, and the timestamp reads back as the
   * time it was made from.
   */
  lemma FormatSrtTimeRoundTrip(ms: nat)
    ensures var p := Split(FormatSrtTime(ms), ':');
      && |p| == 3 && |p[0]| >= 2 && |p[1]| == 2
      && (ms >= 100 * 3600000 ==> |p[0]| >= 3)
      && var q := Split(p[2], ',');
      |q| == 2 && |q[0]| == 2 && |q[1]| == 3
    ensures ParseSrtTime(FormatSrtTime(ms)) == Some(ms)
  {
    var c := SrtFields(ms);
    SrtFieldsSound(ms);
    FormatClockRoundTrip(c);
    assert ClockMillis(c.hours, c.minutes, c.seconds, c.millis) == ms;
  }

  lemma IntToStringWithout(i: int, ch: char)
    requires !IsDigit(ch) && ch != '-'
    ensures ch !in IntToString(i)
  {
    if i < 0 {
      DigitsHaveNoSeparator(NatToString(-i), ch);
    } else {
      DigitsHaveNoSeparator(NatToString(i), ch);
    }
  }

  /** A timestamp is one line: it holds no newline. */
  lemma SrtTimeHasNoNewline(ms: int)
    ensures '\n' !in FormatSrtTime(ms)
  {
    var c := SrtFields(ms);
    IntToStringWithout(c.hours, '\n');
    IntToStringWithout(c.minutes, '\n');
    IntToStringWithout(c.seconds, '\n');
    IntToStringWithout(c.millis, '\n');
    PadStartWithout(IntToString(c.hours), 2, '0', '\n');
    PadStartWithout(IntToString(c.minutes), 2, '0', '\n');
    PadStartWithout(IntToString(c.seconds), 2, '0', '\n');
    PadStartWithout(IntToString(c.millis), 3, '0', '\n');
  }

  // ---------------------------------------------------------------------------
  // Lines of seven words

  /** Consecutive groups of `WordsPerLine` words; the last group may be shorter. */
  function Chunks(words: seq<string>): seq<seq<string>> {
    if |words| == 0 then []
    else
      var n := Min(WordsPerLine, |words|);
      [words[..n]] + Chunks(words[n..])
  }

  /** The caption lines: each group of words joined by single spaces. */
  function Lines(words: seq<string>): seq<string> {
    var cs := Chunks(words);
    seq(|cs|, i requires 0 <= i < |cs| => Join(cs[i], " "))
  }

  lemma {:induction false} ChunksCount(words: seq<string>)
    ensures |Chunks(words)| == CeilDiv(|words|, WordsPerLine)
  {
    if |words| > 0 {
      ChunksCount(words[Min(7, |words|)..]);
    }
  }

  lemma {:induction false} ChunksFlatten(words: seq<string>)
    ensures Flatten(Chunks(words)) == words
  {
    if |words| > 0 {
      var n := Min(7, |words|);
      ChunksFlatten(words[n..]);
      assert Chunks(words)[1..] == Chunks(words[n..]);
      assert words == words[..n] + words[n..];
    }
  }

  lemma {:induction false} ChunkAt(words: seq<string>, i: nat)
    requires i < |Chunks(words)|
    ensures 7 * i < |words|
    ensures Chunks(words)[i] == words[7 * i..Min(7 * i + 7, |words|)]
    ensures 1 <= |Chunks(words)[i]| <= WordsPerLine
  {
    if i > 0 {
      var rest := words[7..];
      assert Chunks(words)[i] == Chunks(rest)[i - 1];
      ChunkAt(rest, i - 1);
      assert rest[7 * (i - 1)..Min(7 * (i - 1) + 7, |rest|)] == words[7 * i..Min(7 * i + 7, |words|)];
    }
  }

  /**
   * There are `ceil(w / 7)` groups, group `i` is words `7i` up to (not
   * including) `min(7i + 7, w)`, so it is non-empty and holds at most seven
   * words, and the groups in order are the words again.
   */
  lemma ChunksSpec(words: seq<string>)
    ensures |Chunks(words)| == CeilDiv(|words|, WordsPerLine)
    ensures forall i :: 0 <= i < |Chunks(words)| ==>
      && 7 * i < |words|
      && Chunks(words)[i] == words[7 * i..Min(7 * i + 7, |words|)]
      && 1 <= |Chunks(words)[i]| <= WordsPerLine
    ensures Flatten(Chunks(words)) == words
  {
    ChunksCount(words);
    ChunksFlatten(words);
    var cs := Chunks(words);
    forall i | 0 <= i < |cs|
      ensures 7 * i < |words| && cs[i] == words[7 * i..Min(7 * i + 7, |words|)] && 1 <= |cs[i]| <= WordsPerLine
    {
      ChunkAt(words, i);
    }
  }

  // ---------------------------------------------------------------------------
  // Timing and blocks

  /** `Math.min(index * secondsPerLine, clipDuration - secondsPerLine)`. */
  function StartMs(index: nat, durationMs: int): int {
    Min(index * MsPerLine, durationMs - MsPerLine)
  }

  /** `Math.min(startTimeSeconds + secondsPerLine, clipDuration)`. */
  function EndMs(index: nat, durationMs: int): int {
    Min(StartMs(index, durationMs) + MsPerLine, durationMs)
  }

  /** The timing line of block `index`: `${start} --> ${end}`. */
  function TimeLine(index: nat, durationMs: int): string {
    FormatSrtTime(StartMs(index, durationMs)) + " --> " + FormatSrtTime(EndMs(index, durationMs))
  }

  /** The timing lines of the first `n` blocks. */
  function TimeLines(n: nat, durationMs: int): seq<string> {
    seq(n, i requires 0 <= i < n => TimeLine(i, durationMs))
  }

  /** One block: `${number}\n${timing}\n${line}\n\n`. */
  function Block(number: string, timing: string, line: string): string {
    number + "\n" + timing + "\n" + line + "\n\n"
  }

  /** Block `i` is numbered `i + 1` and carries timing line `i` and caption line `i`. */
  function Blocks(lines: seq<string>, timings: seq<string>): seq<string>
    requires |timings| == |lines|
  {
    seq(|lines|, i requires 0 <= i < |lines| => Block(NatToString(i + 1), timings[i], lines[i]))
  }

  /** The SRT text for the given caption lines: the blocks, in order, back to back. */
  function SrtContent(lines: seq<string>, durationMs: int): string {
    Concat(Blocks(lines, TimeLines(|lines|, durationMs)))
  }

  /** The whole SRT text `generateSubtitles` writes for a transcript. */
  function Srt(transcription: string, durationMs: int): string {
    SrtContent(Lines(Words(transcription)), durationMs)
  }

  /** Later lines never start or end earlier. */
  lemma TimingMonotone(i: nat, j: nat, durationMs: int)
    requires i <= j
    ensures StartMs(i, durationMs) <= StartMs(j, durationMs)
    ensures EndMs(i, durationMs) <= EndMs(j, durationMs)
  {
  }

  /** In a clip of at least three seconds every line lasts three seconds and ends within the clip. */
  lemma TimingWithinClip(i: nat, durationMs: int)
    requires durationMs >= MsPerLine
    ensures 0 <= StartMs(i, durationMs)
    ensures EndMs(i, durationMs) == StartMs(i, durationMs) + MsPerLine <= durationMs
  {
  }

  /**
   * Once `3i` reaches `D - 3` every further line gets the same final window,
   * so start times are not strictly increasing: in a 4-second clip lines 1
   * and 2 both run from 1 s to 4 s.
   */
  lemma SharedFinalWindow(i: nat, durationMs: int)
    requires i * MsPerLine >= durationMs - MsPerLine
    ensures StartMs(i, durationMs) == durationMs - MsPerLine
    ensures EndMs(i, durationMs) == durationMs
    ensures StartMs(1, 4000) == StartMs(2, 4000) == 1000
  {
  }

  /**
   * A clip shorter than three seconds gives the first line a negative start,
   * which `formatSrtTime` prints with minus signs (`-1:-1:-1,000` for a
   * 2-second clip).
   */
  lemma ShortClipStartsBeforeZero(durationMs: int)
    requires durationMs < MsPerLine
    ensures StartMs(0, durationMs) < 0
    ensures FormatSrtTime(StartMs(0, durationMs))[0] == '-'
    ensures FormatSrtTime(-1000) == "-1:-1:-1,000"
  {
    NegativeHours(StartMs(0, durationMs));
    MinusOneSecond();
  }

  lemma MinusOneSecond()
    ensures FormatSrtTime(-1000) == "-1:-1:-1,000"
  {
    var c := SrtFields(-1000);
    assert c == SrtClock(-1, -1, -1, 0);
    assert IntToString(-1) == "-1";
    assert PadStart("-1", 2, '0') == "-1";
    assert PadStart(IntToString(0), 3, '0') == "000";
  }

  /** A negative time has a negative hour field, so its timestamp starts with a minus sign. */
  lemma NegativeHours(ms: int)
    requires ms < 0
    ensures FormatSrtTime(ms)[0] == '-'
  {
    var h := SrtFields(ms).hours;
    assert h < 0;
    var digits := IntToString(h);
    assert digits == "-" + NatToString(-h);
    assert PadStart(digits, 2, '0') == digits;
  }

  // ---------------------------------------------------------------------------
  // Reading the SRT text back

  /** The newline-separated fields of block `i`: number, timing, text, blank. */
  function Parts(lines: seq<string>, timings: seq<string>): seq<seq<string>>
    requires |timings| == |lines|
  {
    seq(|lines|, i requires 0 <= i < |lines| => [NatToString(i + 1), timings[i], lines[i], ""])
  }

  /** The caption lines of an SRT text: the third field of every four-line block. */
  function RecoverLines(srt: string): seq<string> {
    var f := Split(srt, '\n');
    var n := (|f| - 1) / 4;
    seq(n, k requires 0 <= k < n => f[4 * k + 2])
  }

  /** The words of an SRT text: its caption lines split on single spaces, in order. */
  function RecoverWords(srt: string): seq<string> {
    var ls := RecoverLines(srt);
    Flatten(seq(|ls|, i requires 0 <= i < |ls| => Split(ls[i], ' ')))
  }

  lemma TimeLinesHaveNoNewline(n: nat, durationMs: int)
    ensures forall i :: 0 <= i < n ==> '\n' !in TimeLines(n, durationMs)[i]
  {
    forall i | 0 <= i < n ensures '\n' !in TimeLines(n, durationMs)[i] {
      SrtTimeHasNoNewline(StartMs(i, durationMs));
      SrtTimeHasNoNewline(EndMs(i, durationMs));
      ArrowLine(TimeLines(n, durationMs)[i], FormatSrtTime(StartMs(i, durationMs)), FormatSrtTime(EndMs(i, durationMs)));
    }
  }

  /** `${start} --> ${end}` has a newline only if one of the two times has. */
  lemma ArrowLine(t: string, start: string, end: string)
    requires t == start + " --> " + end && '\n' !in start && '\n' !in end
    ensures '\n' !in t
  {
    assert t == start + " --> " + end;
    forall k | 0 <= k < |t| ensures t[k] != '\n' {
      if k < |start| {
        assert t[k] == start[k];
      } else if k >= |start| + 5 {
        assert t[k] == end[k - |start| - 5];
      }
    }
  }

  /** The blocks from `k` on are their fields, each ended by a newline. */
  lemma {:induction false} BlocksAreTerminatedParts(lines: seq<string>, timings: seq<string>, k: nat)
    requires |timings| == |lines| && k <= |lines|
    ensures Concat(Blocks(lines, timings)[k..]) == Terminate(Flatten(Parts(lines, timings)[k..]), '\n')
    decreases |lines| - k
  {
    var bs := Blocks(lines, timings);
    var ps := Parts(lines, timings);
    if k == |lines| {
      assert bs[k..] == [];
      assert ps[k..] == [];
    } else {
      BlocksAreTerminatedParts(lines, timings, k + 1);
      var b, p := bs[k..], ps[k..];
      assert b[1..] == bs[k + 1..] && p[1..] == ps[k + 1..];
      assert Concat(b) == bs[k] + Concat(bs[k + 1..]);
      assert Flatten(p) == ps[k] + Flatten(ps[k + 1..]);
      TerminateAppend(ps[k], Flatten(ps[k + 1..]), '\n');
      BlockIsTerminated(NatToString(k + 1), timings[k], lines[k]);
    }
  }

  lemma BlockIsTerminated(number: string, timing: string, line: string)
    ensures Block(number, timing, line) == Terminate([number, timing, line, ""], '\n')
  {
    var xs := [number, timing, line, ""];
    assert xs[1..] == [timing, line, ""];
    assert xs[1..][1..] == [line, ""];
    assert xs[1..][1..][1..] == [""];
    assert xs[1..][1..][1..][1..] == [];
    assert Terminate([""], '\n') == "\n";
    assert Terminate([line, ""], '\n') == line + "\n" + "\n";
    assert Terminate([timing, line, ""], '\n') == timing + "\n" + (line + "\n\n");
  }

  /** Splitting the SRT text on newlines gives the fields of every block, then one empty field. */
  lemma SplitBlocks(lines: seq<string>, timings: seq<string>)
    requires |timings| == |lines|
    requires forall i :: 0 <= i < |lines| ==> '\n' !in lines[i] && '\n' !in timings[i]
    ensures Split(Concat(Blocks(lines, timings)), '\n') == Flatten(Parts(lines, timings)) + [""]
  {
    var ps := Parts(lines, timings);
    BlocksAreTerminatedParts(lines, timings, 0);
    assert ps[0..] == ps;
    assert Blocks(lines, timings)[0..] == Blocks(lines, timings);
    FlattenFours(ps);
    forall i | 0 <= i < |Flatten(ps)| ensures '\n' !in Flatten(ps)[i] {
      var j, t := i / 4, i % 4;
      assert Flatten(ps)[4 * j + t] == ps[j][t];
      DigitsHaveNoSeparator(NatToString(j + 1), '\n');
    }
    SplitTerminate(Flatten(ps), '\n');
  }

  /** Field `4k + 2` of the split text is caption line `k`. */
  lemma RecoverFromBlocks(lines: seq<string>, timings: seq<string>)
    requires |timings| == |lines|
    requires forall i :: 0 <= i < |lines| ==> '\n' !in lines[i] && '\n' !in timings[i]
    ensures RecoverLines(Concat(Blocks(lines, timings))) == lines
  {
    var ps := Parts(lines, timings);
    SplitBlocks(lines, timings);
    FlattenFours(ps);
    var f := Split(Concat(Blocks(lines, timings)), '\n');
    assert |f| == 4 * |lines| + 1;
    forall k | 0 <= k < |lines| ensures f[4 * k + 2] == lines[k] {
      assert f[4 * k + 2] == Flatten(ps)[4 * k + 2] == ps[k][2];
    }
  }

  /** Caption lines hold no newline when their words hold no white space. */
  lemma LinesHaveNoNewline(words: seq<string>)
    requires forall i :: 0 <= i < |words| ==> NoSpace(words[i])
    ensures forall i :: 0 <= i < |Lines(words)| ==> '\n' !in Lines(words)[i]
    ensures forall i :: 0 <= i < |Lines(words)| ==> Split(Lines(words)[i], ' ') == Chunks(words)[i]
  {
    ChunksSpec(words);
    var cs := Chunks(words);
    forall i | 0 <= i < |cs|
      ensures '\n' !in Join(cs[i], " ") && Split(Join(cs[i], " "), ' ') == cs[i]
    {
      forall j | 0 <= j < |cs[i]| ensures NoSpace(cs[i][j]) {
        assert cs[i][j] == words[7 * i + j];
      }
      JoinedLine(cs[i]);
    }
  }

  /** A line joined from words without white space holds no newline and splits back into the words. */
  lemma JoinedLine(chunk: seq<string>)
    requires |chunk| >= 1 && forall j :: 0 <= j < |chunk| ==> NoSpace(chunk[j])
    ensures '\n' !in Join(chunk, " ") && Split(Join(chunk, " "), ' ') == chunk
  {
    forall j | 0 <= j < |chunk| ensures '\n' !in chunk[j] && ' ' !in chunk[j] {
      assert IsSpace('\n') && IsSpace(' ');
    }
    JoinWithout(chunk, " ", '\n');
    SplitJoin(chunk, ' ');
  }

  /**
   * Reading the SRT text back block by block gives exactly the caption
   * lines, and splitting those on spaces gives exactly the words of the
   * transcript: no word is lost, duplicated or moved.
   */
  lemma SrtRoundTrip(transcription: string, durationMs: int)
    ensures RecoverLines(Srt(transcription, durationMs)) == Lines(Words(transcription))
    ensures RecoverWords(Srt(transcription, durationMs)) == Words(transcription)
  {
    var words := Words(transcription);
    SrtLinesRoundTrip(transcription, durationMs);
    WordsHaveNoSpace(transcription);
    LinesHaveNoNewline(words);
    var cs := Chunks(words);
    assert Flatten(cs) == words by { ChunksSpec(words); }
    var ls := RecoverLines(Srt(transcription, durationMs));
    var parts := seq(|ls|, i requires 0 <= i < |ls| => Split(ls[i], ' '));
    assert parts == cs;
  }

  lemma WordsHaveNoSpace(transcription: string)
    ensures forall i :: 0 <= i < |Words(transcription)| ==> NoSpace(Words(transcription)[i])
  {
    RunsSpec(transcription);
  }

  lemma SrtLinesRoundTrip(transcription: string, durationMs: int)
    ensures RecoverLines(Srt(transcription, durationMs)) == Lines(Words(transcription))
  {
    var words := Words(transcription);
    WordsHaveNoSpace(transcription);
    LinesHaveNoNewline(words);
    var lines := Lines(words);
    TimeLinesHaveNoNewline(|lines|, durationMs);
    RecoverFromBlocks(lines, TimeLines(|lines|, durationMs));
  }

  /** One block per group of seven words, so `ceil(w / 7)` blocks, and never none. */
  lemma BlockCount(transcription: string, durationMs: int)
    ensures var lines := Lines(Words(transcription));
      |Blocks(lines, TimeLines(|lines|, durationMs))| == CeilDiv(|Words(transcription)|, WordsPerLine) >= 1
  {
    ChunksSpec(Words(transcription));
  }

  // ---------------------------------------------------------------------------
  // The two loops of generateSubtitles

  /** The `for` loop that pushes one joined line per group of seven words. */
  method BuildLines(words: seq<string>) returns (lines: seq<string>)
    ensures lines == Lines(words)
  {
    lines := [];
    var i := 0;
    while i < |words|
      invariant 0 <= i <= |words| + WordsPerLine
      invariant Lines(words) == lines + Lines(words[Min(i, |words|)..])
      decreases |words| - i
    {
      LinesFrom(words, i);
      lines := lines + [Join(words[i..Min(i + WordsPerLine, |words|)], " ")];
      i := i + WordsPerLine;
    }
  }

  /** The lines from word `i` on: the group starting at `i`, then the lines after it. */
  lemma LinesFrom(words: seq<string>, i: nat)
    requires i < |words|
    ensures Lines(words[i..])
         == [Join(words[i..Min(i + WordsPerLine, |words|)], " ")] + Lines(words[Min(i + WordsPerLine, |words|)..])
  {
    var rest := words[i..];
    var n := Min(WordsPerLine, |rest|);
    assert Chunks(rest) == [rest[..n]] + Chunks(rest[n..]);
    assert words[i..Min(i + WordsPerLine, |words|)] == rest[..n];
    assert rest[n..] == words[Min(i + WordsPerLine, |words|)..];
  }

  lemma BlockAt(lines: seq<string>, timings: seq<string>, index: nat)
    requires |timings| == |lines| && index < |lines|
    ensures Blocks(lines, timings)[index] == Block(NatToString(index + 1), timings[index], lines[index])
  {
  }

  lemma TimeLineAt(index: nat, durationMs: int, startMs: int, endMs: int)
    requires startMs == StartMs(index, durationMs) && endMs == EndMs(index, durationMs)
    ensures TimeLine(index, durationMs) == FormatSrtTime(startMs) + " --> " + FormatSrtTime(endMs)
  {
  }

  /** The `forEach` that appends one block per line to `srtContent`. */
  method BuildSrt(lines: seq<string>, durationMs: int) returns (srt: string)
    ensures srt == SrtContent(lines, durationMs)
  {
    srt := "";
    var index := 0;
    ghost var bs := Blocks(lines, TimeLines(|lines|, durationMs));
    while index < |lines|
      invariant 0 <= index <= |lines|
      invariant srt == Concat(bs[..index])
    {
      var startMs := Min(index * MsPerLine, durationMs - MsPerLine);
      var endMs := Min(startMs + MsPerLine, durationMs);
      assert startMs == StartMs(index, durationMs) && endMs == EndMs(index, durationMs);
      var startTime := FormatSrtTime(startMs);
      var endTime := FormatSrtTime(endMs);
      var block := Block(NatToString(index + 1), startTime + " --> " + endTime, lines[index]);
      BlockAt(lines, TimeLines(|lines|, durationMs), index);
      assert TimeLines(|lines|, durationMs)[index] == TimeLine(index, durationMs);
      TimeLineAt(index, durationMs, startMs, endMs);
      srt := srt + block;
      ConcatPrefix(bs, index);
      index := index + 1;
    }
    assert bs[..index] == bs;
  }
}
