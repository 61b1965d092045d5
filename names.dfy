/**
 * File names of the recorder: the `.wav` suffix rule, the time-stamped default
 * name, Python's `rsplit('.', 1)` and the MP3 name derived from a WAV path.
 */
module Names {
  import opened Wrappers

  const WavSuffix: string := ".wav"
  const Mp3Suffix: string := ".mp3"
  /** Path separator of `os.path.join` on the Windows host the recorder targets. */
  const Sep: char := '\\'

  predicate EndsWith(s: string, suffix: string) {
    |suffix| <= |s| && s[|s| - |suffix|..] == suffix
  }

  /** The `.wav` rule: a name that does not end in `.wav` gets it appended. */
  function EnsureWav(name: string): (r: string)
    ensures EndsWith(r, WavSuffix)
    ensures EndsWith(name, WavSuffix) ==> r == name
    ensures !EndsWith(name, WavSuffix) ==> r == name + WavSuffix
  {
    if EndsWith(name, WavSuffix) then name else name + WavSuffix
  }

  lemma EnsureWavIdempotent(name: string)
    ensures EnsureWav(EnsureWav(name)) == EnsureWav(name)
  {
  }

  /** Appending to a string keeps any suffix of the appended part. */
  lemma {:induction false} EndsWithAppend(prefix: string, s: string, suffix: string)
    requires EndsWith(s, suffix)
    ensures EndsWith(prefix + s, suffix)
  {
    var whole := prefix + s;
    assert whole[|whole| - |suffix|..] == s[|s| - |suffix|..];
  }

  /**
   * `os.path.join(cds_audio_path, name)` for a directory that does not end in a
   * separator and a name that is relative.
   */
  function JoinPath(dir: string, name: string): (r: string)
    ensures EndsWith(name, WavSuffix) ==> EndsWith(r, WavSuffix)
  {
    var r := dir + [Sep] + name;
    assert EndsWith(name, WavSuffix) ==> EndsWith(r, WavSuffix) by {
      if EndsWith(name, WavSuffix) { EndsWithAppend(dir + [Sep], name, WavSuffix); }
    }
    r
  }

  /** Index of the last `c` in `s`, if any. */
  function LastIndexOf(s: string, c: char): (r: Option<nat>)
    ensures r.None? <==> (forall j :: 0 <= j < |s| ==> s[j] != c)
    ensures r.Some? ==> r.value < |s| && s[r.value] == c
    ensures r.Some? ==> forall j :: r.value < j < |s| ==> s[j] != c
    decreases |s|
  {
    if |s| == 0 then None
    else if s[|s| - 1] == c then Some(|s| - 1)
    else LastIndexOf(s[..|s| - 1], c)
  }

  /**
   * Python's split at the last dot into two parts: `None` when `s` holds no
   * dot, where unpacking the result into two names raises ValueError.
   */
  function RSplitDot(s: string): (r: Option<(string, string)>)
    ensures r.None? <==> (forall j :: 0 <= j < |s| ==> s[j] != '.')
    ensures r.Some? ==> r.value.0 + "." + r.value.1 == s
    ensures r.Some? ==> forall j :: 0 <= j < |r.value.1| ==> r.value.1[j] != '.'
  {
    match LastIndexOf(s, '.')
    case None => None
    case Some(i) =>
      assert s[..i] + "." + s[i + 1..] == s;
      Some((s[..i], s[i + 1..]))
  }

  /** Splitting `base + "." + ext` at its last dot gives back `base` whenever `ext` has no dot. */
  lemma {:induction false} RSplitOfJoin(base: string, ext: string)
    requires forall j :: 0 <= j < |ext| ==> ext[j] != '.'
    ensures RSplitDot(base + "." + ext) == Some((base, ext))
  {
    var s := base + "." + ext;
    assert s[|base|] == '.';
    assert forall j :: |base| < j < |s| ==> s[j] == ext[j - |base| - 1];
    assert LastIndexOf(s, '.') == Some(|base|);
    assert s[..|base|] == base;
    assert s[|base| + 1..] == ext;
  }

  /**
   * The MP3 name the export writes: the part of the WAV path before its last
   * dot, followed by `.mp3`; `None` where the unpacking of the split raises.
   */
  function Mp3Name(wav: string): (r: Option<string>)
    ensures r.Some? ==> EndsWith(r.value, Mp3Suffix)
  {
    match RSplitDot(wav)
    case None => None
    case Some(parts) =>
      var r := parts.0 + Mp3Suffix;
      assert r[|r| - 4..] == Mp3Suffix;
      Some(r)
  }

  /** The MP3 name of a `.wav` path is that path with its final `.wav` replaced by `.mp3`. */
  lemma Mp3NameOfWav(wav: string)
    requires EndsWith(wav, WavSuffix)
    ensures Mp3Name(wav) == Some(wav[..|wav| - 4] + Mp3Suffix)
  {
    var base := wav[..|wav| - 4];
    assert wav == base + "." + "wav";
    RSplitOfJoin(base, "wav");
  }

  // ---------------------------------------------------------------------------
  // Default name: "audio_", the local time as day-month-year_hour-minute-second, ".wav"

  /** A local date and time as `datetime.datetime.now()` gives it (to the second). */
  datatype DateTime = DateTime(day: int, month: int, year: int, hour: int, minute: int, second: int)

  type Stamp = t: DateTime |
    && 1 <= t.day <= 31 && 1 <= t.month <= 12 && 1000 <= t.year <= 9999
    && 0 <= t.hour <= 23 && 0 <= t.minute <= 59 && 0 <= t.second <= 59
    witness DateTime(1, 1, 2024, 0, 0, 0)

  function Pow10(n: nat): (r: nat)
    ensures r >= 1
  {
    if n == 0 then 1 else 10 * Pow10(n - 1)
  }

  predicate IsDigit(c: char) { '0' <= c <= '9' }

  /** `n` in decimal, zero-padded to exactly `width` digits, as strftime's `%d`, `%m`, `%Y`, ... */
  function Digits(n: nat, width: nat): (r: string)
    requires n < Pow10(width)
    ensures |r| == width
    ensures forall j :: 0 <= j < |r| ==> IsDigit(r[j])
  {
    if width == 0 then ""
    else Digits(n / 10, width - 1) + [('0' as int + n % 10) as char]
  }

  /** The number a string of decimal digits denotes. */
  function DigitsValue(s: string): (n: nat)
    requires forall j :: 0 <= j < |s| ==> IsDigit(s[j])
    ensures n < Pow10(|s|)
  {
    if |s| == 0 then 0
    else
      var last := s[|s| - 1];
      assert IsDigit(last);
      10 * DigitsValue(s[..|s| - 1]) + (last as int - '0' as int)
  }

  /** Zero padding loses nothing: the digits read back as the number. */
  lemma {:induction false} DigitsRoundTrip(n: nat, width: nat)
    requires n < Pow10(width)
    ensures DigitsValue(Digits(n, width)) == n
  {
    if width > 0 {
      DigitsRoundTrip(n / 10, width - 1);
      var r := Digits(n, width);
      assert r[..|r| - 1] == Digits(n / 10, width - 1);
    }
  }

  function StampText(t: Stamp): (r: string)
  {
    Digits(t.day, 2) + ("-" + (Digits(t.month, 2) + ("-" + (Digits(t.year, 4) + ("_" +
    (Digits(t.hour, 2) + ("-" + (Digits(t.minute, 2) + ("-" + Digits(t.second, 2))))))))))
  }

  /** What the file name field shows: the default name without its extension. */
  function DefaultBase(t: Stamp): (r: string)
  {
    "audio_" + StampText(t)
  }

  /** The time-stamped name offered when monitoring starts and after each recording. */
  function DefaultName(t: Stamp): (r: string)
    ensures |r| == 29 && EndsWith(r, WavSuffix)
  {
    var r := DefaultBase(t) + WavSuffix;
    assert r[|r| - 4..] == WavSuffix;
    r
  }

  predicate NoDot(s: string) {
    forall j :: 0 <= j < |s| ==> s[j] != '.'
  }

  lemma DefaultBaseHasNoDot(t: Stamp)
    ensures |DefaultBase(t)| == 25
    ensures NoDot(DefaultBase(t))
  {
  }

  /**
   * The name `onMonitor` and `onStopRec` generate splits, at its last dot, into
   * the base shown in the name field and "wav"; that base with `.wav` put back
   * is the name again.
   */
  lemma DefaultNameSplit(t: Stamp)
    ensures RSplitDot(DefaultName(t)) == Some((DefaultBase(t), "wav"))
    ensures !EndsWith(DefaultBase(t), WavSuffix)
    ensures EnsureWav(DefaultBase(t)) == DefaultName(t)
  {
    DefaultBaseHasNoDot(t);
    assert DefaultName(t) == DefaultBase(t) + "." + "wav";
    RSplitOfJoin(DefaultBase(t), "wav");
    var b := DefaultBase(t);
    assert b[|b| - 4] != '.';
  }

  /** Equal concatenations whose first parts have equal lengths have equal parts. */
  lemma Peel(a1: string, r1: string, a2: string, r2: string)
    requires a1 + r1 == a2 + r2 && |a1| == |a2|
    ensures a1 == a2 && r1 == r2
  {
    assert a1 == (a1 + r1)[..|a1|];
    assert a2 == (a2 + r2)[..|a2|];
    assert r1 == (a1 + r1)[|a1|..];
    assert r2 == (a2 + r2)[|a2|..];
  }

  /** Equal zero-padded fields of one width hold equal numbers. */
  lemma DigitsInjective(n1: nat, n2: nat, width: nat)
    requires n1 < Pow10(width) && n2 < Pow10(width)
    requires Digits(n1, width) == Digits(n2, width)
    ensures n1 == n2
  {
    DigitsRoundTrip(n1, width);
    DigitsRoundTrip(n2, width);
  }

  /** Two different instants (to the second) never produce the same default name. */
  lemma {:induction false} DefaultNameInjective(t1: Stamp, t2: Stamp)
    requires DefaultName(t1) == DefaultName(t2)
    ensures t1 == t2
  {
    Peel(DefaultBase(t1), WavSuffix, DefaultBase(t2), WavSuffix);
    Peel("audio_", StampText(t1), "audio_", StampText(t2));
    var a5 := "-" + Digits(t1.second, 2);
    var b5 := "-" + Digits(t2.second, 2);
    var a4 := Digits(t1.minute, 2) + a5;
    var b4 := Digits(t2.minute, 2) + b5;
    var a3 := "-" + a4;
    var b3 := "-" + b4;
    var a2 := Digits(t1.hour, 2) + a3;
    var b2 := Digits(t2.hour, 2) + b3;
    var a1 := "_" + a2;
    var b1 := "_" + b2;
    var ay := Digits(t1.year, 4) + a1;
    var yb := Digits(t2.year, 4) + b1;
    var am := "-" + ay;
    var bm := "-" + yb;
    var ad := Digits(t1.month, 2) + am;
    var bd := Digits(t2.month, 2) + bm;
    var a0 := "-" + ad;
    var b0 := "-" + bd;
    Peel(Digits(t1.day, 2), a0, Digits(t2.day, 2), b0);
    Peel("-", ad, "-", bd);
    Peel(Digits(t1.month, 2), am, Digits(t2.month, 2), bm);
    Peel("-", ay, "-", yb);
    Peel(Digits(t1.year, 4), a1, Digits(t2.year, 4), b1);
    Peel("_", a2, "_", b2);
    Peel(Digits(t1.hour, 2), a3, Digits(t2.hour, 2), b3);
    Peel("-", a4, "-", b4);
    Peel(Digits(t1.minute, 2), a5, Digits(t2.minute, 2), b5);
    Peel("-", Digits(t1.second, 2), "-", Digits(t2.second, 2));
    DigitsInjective(t1.day, t2.day, 2);
    DigitsInjective(t1.month, t2.month, 2);
    DigitsInjective(t1.year, t2.year, 4);
    DigitsInjective(t1.hour, t2.hour, 2);
    DigitsInjective(t1.minute, t2.minute, 2);
    DigitsInjective(t1.second, t2.second, 2);
  }
}
