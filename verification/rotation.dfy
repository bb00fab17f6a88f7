/**
 * The pure part of log rotation ("rejuvenation"): the size test and the
 * timestamped archive name the live file is renamed to.
 */
module Rotation {

  const OneMbBytes: int := 1048576

  /** What probing the live file's size reports. */
  datatype StatResult = StatError | Stat(size: nat)

  /** The live file must be rotated once it holds at least `sizeMB` mebibytes. */
  predicate SizeExceeded(size: int, sizeMB: int)
  {
    size >= sizeMB * OneMbBytes
  }

  /**
   * The size test is monotone: a file that has reached the limit stays over
   * it as it grows, and it is also over every lower limit.
   */
  lemma SizeExceededGrows(size: nat, size': nat, sizeMB: nat, sizeMB': nat)
    requires SizeExceeded(size, sizeMB) && size <= size' && sizeMB' <= sizeMB
    ensures SizeExceeded(size', sizeMB')
  {
  }

  /** Local calendar time as the clock reports it; `month` counts from 0. */
  datatype LocalTime = LocalTime(year: nat, month: nat, day: nat, hours: nat, minutes: nat, seconds: nat)

  predicate IsDigit(c: char)
  {
    '0' <= c <= '9'
  }

  function DigitChar(d: nat): (c: char)
    requires d < 10
    ensures IsDigit(c) && c as int - '0' as int == d
  {
    ('0' as int + d) as char
  }

  /** The unpadded decimal rendering of a natural number. */
  function Decimal(n: nat): (r: string)
    ensures |r| >= 1
    ensures forall i :: 0 <= i < |r| ==> IsDigit(r[i])
    ensures (r[0] == '0') == (n == 0)
  {
    if n < 10 then [DigitChar(n)] else Decimal(n / 10) + [DigitChar(n % 10)]
  }

  /** The value of a string of decimal digits. */
  function DigitsValue(s: string): nat
    requires forall i :: 0 <= i < |s| ==> IsDigit(s[i])
  {
    if s == [] then 0 else DigitsValue(s[..|s| - 1]) * 10 + DigitValue(s[|s| - 1])
  }

  function DigitValue(c: char): nat
    requires IsDigit(c)
  {
    c as int - '0' as int
  }

  /** Reading back a rendered number gives the number. */
  lemma {:induction false} DecimalRoundTrip(n: nat)
    ensures DigitsValue(Decimal(n)) == n
  {
    if n >= 10 {
      var r := Decimal(n);
      assert r[..|r| - 1] == Decimal(n / 10);
      DecimalRoundTrip(n / 10);
    }
  }

  /** Different numbers render differently. */
  lemma DecimalInjective(m: nat, n: nat)
    requires Decimal(m) == Decimal(n)
    ensures m == n
  {
    DecimalRoundTrip(m);
    DecimalRoundTrip(n);
  }

  predicate AllDigits(s: string)
  {
    forall i :: 0 <= i < |s| ==> IsDigit(s[i])
  }

  /** The fields joined by '_'; a field of digits only never holds the separator. */
  function JoinFields(fields: seq<string>): (r: string)
    requires |fields| >= 1
    ensures (forall k :: 0 <= k < |fields| ==> AllDigits(fields[k])) ==>
      forall i :: 0 <= i < |r| ==> r[i] == '_' || IsDigit(r[i])
  {
    if |fields| == 1 then fields[0] else fields[0] + "_" + JoinFields(fields[1..])
  }

  /** `Y_M_D_H_Min_S` with unpadded fields and the month counted from 1. */
  function StampFields(t: LocalTime): (fields: seq<string>)
    ensures |fields| == 6
    ensures forall k :: 0 <= k < 6 ==> AllDigits(fields[k])
  {
    [Decimal(t.year), Decimal(t.month + 1), Decimal(t.day), Decimal(t.hours), Decimal(t.minutes), Decimal(t.seconds)]
  }

  function Stamp(t: LocalTime): (r: string)
    ensures forall i :: 0 <= i < |r| ==> r[i] == '_' || IsDigit(r[i])
  {
    JoinFields(StampFields(t))
  }

  /** In `a + "_" + rest` the run `a` comes first and the separator right after it. */
  lemma SeparatorAt(a: string, rest: string)
    ensures (a + "_" + rest)[|a|] == '_'
    ensures forall i :: 0 <= i < |a| ==> (a + "_" + rest)[i] == a[i]
  {
  }

  /** Two digit runs each followed by '_' can only match when the runs and the rests match. */
  lemma SplitField(a: string, rest: string, b: string, rest': string)
    requires AllDigits(a) && AllDigits(b)
    requires a + "_" + rest == b + "_" + rest'
    ensures a == b && rest == rest'
  {
    var s := a + "_" + rest;
    // a shorter run would put its '_' against a digit of the longer one
    assert |a| == |b| by {
      if |a| < |b| {
        SeparatorAt(a, rest);
        SeparatorAt(b, rest');
        assert false;
      } else if |b| < |a| {
        SeparatorAt(a, rest);
        SeparatorAt(b, rest');
        assert false;
      }
    }
    assert a == s[..|a|] == b;
    assert rest == s[|a| + 1..] == rest';
  }

  /** Joining equally many digit fields is injective: the separators fix the field boundaries. */
  lemma {:induction false} JoinFieldsInjective(xs: seq<string>, ys: seq<string>)
    requires |xs| == |ys| >= 1
    requires forall k :: 0 <= k < |xs| ==> AllDigits(xs[k])
    requires forall k :: 0 <= k < |ys| ==> AllDigits(ys[k])
    requires JoinFields(xs) == JoinFields(ys)
    ensures xs == ys
  {
    if |xs| > 1 {
      SplitField(xs[0], JoinFields(xs[1..]), ys[0], JoinFields(ys[1..]));
      JoinFieldsInjective(xs[1..], ys[1..]);
      assert xs == [xs[0]] + xs[1..];
      assert ys == [ys[0]] + ys[1..];
    }
  }

  /**
   * Different local times give different stamps. Two instants with the same
   * local reading (a daylight-saving fall-back) still share one.
   */
  lemma StampInjective(t1: LocalTime, t2: LocalTime)
    requires Stamp(t1) == Stamp(t2)
    ensures t1 == t2
  {
    var f1, f2 := StampFields(t1), StampFields(t2);
    JoinFieldsInjective(f1, f2);
    assert f1[0] == f2[0] && f1[1] == f2[1] && f1[2] == f2[2];
    assert f1[3] == f2[3] && f1[4] == f2[4] && f1[5] == f2[5];
    DecimalInjective(t1.year, t2.year);
    DecimalInjective(t1.month + 1, t2.month + 1);
    DecimalInjective(t1.day, t2.day);
    DecimalInjective(t1.hours, t2.hours);
    DecimalInjective(t1.minutes, t2.minutes);
    DecimalInjective(t1.seconds, t2.seconds);
  }

  /** Index of the last `c` in `s`, or -1 when there is none. */
  function LastIndexOf(s: string, c: char): (r: int)
    ensures -1 <= r < |s|
    ensures r >= 0 ==> s[r] == c
    ensures forall j :: r < j < |s| ==> s[j] != c
  {
    if s == [] then -1
    else if s[|s| - 1] == c then |s| - 1
    else LastIndexOf(s[..|s| - 1], c)
  }

  /**
   * Where the stamp goes: before the last '.', when that dot is not the
   * first character, and at the end of the name otherwise.
   */
  function InsertionPoint(fileName: string): (k: nat)
    ensures k <= |fileName|
  {
    var lastDot := LastIndexOf(fileName, '.');
    if lastDot > 0 then lastDot else |fileName|
  }

  /** The extension a name keeps across rotation: from its last '.' on, unless that dot leads the name. */
  function Extension(fileName: string): string
  {
    var lastDot := LastIndexOf(fileName, '.');
    if lastDot > 0 then fileName[lastDot..] else ""
  }

  /** The archive name: `_<stamp>` inserted before the extension, or appended when there is none. */
  function ArchiveName(fileName: string, stamp: string): (r: string)
    ensures var k := InsertionPoint(fileName);
      r == fileName[..k] + "_" + stamp + fileName[k..]
  {
    var lastDot := LastIndexOf(fileName, '.');
    if lastDot > 0 then
      var pre := fileName[..lastDot];
      var post := fileName[lastDot..];
      pre + "_" + stamp + post
    else
      fileName + "_" + stamp
  }

  /** Different stamps give different archive names for the same live file. */
  lemma ArchiveNameInjective(fileName: string, stamp: string, stamp': string)
    requires ArchiveName(fileName, stamp) == ArchiveName(fileName, stamp')
    ensures stamp == stamp'
  {
    var k := InsertionPoint(fileName);
    var r := ArchiveName(fileName, stamp);
    assert |stamp| == |stamp'|;
    assert stamp == r[k + 1..k + 1 + |stamp|];
    assert stamp' == r[k + 1..k + 1 + |stamp'|];
  }

  /** The last '.' of the whole path is used, so a dot in a directory name takes the stamp. */
  lemma DotInDirectory()
    ensures ArchiveName("/var/log.d/app", "S") == "/var/log_S.d/app"
  {
    var path := "/var/log.d/app";
    assert path[8] == '.';
    assert forall i :: 8 < i < |path| ==> path[i] != '.';
    assert LastIndexOf(path, '.') == 8;
    assert path[..8] == "/var/log" && path[8..] == ".d/app";
  }

  /** An archive name keeps the extension of the live file's name. */
  lemma ExtensionKept(fileName: string, stamp: string)
    requires '.' !in stamp
    ensures Extension(ArchiveName(fileName, stamp)) == Extension(fileName)
  {
    var r := ArchiveName(fileName, stamp);
    var lastDot := LastIndexOf(fileName, '.');
    var k := InsertionPoint(fileName);
    var j := LastIndexOf(r, '.');
    if lastDot > 0 {
      var at := k + 1 + |stamp|;
      assert r[at..] == fileName[k..];
      assert r[at] == '.';
      forall i | at < i < |r| ensures r[i] != '.' {
        assert r[i] == fileName[i - 1 - |stamp|];
      }
      assert j == at;
    } else {
      forall i | 0 < i < |r| ensures r[i] != '.' {
        if i < |fileName| {
          assert r[i] == fileName[i];
        } else if i > |fileName| {
          assert r[i] == stamp[i - |fileName| - 1];
        }
      }
      assert j <= 0;
    }
  }

  /** The stamp never holds a '.', so every archive name keeps its extension. */
  lemma ArchiveKeepsExtension(fileName: string, t: LocalTime)
    ensures Extension(ArchiveName(fileName, Stamp(t))) == Extension(fileName)
  {
    var stamp := Stamp(t);
    assert '.' !in stamp by {
      forall i | 0 <= i < |stamp| ensures stamp[i] != '.' {
      }
    }
    ExtensionKept(fileName, stamp);
  }
}
