/**
 * The parts of the .NET base library whose behaviour the heartbeat agent depends on:
 * string.IsNullOrWhiteSpace, the rendering of a null argument by string.Format,
 * TimeSpan.Minutes over a tick count, and Path.GetFileName /
 * Path.GetFileNameWithoutExtension.
 */
module DotNet {
  import opened Wrappers

  // ---------------------------------------------------------------- strings

  /** char.IsWhiteSpace: the Unicode space, line and paragraph separators,
      U+0009..U+000D and U+0085. */
  predicate IsWhiteSpace(c: char) {
    c == ' ' || ('\t' <= c <= '\r') || c == '\U{0085}' || c == '\U{00A0}' || c == '\U{1680}'
    || ('\U{2000}' <= c <= '\U{200A}') || c == '\U{2028}' || c == '\U{2029}'
    || c == '\U{202F}' || c == '\U{205F}' || c == '\U{3000}'
  }

  /** string.IsNullOrWhiteSpace: null, empty, or nothing but white space. */
  predicate IsNullOrWhiteSpace(s: Option<string>) {
    s.None? || forall i | 0 <= i < |s.value| :: IsWhiteSpace(s.value[i])
  }

  /** Null and the empty string count as blank, and so does a string of tabs, line
      breaks and no-break spaces; one visible character makes a string non-blank. */
  lemma NullOrWhiteSpaceCases()
    ensures IsNullOrWhiteSpace(None) && IsNullOrWhiteSpace(Some(""))
    ensures IsNullOrWhiteSpace(Some(" \t\r\n\U{00A0}")) && !IsNullOrWhiteSpace(Some(" x "))
  {
    assert " x "[1] == 'x';
  }

  /** string.Format renders a null argument as the empty string. */
  function FormatArg(s: Option<string>): (r: string) {
    if s.Some? then s.value else ""
  }

  predicate EndsWith(s: string, suffix: string) {
    |suffix| <= |s| && s[|s| - |suffix|..] == suffix
  }

  // ---------------------------------------------------------------- time

  /** DateTime and TimeSpan count time in ticks of 100 nanoseconds. */
  const TicksPerMinute: int := 600_000_000
  const TicksPerHour: int := 60 * TicksPerMinute

  /** C#'s `/` on `long`: the quotient truncated toward zero, that is the multiple of
      `b` nearest to `a` on the side of zero. */
  function TruncDiv(a: int, b: int): (q: int)
    requires b > 0
    ensures a >= 0 ==> b * q <= a < b * q + b
    ensures a < 0 ==> b * q - b < a <= b * q
  {
    if a >= 0 then a / b else -((-a) / b)
  }

  /** C#'s `%` on `long`: the remainder takes the sign of the dividend. */
  function TruncRem(a: int, b: int): (r: int)
    requires b > 0
    ensures a >= 0 ==> r == a % b
    ensures a < 0 ==> r == -((-a) % b)
  {
    a - b * TruncDiv(a, b)
  }

  /** TimeSpan.Minutes of a span of `span` ticks: the whole-minutes COMPONENT,
      which drops whole hours and is negative for a negative span. */
  function MinutesComponent(span: int): (m: int)
    ensures -59 <= m <= 59
    ensures span >= 0 ==> m == (span / TicksPerMinute) % 60
    ensures span <= 0 ==> m <= 0
  {
    TruncRem(TruncDiv(span, TicksPerMinute), 60)
  }

  /** A span of `span` ticks lasts at least `minutes` whole minutes
      (TimeSpan.TotalMinutes >= minutes). */
  predicate TotalMinutesAtLeast(span: int, minutes: nat) {
    span >= minutes * TicksPerMinute
  }

  /** For a span under an hour the Minutes component is the total in whole minutes. */
  lemma MinutesComponentBelowHour(span: int)
    requires span < TicksPerHour
    ensures MinutesComponent(span) >= 2 <==> TotalMinutesAtLeast(span, 2)
  {
    if span >= 0 {
      assert span / TicksPerMinute < 60;
    }
  }

  /** Adding whole hours to a non-negative span leaves its Minutes component unchanged. */
  lemma MinutesComponentPeriodic(span: int, hours: nat)
    requires span >= 0
    ensures MinutesComponent(span + hours * TicksPerHour) == MinutesComponent(span)
  {
    var q := span / TicksPerMinute;
    assert (span + hours * TicksPerHour) / TicksPerMinute == q + 60 * hours;
    assert (q + 60 * hours) % 60 == q % 60;
  }

  // ---------------------------------------------------------------- paths

  /** The separators Path.GetFileName stops at on Windows: directory, alternate
      directory and volume separator. */
  predicate IsPathSeparator(c: char) {
    c == '\\' || c == '/' || c == ':'
  }

  predicate NoSeparator(s: string) {
    forall i | 0 <= i < |s| :: !IsPathSeparator(s[i])
  }

  /** Path.GetFileName: the longest suffix of `path` holding no separator. */
  function GetFileName(path: string): (name: string)
    ensures EndsWith(path, name)
    ensures NoSeparator(name)
    ensures |name| < |path| ==> IsPathSeparator(path[|path| - |name| - 1])
  {
    if path == "" then ""
    else if IsPathSeparator(path[|path| - 1]) then ""
    else
      var init := path[..|path| - 1];
      var name := GetFileName(init);
      assert path[|path| - |name| - 1..] == init[|init| - |name|..] + [path[|path| - 1]];
      name + [path[|path| - 1]]
  }

  /** string.LastIndexOf(char): the index of the last occurrence of `c`, if any. */
  function LastIndexOf(s: string, c: char): (r: Option<nat>)
    ensures r.Some? ==> r.value < |s| && s[r.value] == c && forall j | r.value < j < |s| :: s[j] != c
    ensures r.None? ==> forall j | 0 <= j < |s| :: s[j] != c
  {
    if s == "" then None
    else if s[|s| - 1] == c then Some(|s| - 1)
    else LastIndexOf(s[..|s| - 1], c)
  }

  /** Path.GetFileNameWithoutExtension: the file name up to its last '.', if it has one. */
  function GetFileNameWithoutExtension(path: string): (stem: string)
    ensures NoSeparator(stem)
    ensures stem <= GetFileName(path)
    ensures var name := GetFileName(path);
      || (stem == name && forall i | 0 <= i < |name| :: name[i] != '.')
      || (|stem| < |name| && name[|stem|] == '.' && forall j | |stem| < j < |name| :: name[j] != '.')
  {
    var name := GetFileName(path);
    match LastIndexOf(name, '.')
    case None => name
    case Some(i) => name[..i]
  }

  /** The file name of `dir\name` is `name` whenever `name` holds no separator. */
  lemma GetFileNameAfterSeparator(dir: string, name: string)
    requires NoSeparator(name)
    ensures GetFileName(dir + "\\" + name) == name
  {
    var path := dir + "\\" + name;
    var r := GetFileName(path);
    assert path[|path| - |name| - 1] == '\\';
  }

  /** A solution file `dir\stem.ext` (with an extension free of dots and separators)
      yields `stem`: the extension is dropped, dots inside the stem are kept. */
  lemma FileNameWithoutExtensionOfFile(dir: string, stem: string, ext: string)
    requires NoSeparator(stem) && NoSeparator(ext)
    requires forall i | 0 <= i < |ext| :: ext[i] != '.'
    ensures GetFileNameWithoutExtension(dir + "\\" + stem + "." + ext) == stem
  {
    var name := stem + "." + ext;
    assert NoSeparator(name) by {
      forall i | 0 <= i < |name| ensures !IsPathSeparator(name[i]) {
        if i < |stem| { assert name[i] == stem[i]; }
        else if i > |stem| { assert name[i] == ext[i - |stem| - 1]; }
      }
    }
    assert dir + "\\" + stem + "." + ext == dir + "\\" + name;
    GetFileNameAfterSeparator(dir, name);
    var k := LastIndexOf(name, '.');
    assert name[|stem|] == '.';
    assert k == Some(|stem|);
    assert name[..|stem|] == stem;
  }
}
