/**
 * The numeric key of a file name used to order a PNG sequence
 * (src/Utils/PngUtils.ts, the comparator of handlePNGSequenceUpload):
 * `parseInt(name.match(/\d+/)?.[0] || "0", 10)`, and the decimal rendering of
 * an index used by the template literal `Capture${index + 1}`.
 */
module FilenameKey {
  import opened Wrappers

  /** `\d` in a regular expression without the `u` flag: an ASCII digit. */
  predicate IsDigit(c: char) {
    '0' <= c <= '9'
  }

  predicate AllDigits(s: string) {
    forall k :: 0 <= k < |s| ==> IsDigit(s[k])
  }

  predicate NoDigits(s: string) {
    forall k :: 0 <= k < |s| ==> !IsDigit(s[k])
  }

  function DigitValue(c: char): (d: nat)
    requires IsDigit(c)
    ensures d < 10
  {
    c as int - '0' as int
  }

  function DigitChar(d: nat): (c: char)
    requires d < 10
    ensures IsDigit(c) && DigitValue(c) == d
  {
    ('0' as int + d) as char
  }

  /** `run` is the first maximal run of digits of `s`, and it starts at index `i`. */
  ghost predicate FirstRunAt(s: string, i: nat, run: string) {
    && |run| > 0
    && i + |run| <= |s|
    && s[i..i + |run|] == run
    && AllDigits(run)
    && NoDigits(s[..i])
    && (i + |run| == |s| || !IsDigit(s[i + |run|]))
  }

  /** The longest prefix of `s` made of digits. */
  function DigitPrefix(s: string): (r: string)
    ensures r <= s && AllDigits(r)
    ensures |r| < |s| ==> !IsDigit(s[|r|])
  {
    if s != [] && IsDigit(s[0]) then [s[0]] + DigitPrefix(s[1..]) else []
  }

  /** The index of the first digit of `s`, or `|s|` when `s` has none. */
  function FirstDigitIndex(s: string): (i: nat)
    ensures i <= |s| && NoDigits(s[..i])
    ensures i < |s| ==> IsDigit(s[i])
  {
    if s == [] || IsDigit(s[0]) then 0 else 1 + FirstDigitIndex(s[1..])
  }

  /** `s.match(/\d+/)?.[0]`: the leftmost match of one or more digits, as long as possible. */
  function FirstDigitRun(s: string): (r: Option<string>)
    ensures r.None? <==> NoDigits(s)
    ensures r.Some? ==> exists i :: FirstRunAt(s, i, r.value)
  {
    var i := FirstDigitIndex(s);
    if i == |s| then
      None
    else
      var run := DigitPrefix(s[i..]);
      assert s[i..i + |run|] == run;
      assert FirstRunAt(s, i, run);
      Some(run)
  }

  function Pow10(n: nat): (p: nat)
    ensures p >= 1
  {
    if n == 0 then 1 else 10 * Pow10(n - 1)
  }

  /** `parseInt(d, 10)` of a string of digits: digits read most significant first. A run of
      `|d|` digits is below 10^|d|, and it is worth 0 exactly when every digit is `'0'`. */
  function DecimalValue(d: string): (v: nat)
    requires AllDigits(d)
    ensures v < Pow10(|d|)
    ensures v == 0 <==> forall k :: 0 <= k < |d| ==> d[k] == '0'
  {
    if d == [] then 0
    else
      var init := d[..|d| - 1];
      assert forall k :: 0 <= k < |init| ==> init[k] == d[k];
      10 * DecimalValue(init) + DigitValue(d[|d| - 1])
  }

  /** The key a file name is sorted by: the value of its first run of digits, 0 without one. */
  function Key(name: string): (k: nat)
    ensures NoDigits(name) ==> k == 0
  {
    var digits := match FirstDigitRun(name) case Some(run) => run case None => "0";
    assert AllDigits(digits) by {
      if FirstDigitRun(name).Some? {
        var i :| FirstRunAt(name, i, FirstDigitRun(name).value);
      }
    }
    DecimalValue(digits)
  }

  /** `${n}` for a non-negative integer: its decimal digits, without leading zeros. */
  function NatToString(n: nat): (s: string)
    ensures |s| > 0 && AllDigits(s)
    ensures DecimalValue(s) == n
    ensures s[0] == '0' ==> s == "0"
    decreases n
  {
    if n < 10 then
      [DigitChar(n)]
    else
      var init := NatToString(n / 10);
      var s := init + [DigitChar(n % 10)];
      assert s[..|s| - 1] == init;
      s
  }

  /** The first maximal run of digits is unique. */
  lemma {:induction false} FirstRunUnique(s: string, i: nat, run: string, j: nat, run': string)
    requires FirstRunAt(s, i, run) && FirstRunAt(s, j, run')
    ensures i == j && run == run'
  {
    assert s[i] == run[0] && s[j] == run'[0];
    assert forall k :: 0 <= k < i ==> s[k] == s[..i][k];
    assert forall k :: 0 <= k < j ==> s[k] == s[..j][k];
    assert i == j;
    assert forall k :: 0 <= k < |run| ==> s[i + k] == run[k];
    assert forall k :: 0 <= k < |run'| ==> s[i + k] == run'[k];
    assert |run| == |run'|;
  }

  /** Whatever the first maximal run of digits of a name is, the key is its value. */
  lemma KeyOfFirstRun(s: string, i: nat, run: string)
    requires FirstRunAt(s, i, run)
    ensures Key(s) == DecimalValue(run)
  {
    assert s[i] == run[0];
    var j :| FirstRunAt(s, j, FirstDigitRun(s).value);
    FirstRunUnique(s, j, FirstDigitRun(s).value, i, run);
  }

  /** A file name made of a digit-free prefix, a run of digits and a rest not starting with a digit
      has the value of that run as its key. */
  lemma {:induction false} KeyOfNumberedName(prefix: string, digits: string, rest: string)
    requires NoDigits(prefix) && |digits| > 0 && AllDigits(digits)
    requires rest == [] || !IsDigit(rest[0])
    ensures Key(prefix + digits + rest) == DecimalValue(digits)
  {
    var s := prefix + digits + rest;
    assert s[..|prefix|] == prefix;
    assert s[|prefix|..|prefix| + |digits|] == digits;
    assert |prefix| + |digits| < |s| ==> s[|prefix| + |digits|] == rest[0];
    assert FirstRunAt(s, |prefix|, digits);
    KeyOfFirstRun(s, |prefix|, digits);
  }

  /** `parseInt` ignores leading zeros. */
  lemma {:induction false} LeadingZeroIgnored(d: string)
    requires AllDigits(d)
    ensures AllDigits("0" + d) && DecimalValue("0" + d) == DecimalValue(d)
  {
    if d != [] {
      var init := d[..|d| - 1];
      assert ("0" + d)[..|"0" + d| - 1] == "0" + init;
      LeadingZeroIgnored(init);
    }
  }

  /** The key recovers the number written into a name: `Key(prefix + "${n}" + rest) == n`. */
  lemma KeyOfRenderedNumber(prefix: string, n: nat, rest: string)
    requires NoDigits(prefix)
    requires rest == [] || !IsDigit(rest[0])
    ensures Key(prefix + NatToString(n) + rest) == n
  {
    KeyOfNumberedName(prefix, NatToString(n), rest);
  }

  /** Distinct numbers render to distinct strings. */
  lemma NatToStringInjective(a: nat, b: nat)
    requires NatToString(a) == NatToString(b)
    ensures a == b
  {
  }

  /** `"007"` in a name has key 7: leading zeros do not matter. */
  lemma LeadingZerosExample()
    ensures Key("frame007.png") == 7
  {
    assert "07" == "0" + "7";
    assert "007" == "0" + "07";
    LeadingZeroIgnored("7");
    LeadingZeroIgnored("07");
    assert "frame007.png" == "frame" + "007" + ".png";
    KeyOfNumberedName("frame", "007", ".png");
  }
}
