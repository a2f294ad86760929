/**
 * The output file names of the render script: the split of the output base
 * into path and extension (`output_base.rsplit('.', 1)`), and one name per
 * view, `f"{output_path}_{i:02d}.{output_ext}"`.
 */
module Naming {
  import opened Wrappers

  /** Extension used when the output base has no dot. */
  const DefaultExt: string := "png"

  predicate IsDigit(c: char) {
    '0' <= c <= '9'
  }

  predicate AllDigits(s: string) {
    forall k :: 0 <= k < |s| ==> IsDigit(s[k])
  }

  function DigitChar(d: nat): (c: char)
    requires d < 10
    ensures IsDigit(c)
  {
    ('0' as int + d) as char
  }

  function DigitValue(c: char): (d: nat)
    requires IsDigit(c)
    ensures d < 10 && DigitChar(d) == c
  {
    c as int - '0' as int
  }

  /** Python's `str(n)` for a non-negative integer: decimal, no leading zeros. */
  function Decimal(n: nat): (r: string)
    ensures |r| >= 1 && AllDigits(r)
    ensures (|r| == 1) == (n < 10)
    ensures |r| == 1 || r[0] != '0'
    decreases n
  {
    if n < 10 then [DigitChar(n)] else Decimal(n / 10) + [DigitChar(n % 10)]
  }

  /** The number a string of decimal digits denotes. */
  function DigitsValue(s: string): nat
    requires AllDigits(s)
  {
    if s == [] then 0 else DigitsValue(s[..|s| - 1]) * 10 + DigitValue(s[|s| - 1])
  }

  lemma {:induction false} DecimalRoundTrip(n: nat)
    ensures DigitsValue(Decimal(n)) == n
    decreases n
  {
    if n >= 10 {
      var s := Decimal(n);
      assert s[..|s| - 1] == Decimal(n / 10);
      DecimalRoundTrip(n / 10);
    }
  }

  /** A leading zero does not change the value of a digit string. */
  lemma {:induction false} LeadingZero(s: string)
    requires AllDigits(s)
    ensures AllDigits("0" + s) && DigitsValue("0" + s) == DigitsValue(s)
    decreases |s|
  {
    if s != [] {
      var t := "0" + s;
      assert t[..|t| - 1] == "0" + s[..|s| - 1];
      LeadingZero(s[..|s| - 1]);
    }
  }

  /**
   * The `{i:02d}` field: the decimal form of `i`, left-padded with `0` to
   * two digits. Its value is `i`, and it has a leading zero only when the
   * padding put it there.
   */
  function Pad2(i: nat): (r: string)
    ensures AllDigits(r) && |r| >= 2
    ensures DigitsValue(r) == i
    ensures |r| == 2 || r[0] != '0'
  {
    DecimalRoundTrip(i);
    if i < 10 then
      LeadingZero(Decimal(i));
      "0" + Decimal(i)
    else
      Decimal(i)
  }

  /** Different indices are padded to different strings. */
  lemma Pad2Injective(i: nat, j: nat)
    requires i != j
    ensures Pad2(i) != Pad2(j)
  {
  }

  /** Position of the last `.` in `s`, where `rsplit('.', 1)` splits. */
  function LastDot(s: string): (r: Option<nat>)
    ensures r.None? <==> '.' !in s
    ensures r.Some? ==> r.value < |s| && s[r.value] == '.' && '.' !in s[r.value + 1..]
    decreases |s|
  {
    if s == [] then None
    else if s[|s| - 1] == '.' then Some(|s| - 1)
    else
      assert s == s[..|s| - 1] + [s[|s| - 1]];
      LastDot(s[..|s| - 1])
  }

  datatype OutputSplit = OutputSplit(path: string, ext: string)

  /**
   * `output_path, output_ext = output_base.rsplit('.', 1)`, falling back to
   * the whole base and `png` when the unpacking fails for want of a dot.
   */
  function SplitOutputBase(base: string): (r: OutputSplit)
    ensures '.' !in base ==> r == OutputSplit(base, DefaultExt)
    ensures '.' in base ==> r.path + "." + r.ext == base && '.' !in r.ext
  {
    match LastDot(base)
    case None => OutputSplit(base, DefaultExt)
    case Some(k) =>
      assert base == base[..k] + "." + base[k + 1..];
      OutputSplit(base[..k], base[k + 1..])
  }

  /** A dot with no dot after it is the last dot. */
  lemma LastDotAt(s: string, k: nat)
    requires k < |s| && s[k] == '.' && '.' !in s[k + 1..]
    ensures LastDot(s) == Some(k)
  {
  }

  /** The split at the last dot is the only split whose extension has no dot. */
  lemma SplitOutputBaseUnique(base: string, path: string, ext: string)
    requires path + "." + ext == base && '.' !in ext
    ensures SplitOutputBase(base) == OutputSplit(path, ext)
  {
    assert base[|path|] == '.' && base[|path| + 1..] == ext;
    LastDotAt(base, |path|);
    assert base[..|path|] == path;
  }

  /** A base ending in a dot keeps an empty extension rather than `png`. */
  lemma TrailingDotGivesEmptyExt(base: string)
    requires |base| > 0 && base[|base| - 1] == '.'
    ensures SplitOutputBase(base) == OutputSplit(base[..|base| - 1], "")
  {
  }

  /** The split ignores `/`: a dot in a directory name is taken as the extension's start. */
  lemma DotInDirectoryName()
    ensures SplitOutputBase("renders.d/view") == OutputSplit("renders", "d/view")
  {
  }

  /** The view index a name of the shape `<path>_<NN>.<ext>` carries, for the given path and extension. */
  function IndexOfFileName(name: string, path: string, ext: string): Option<nat> {
    var n := |name|;
    if n >= |path| + |ext| + 2 && name[..|path|] == path && name[|path|] == '_'
       && name[n - |ext| - 1] == '.' && name[n - |ext|..] == ext
       && AllDigits(name[|path| + 1..n - |ext| - 1])
    then Some(DigitsValue(name[|path| + 1..n - |ext| - 1]))
    else None
  }

  /**
   * The name of the `i`-th view: `<path>_<NN>.<ext>`. The index can be read
   * back from it.
   */
  function FileName(path: string, ext: string, i: nat): (r: string)
    ensures IndexOfFileName(r, path, ext) == Some(i)
  {
    var name := path + "_" + Pad2(i) + "." + ext;
    var n := |name|;
    assert name[..|path|] == path;
    assert name[|path|] == '_';
    assert name[n - |ext| - 1] == '.';
    assert name[n - |ext|..] == ext;
    assert name[|path| + 1..n - |ext| - 1] == Pad2(i);
    name
  }

  /** Distinct indices give distinct file names. */
  lemma FileNamesDistinct(path: string, ext: string, i: nat, j: nat)
    requires i != j
    ensures FileName(path, ext, i) != FileName(path, ext, j)
  {
  }
}
