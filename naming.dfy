/** Test-case file names: `str(i).zfill(w)` padded indices, the three name
    shapes the judges and the generator use, and `os.path.join`. */
module Naming {
  import opened Common

  /** `str(n)` for a natural number: decimal digits, no leading zero. */
  function Decimal(n: nat): (s: string)
    ensures |s| >= 1
    ensures s[0] != '0' || n == 0
    decreases n
  {
    if n < 10 then [('0' as int + n) as char]
    else Decimal(n / 10) + [('0' as int + n % 10) as char]
  }

  /** The number a string of decimal digits denotes (leading zeros allowed). */
  function Value(s: string): int
  {
    if s == [] then 0 else Value(s[..|s| - 1]) * 10 + (s[|s| - 1] as int - '0' as int)
  }

  function Zeros(k: nat): (z: string)
    ensures |z| == k && forall i :: 0 <= i < k ==> z[i] == '0'
  {
    if k == 0 then [] else "0" + Zeros(k - 1)
  }

  /** `s.zfill(w)` for a string without a sign: zeros on the left up to
      width `w`; a width at or below `|s|` (zero or negative included)
      leaves `s` as it is. */
  function ZFill(s: string, w: int): (r: string)
    ensures |r| == if w > |s| then w else |s|
  {
    if w > |s| then Zeros(w - |s|) + s else s
  }

  /** `zfill` only adds zeros in front: the original string ends the result. */
  lemma ZFillKeepsString(s: string, w: int)
    ensures ZFill(s, w)[|ZFill(s, w)| - |s|..] == s
    ensures forall i :: 0 <= i < |ZFill(s, w)| - |s| ==> ZFill(s, w)[i] == '0'
  {
    if w > |s| {
      var z := Zeros(w - |s|);
      assert ZFill(s, w) == z + s;
      assert (z + s)[|z|..] == s;
    }
  }

  /** `str(i).zfill(w)`: the padded index of test case `i`. */
  function Pad(i: nat, w: int): (r: string)
    ensures |r| >= w && |r| >= |Decimal(i)|
  {
    ZFill(Decimal(i), w)
  }

  /** The width `load_TC` uses when none is given: `len(str(tc_count))`. */
  function Width(format: Option<int>, count: nat): (w: int)
    ensures format.Some? ==> w == format.value
    ensures format.None? ==> w >= 1 && |Pad(count, w)| == w
  {
    if format.Some? then format.value else |Decimal(count)|
  }

  /** `os.path.join(dir, name)` on POSIX, for a relative `name`. */
  function Join(dir: string, name: string): (p: string)
    ensures |dir| + |name| <= |p| <= |dir| + |name| + 1
  {
    if dir == [] || dir[|dir| - 1] == '/' then dir + name else dir + "/" + name
  }

  /** `"test" + pad + ".in"`: the input of a comparison-mode case. */
  function PairInputName(i: nat, w: int): string { "test" + Pad(i, w) + ".in" }

  /** `"test" + pad + ".out"`: the expected output of a comparison-mode case. */
  function PairOutputName(i: nat, w: int): string { "test" + Pad(i, w) + ".out" }

  /** `pad + ".in"`: the input of a checker-mode case (no prefix). */
  function BareInputName(i: nat, w: int): string { Pad(i, w) + ".in" }

  /** The paths of cases 1..n, in order, for one of the name shapes. */
  function PairInputPaths(dir: string, w: int, n: nat): (ps: seq<string>)
    ensures |ps| == n && forall k :: 0 <= k < n ==> ps[k] == Join(dir, PairInputName(k + 1, w))
  {
    seq(n, (k: nat) => Join(dir, PairInputName(k + 1, w)))
  }

  function PairOutputPaths(dir: string, w: int, n: nat): (ps: seq<string>)
    ensures |ps| == n && forall k :: 0 <= k < n ==> ps[k] == Join(dir, PairOutputName(k + 1, w))
  {
    seq(n, (k: nat) => Join(dir, PairOutputName(k + 1, w)))
  }

  function BareInputPaths(dir: string, w: int, n: nat): (ps: seq<string>)
    ensures |ps| == n && forall k :: 0 <= k < n ==> ps[k] == Join(dir, BareInputName(k + 1, w))
  {
    seq(n, (k: nat) => Join(dir, BareInputName(k + 1, w)))
  }

  // ---------------------------------------------------------------------
  // Reading a padded index back

  lemma {:induction false} DecimalValue(n: nat)
    ensures Value(Decimal(n)) == n
    decreases n
  {
    var s := Decimal(n);
    if n >= 10 {
      DecimalValue(n / 10);
      assert s[..|s| - 1] == Decimal(n / 10);
    }
  }

  lemma {:induction false} LeadingZeroValue(s: string)
    ensures Value("0" + s) == Value(s)
    decreases |s|
  {
    if s != [] {
      var t := "0" + s;
      assert t[..|t| - 1] == "0" + s[..|s| - 1];
      LeadingZeroValue(s[..|s| - 1]);
    } else {
      assert ("0" + s)[..0] == [];
    }
  }

  lemma {:induction false} ZerosValue(k: nat, s: string)
    ensures Value(Zeros(k) + s) == Value(s)
  {
    if k > 0 {
      assert Zeros(k) + s == "0" + (Zeros(k - 1) + s);
      LeadingZeroValue(Zeros(k - 1) + s);
      ZerosValue(k - 1, s);
    } else {
      assert Zeros(k) + s == s;
    }
  }

  /** A padded index reads back as the index, whatever the width. */
  lemma PadValue(i: nat, w: int)
    ensures Value(Pad(i, w)) == i
  {
    DecimalValue(i);
    if w > |Decimal(i)| {
      ZerosValue(w - |Decimal(i)|, Decimal(i));
    }
  }

  /** Distinct indices get distinct padded names at the same width. */
  lemma PadInjective(i: nat, j: nat, w: int)
    requires Pad(i, w) == Pad(j, w)
    ensures i == j
  {
    PadValue(i, w);
    PadValue(j, w);
  }

  /** Smaller numbers never need more digits. */
  lemma {:induction false} DecimalLengthMonotone(i: nat, n: nat)
    requires i <= n
    ensures |Decimal(i)| <= |Decimal(n)|
    decreases n
  {
    if i >= 10 {
      DecimalLengthMonotone(i / 10, n / 10);
    }
  }

  /** With the default width every index 1..count pads to the same length,
      the number of digits of `count`. */
  lemma DefaultWidthIsUniform(i: nat, count: nat)
    requires 1 <= i <= count
    ensures |Pad(i, Width(None, count))| == |Decimal(count)|
  {
    DecimalLengthMonotone(i, count);
  }

  // ---------------------------------------------------------------------
  // The three name shapes never collide

  /** The joined path ends with the name. */
  lemma JoinEndsWithName(dir: string, name: string)
    ensures |Join(dir, name)| >= |name|
    ensures Join(dir, name)[|Join(dir, name)| - |name|..] == name
  {
    var sep := if dir == [] || dir[|dir| - 1] == '/' then dir else dir + "/";
    assert Join(dir, name) == sep + name;
    assert (sep + name)[|sep|..] == name;
  }

  lemma JoinInjective(dir: string, a: string, b: string)
    requires Join(dir, a) == Join(dir, b)
    ensures a == b
  {
    var pa, pb := Join(dir, a), Join(dir, b);
    JoinEndsWithName(dir, a);
    JoinEndsWithName(dir, b);
    assert |a| == |b|;
  }

  /** Names of two comparison-mode files at the same width coincide only
      for the same index and the same extension. */
  lemma PairNamesDistinct(i: nat, j: nat, w: int)
    ensures PairInputName(i, w) == PairInputName(j, w) ==> i == j
    ensures PairOutputName(i, w) == PairOutputName(j, w) ==> i == j
    ensures PairInputName(i, w) != PairOutputName(j, w)
  {
    var a, b := PairInputName(i, w), PairOutputName(j, w);
    if PairInputName(i, w) == PairInputName(j, w) {
      var pi, pj := Pad(i, w), Pad(j, w);
      assert |pi| == |pj|;
      assert pi == PairInputName(i, w)[4..4 + |pi|];
      assert pj == PairInputName(j, w)[4..4 + |pj|];
      PadInjective(i, j, w);
    }
    if PairOutputName(i, w) == PairOutputName(j, w) {
      var pi, pj := Pad(i, w), Pad(j, w);
      assert |pi| == |pj|;
      assert pi == PairOutputName(i, w)[4..4 + |pi|];
      assert pj == PairOutputName(j, w)[4..4 + |pj|];
      PadInjective(i, j, w);
    }
    assert a[|a| - 1] == 'n' && b[|b| - 1] == 't';
  }
}
