/** The Select Graphic Rendition (SGR) parameter values that the style
    mutators push (src/consts.rs). Codes 0..9 and 30..47 are those of
    ECMA-48, section 8.3.117; 90..97 and 100..107 are the common aixterm
    "bright" extension. */
module Consts {

  /** An unsigned 8-bit integer, the type of every code in the source. */
  newtype uint8 = x: int | 0 <= x < 0x100

  // Text attributes.
  const OpReset: uint8 := 0
  const OpBold: uint8 := 1
  const OpFaint: uint8 := 2
  const OpItalic: uint8 := 3
  const OpUnderline: uint8 := 4
  const OpSlowBlink: uint8 := 5
  const OpFastBlink: uint8 := 6
  const OpReverse: uint8 := 7
  const OpConceal: uint8 := 8
  const OpStrikethrough: uint8 := 9

  // Standard foreground colours.
  const FgBlack: uint8 := 30
  const FgRed: uint8 := 31
  const FgGreen: uint8 := 32
  const FgYellow: uint8 := 33
  const FgBlue: uint8 := 34
  const FgMagenta: uint8 := 35
  const FgCyan: uint8 := 36
  const FgWhite: uint8 := 37

  // Gray and bright foreground colours.
  const FgGray: uint8 := 90
  const FgBrightRed: uint8 := 91
  const FgBrightGreen: uint8 := 92
  const FgBrightYellow: uint8 := 93
  const FgBrightBlue: uint8 := 94
  const FgBrightMagenta: uint8 := 95
  const FgBrightCyan: uint8 := 96
  const FgBrightWhite: uint8 := 97

  // Standard background colours.
  const BgBlack: uint8 := 40
  const BgRed: uint8 := 41
  const BgGreen: uint8 := 42
  const BgYellow: uint8 := 43
  const BgBlue: uint8 := 44
  const BgMagenta: uint8 := 45
  const BgCyan: uint8 := 46
  const BgWhite: uint8 := 47

  // Gray and bright background colours.
  const BgGray: uint8 := 100
  const BgBrightRed: uint8 := 101
  const BgBrightGreen: uint8 := 102
  const BgBrightYellow: uint8 := 103
  const BgBrightBlue: uint8 := 104
  const BgBrightMagenta: uint8 := 105
  const BgBrightCyan: uint8 := 106
  const BgBrightWhite: uint8 := 107

  /** The nine text attributes, bold to strikethrough, in declaration order. */
  const TextAttributes: seq<uint8> :=
    [OpBold, OpFaint, OpItalic, OpUnderline, OpSlowBlink,
     OpFastBlink, OpReverse, OpConceal, OpStrikethrough]

  /** Black, red, green, yellow, blue, magenta, cyan, white. */
  const StandardForegrounds: seq<uint8> :=
    [FgBlack, FgRed, FgGreen, FgYellow, FgBlue, FgMagenta, FgCyan, FgWhite]

  /** Gray, then bright red, green, yellow, blue, magenta, cyan, white. */
  const BrightForegrounds: seq<uint8> :=
    [FgGray, FgBrightRed, FgBrightGreen, FgBrightYellow,
     FgBrightBlue, FgBrightMagenta, FgBrightCyan, FgBrightWhite]

  const StandardBackgrounds: seq<uint8> :=
    [BgBlack, BgRed, BgGreen, BgYellow, BgBlue, BgMagenta, BgCyan, BgWhite]

  const BrightBackgrounds: seq<uint8> :=
    [BgGray, BgBrightRed, BgBrightGreen, BgBrightYellow,
     BgBrightBlue, BgBrightMagenta, BgBrightCyan, BgBrightWhite]

  /** The 41 codes that the style mutators push, in ascending order. */
  const MutatorCodes: seq<uint8> :=
    TextAttributes + StandardForegrounds + StandardBackgrounds
    + BrightForegrounds + BrightBackgrounds

  /** `s` holds the consecutive values `first`, `first + 1`, ... */
  predicate IsRun(s: seq<uint8>, first: int) {
    forall i :: 0 <= i < |s| ==> s[i] as int == first + i
  }

  predicate StrictlyIncreasing(s: seq<uint8>) {
    forall i :: 0 < i < |s| ==> s[i - 1] < s[i]
  }

  predicate PairwiseDistinct(s: seq<uint8>) {
    forall i, j :: 0 <= i < j < |s| ==> s[i] != s[j]
  }

  /** Reset is 0 and the text attributes are 1..9. */
  lemma TextAttributeCodes()
    ensures OpReset == 0
    ensures |TextAttributes| == 9 && IsRun(TextAttributes, 1)
  {
  }

  /** The standard foregrounds are 30..37. */
  lemma StandardForegroundCodes()
    ensures |StandardForegrounds| == 8 && IsRun(StandardForegrounds, 30)
  {
  }

  /** Gray and the bright foregrounds are 90..97. */
  lemma BrightForegroundCodes()
    ensures |BrightForegrounds| == 8 && IsRun(BrightForegrounds, 90)
  {
  }

  /** Each standard background is its foreground plus 10, so 40..47. */
  lemma StandardBackgroundCodes()
    ensures |StandardBackgrounds| == |StandardForegrounds|
    ensures forall i :: 0 <= i < |StandardBackgrounds| ==>
      StandardBackgrounds[i] as int == StandardForegrounds[i] as int + 10
    ensures IsRun(StandardBackgrounds, 40)
  {
  }

  /** Each gray or bright background is its foreground plus 10, so 100..107. */
  lemma BrightBackgroundCodes()
    ensures |BrightBackgrounds| == |BrightForegrounds|
    ensures forall i :: 0 <= i < |BrightBackgrounds| ==>
      BrightBackgrounds[i] as int == BrightForegrounds[i] as int + 10
    ensures IsRun(BrightBackgrounds, 100)
  {
  }

  /** Ordering between neighbours extends to every pair. */
  lemma {:induction false} StrictlyIncreasingIsDistinct(s: seq<uint8>)
    requires StrictlyIncreasing(s)
    ensures forall i, j :: 0 <= i < j < |s| ==> s[i] < s[j]
    ensures PairwiseDistinct(s)
  {
    if |s| > 1 {
      var t := s[..|s| - 1];
      assert StrictlyIncreasing(t);
      StrictlyIncreasingIsDistinct(t);
      forall i, j | 0 <= i < j < |s| ensures s[i] < s[j] {
        if j < |s| - 1 {
          assert s[i] == t[i] && s[j] == t[j];
        } else if i < j - 1 {
          assert s[i] == t[i] && t[i] < t[j - 1] && t[j - 1] == s[j - 1];
        }
      }
    }
  }

  lemma RunIsStrictlyIncreasing(s: seq<uint8>, first: int)
    requires IsRun(s, first)
    ensures StrictlyIncreasing(s)
  {
  }

  /** Two increasing runs, the second starting above the end of the first. */
  lemma ConcatIsStrictlyIncreasing(a: seq<uint8>, b: seq<uint8>)
    requires StrictlyIncreasing(a) && StrictlyIncreasing(b)
    requires |a| > 0 && |b| > 0 && a[|a| - 1] < b[0]
    ensures StrictlyIncreasing(a + b)
  {
    var ab := a + b;
    forall i | 0 < i < |ab| ensures ab[i - 1] < ab[i] {
      if i < |a| {
        assert ab[i - 1] == a[i - 1] && ab[i] == a[i];
      } else if i == |a| {
        assert ab[i - 1] == a[|a| - 1] && ab[i] == b[0];
      } else {
        assert ab[i - 1] == b[i - 1 - |a|] && ab[i] == b[i - |a|];
      }
    }
  }

  /** There are 41 mutator codes, all different, none of them the reset
      code, and each one fits in a byte. */
  lemma MutatorCodesDistinct()
    ensures |MutatorCodes| == 41
    ensures PairwiseDistinct(MutatorCodes)
    ensures OpReset !in MutatorCodes
    ensures forall c :: c in MutatorCodes ==> 1 <= c as int <= 255
  {
    TextAttributeCodes();
    StandardForegroundCodes();
    StandardBackgroundCodes();
    BrightForegroundCodes();
    BrightBackgroundCodes();
    RunIsStrictlyIncreasing(TextAttributes, 1);
    RunIsStrictlyIncreasing(StandardForegrounds, 30);
    RunIsStrictlyIncreasing(StandardBackgrounds, 40);
    RunIsStrictlyIncreasing(BrightForegrounds, 90);
    RunIsStrictlyIncreasing(BrightBackgrounds, 100);
    var s1 := TextAttributes + StandardForegrounds;
    ConcatIsStrictlyIncreasing(TextAttributes, StandardForegrounds);
    var s2 := s1 + StandardBackgrounds;
    ConcatIsStrictlyIncreasing(s1, StandardBackgrounds);
    var s3 := s2 + BrightForegrounds;
    ConcatIsStrictlyIncreasing(s2, BrightForegrounds);
    ConcatIsStrictlyIncreasing(s3, BrightBackgrounds);
    assert MutatorCodes == s3 + BrightBackgrounds;
    StrictlyIncreasingIsDistinct(MutatorCodes);
    assert MutatorCodes[0] == OpBold;
  }
}
