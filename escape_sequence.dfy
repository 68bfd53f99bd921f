/** The "Set Graphics Mode" escape sequence (src/escape_sequence.rs): the
    Select Graphic Rendition control function of ECMA-48, section 8.3.117,
    written as the Control Sequence Introducer `ESC [` (section 5.4), the
    parameters in decimal separated by `;`, and the final byte `m`. */
module EscapeSequences {

  import opened Consts
  import opened Wrappers
  import opened Decimal

  /** The escape character, 0x1B. */
  const Esc: char := 27 as char

  /** The Control Sequence Introducer `ESC [`. */
  const Csi: string := [Esc, '[']

  /** An escape sequence for the terminal; only Set Graphics Mode exists.
      `sgm!(v)` is the constructor applied to `v`. */
  datatype EscapeSequence = SetGraphicsMode(codes: seq<uint8>)

  /** `reset!()`: Set Graphics Mode with the single code OP_RESET, which
      renders as `ESC [ 0 m`. */
  function Reset(): (e: EscapeSequence)
    ensures e.codes == [OpReset]
    ensures Render(e) == ResetText
  {
    SetGraphicsMode([OpReset])
  }

  /** The text of `reset!()`: `ESC [ 0 m`. */
  const ResetText: string := Csi + "0m"

  /** The parameter text: the decimal form of each code, in the given order,
      with `;` between neighbours and nothing for an empty list. */
  function Join(v: seq<uint8>): string {
    if |v| == 0 then ""
    else if |v| == 1 then ToDecimal(v[0] as nat)
    else ToDecimal(v[0] as nat) + ";" + Join(v[1..])
  }

  /** What the Display implementation writes for `e`. */
  function Render(e: EscapeSequence): (r: string)
    ensures |r| >= 3 && r[..2] == Csi && r[|r| - 1] == 'm'
  {
    Csi + Join(e.codes) + "m"
  }

  /** Display for EscapeSequence: builds the parameter text step by step,
      first code on its own, then `;` and the next code for each of the
      rest, and wraps it in `ESC [` ... `m`. */
  method Format(e: EscapeSequence) returns (out: string)
    ensures out == Render(e)
  {
    var v := e.codes;
    var s := "";
    if |v| > 0 {
      s := s + ToDecimal(v[0] as nat);
      var i := 1;
      while i < |v|
        invariant 1 <= i <= |v|
        invariant s == Join(v[..i])
      {
        s := s + ";";
        s := s + ToDecimal(v[i] as nat);
        JoinAppend(v[..i], [v[i]]);
        assert v[..i] + [v[i]] == v[..i + 1];
        i := i + 1;
      }
      assert v[..i] == v;
    }
    out := Csi + s + "m";
  }

  // ----- Structure of the parameter text -----

  /** Number of occurrences of `c` in `s`. */
  function Count(s: string, c: char): nat {
    if s == "" then 0 else (if s[0] == c then 1 else 0) + Count(s[1..], c)
  }

  lemma {:induction false} CountConcat(a: string, b: string, c: char)
    ensures Count(a + b, c) == Count(a, c) + Count(b, c)
  {
    if a != "" {
      var ab := a + b;
      assert ab != "" && ab[0] == a[0] && ab[1..] == a[1..] + b;
      CountConcat(a[1..], b, c);
    } else {
      assert a + b == b;
    }
  }

  lemma {:induction false} CountAbsent(s: string, c: char)
    requires c !in s
    ensures Count(s, c) == 0
  {
    if s != "" {
      CountAbsent(s[1..], c);
    }
  }

  lemma DecimalHasNoSeparator(n: nat)
    ensures ';' !in ToDecimal(n) && 'm' !in ToDecimal(n)
  {
  }

  /** Joining two non-empty lists puts exactly one `;` between their texts. */
  lemma {:induction false} JoinAppend(a: seq<uint8>, b: seq<uint8>)
    requires |a| > 0 && |b| > 0
    ensures Join(a + b) == Join(a) + ";" + Join(b)
  {
    if |a| > 1 {
      assert (a + b)[1..] == a[1..] + b;
      JoinAppend(a[1..], b);
    } else {
      assert (a + b)[1..] == b;
    }
  }

  /** The parameter text of a non-empty list holds `|v| - 1` separators. */
  lemma {:induction false} JoinSeparators(v: seq<uint8>)
    requires |v| > 0
    ensures Count(Join(v), ';') == |v| - 1
  {
    DecimalHasNoSeparator(v[0] as nat);
    CountAbsent(ToDecimal(v[0] as nat), ';');
    if |v| > 1 {
      JoinSeparators(v[1..]);
      CountConcat(ToDecimal(v[0] as nat) + ";", Join(v[1..]), ';');
      CountConcat(ToDecimal(v[0] as nat), ";", ';');
    }
  }

  /** The parameter text holds neither the final byte `m` nor any character
      other than digits and `;`. */
  lemma {:induction false} JoinAlphabet(v: seq<uint8>)
    ensures forall i :: 0 <= i < |Join(v)| ==> IsDigit(Join(v)[i]) || Join(v)[i] == ';'
    ensures 'm' !in Join(v)
    ensures |v| > 0 <==> |Join(v)| > 0
  {
    if |v| > 1 {
      JoinAlphabet(v[1..]);
    }
  }

  // ----- Reading an escape sequence back -----

  /** Splits `s` at every `;`; `k` separators give `k + 1` pieces. */
  function Split(s: string): (parts: seq<string>)
    ensures |parts| >= 1
  {
    if s == "" then [""]
    else if s[0] == ';' then [""] + Split(s[1..])
    else
      var rest := Split(s[1..]);
      [[s[0]] + rest[0]] + rest[1..]
  }

  lemma {:induction false} SplitPiece(d: string)
    requires ';' !in d
    ensures Split(d) == [d]
  {
    if d != "" {
      assert d[0] != ';' && ';' !in d[1..];
      SplitPiece(d[1..]);
      assert [d[0]] + d[1..] == d;
    }
  }

  lemma {:induction false} SplitSeparated(d: string, rest: string)
    requires ';' !in d
    ensures Split(d + ";" + rest) == [d] + Split(rest)
  {
    if d != "" {
      var x := d + ";" + rest;
      assert x[0] == d[0] != ';' && ';' !in d[1..];
      assert x[1..] == d[1..] + ";" + rest;
      SplitSeparated(d[1..], rest);
      assert [d[0]] + d[1..] == d;
    } else {
      assert (d + ";" + rest)[1..] == rest;
    }
  }

  /** The decimal text of each code. */
  function Decimals(v: seq<uint8>): (ds: seq<string>)
    ensures |ds| == |v|
    ensures forall i :: 0 <= i < |v| ==> ds[i] == ToDecimal(v[i] as nat)
  {
    if v == [] then [] else [ToDecimal(v[0] as nat)] + Decimals(v[1..])
  }

  /** Splitting the parameter text of a non-empty list at `;` gives back
      the decimal text of every code, in input order, one piece per code:
      nothing is sorted, merged or dropped. */
  lemma {:induction false} SplitJoin(v: seq<uint8>)
    requires |v| > 0
    ensures Split(Join(v)) == Decimals(v)
  {
    DecimalHasNoSeparator(v[0] as nat);
    if |v| == 1 {
      SplitPiece(ToDecimal(v[0] as nat));
    } else {
      SplitSeparated(ToDecimal(v[0] as nat), Join(v[1..]));
      SplitJoin(v[1..]);
    }
  }

  /** Parses every piece as a code; fails if any piece is not one. */
  function ParseAll(parts: seq<string>): Option<seq<uint8>> {
    if parts == [] then Some([])
    else match ParseCode(parts[0])
      case None => None
      case Some(c) =>
        match ParseAll(parts[1..])
        case None => None
        case Some(cs) => Some([c] + cs)
  }

  /** Reads the parameter text back into codes; empty text is no codes. */
  function ParseParameters(body: string): Option<seq<uint8>> {
    if body == "" then Some([]) else ParseAll(Split(body))
  }

  /** Reads a rendered Set Graphics Mode sequence back. */
  function Parse(s: string): Option<EscapeSequence> {
    if |s| >= 3 && s[..2] == Csi && s[|s| - 1] == 'm' then
      match ParseParameters(s[2..|s| - 1])
      case None => None
      case Some(v) => Some(SetGraphicsMode(v))
    else None
  }

  lemma {:induction false} ParseAllDecimals(v: seq<uint8>)
    ensures ParseAll(Decimals(v)) == Some(v)
  {
    if v != [] {
      ParseCodeIff(ToDecimal(v[0] as nat), v[0]);
      assert Decimals(v)[1..] == Decimals(v[1..]);
      ParseAllDecimals(v[1..]);
      assert [v[0]] + v[1..] == v;
    }
  }

  /** The parameter text determines the codes. */
  lemma ParametersRoundTrip(v: seq<uint8>)
    ensures ParseParameters(Join(v)) == Some(v)
  {
    JoinAlphabet(v);
    if v != [] {
      SplitJoin(v);
      ParseAllDecimals(v);
    }
  }

  /** Reading back what Display wrote recovers the sequence. */
  lemma RenderRoundTrip(e: EscapeSequence)
    ensures Parse(Render(e)) == Some(e)
  {
    var r := Render(e);
    assert r[2..|r| - 1] == Join(e.codes);
    ParametersRoundTrip(e.codes);
  }

  /** Different code lists never render to the same text. */
  lemma RenderInjective(a: EscapeSequence, b: EscapeSequence)
    requires Render(a) == Render(b)
    ensures a == b
  {
    RenderRoundTrip(a);
    RenderRoundTrip(b);
  }

  // ----- The rendered forms the source documents -----

  /** No codes: nothing between `ESC [` and `m`, not even a separator. */
  lemma RenderEmpty()
    ensures Render(SetGraphicsMode([])) == Csi + "m"
  {
  }

  /** Codes present: `ESC [`, then text whose `;`-separated pieces are the
      decimal forms of the codes in order, with `|v| - 1` separators, then
      `m`. */
  lemma RenderNonEmpty(v: seq<uint8>)
    requires |v| > 0
    ensures var r := Render(SetGraphicsMode(v));
      r == Csi + Join(v) + "m" && Split(Join(v)) == Decimals(v)
      && Count(Join(v), ';') == |v| - 1
  {
    SplitJoin(v);
    JoinSeparators(v);
  }

  /** `sgm!(vec![OP_BOLD, FG_BLACK, BG_WHITE])` renders as `ESC [1;30;47m`. */
  lemma RenderBoldBlackOnWhite()
    ensures Render(SetGraphicsMode([OpBold, FgBlack, BgWhite])) == Csi + "1;30;47m"
  {
    var v := [OpBold, FgBlack, BgWhite];
    TwoDigits(30);
    TwoDigits(47);
    assert v[1..] == [FgBlack, BgWhite] && v[1..][1..] == [BgWhite];
    assert Join(v[1..][1..]) == "47";
    assert Join(v[1..]) == "30;47";
    assert Join(v) == "1;30;47";
  }
}
