/** Styled terminal text (src/style.rs): a text payload and the list of
    Select Graphic Rendition codes requested for it, in call order. */
module Styles {

  import opened Consts
  import opened Wrappers
  import opened Decimal
  import opened EscapeSequences

  /** A text together with the codes to apply to it. The text is fixed at
      construction; the codes grow by one at the end with each mutator call,
      duplicates and conflicting codes included. */
  class Style {
    const text: string
    var values: seq<uint8>

    /** `Style::new`: the given, already formatted, text and no codes. */
    constructor (text: string)
      ensures this.text == text && values == []
    {
      this.text := text;
      values := [];
    }

    /** Appends one code at the end of the list. */
    method Push(code: uint8)
      modifies this
      ensures values == old(values) + [code]
    {
      values := values + [code];
    }

    /** Appends the bold code. */
    method Bold()
      modifies this
      ensures values == old(values) + [Consts.OpBold]
    {
      Push(Consts.OpBold);
    }

    /** Appends the faint code. */
    method Faint()
      modifies this
      ensures values == old(values) + [Consts.OpFaint]
    {
      Push(Consts.OpFaint);
    }

    /** Appends the italic code. */
    method Italic()
      modifies this
      ensures values == old(values) + [Consts.OpItalic]
    {
      Push(Consts.OpItalic);
    }

    /** Appends the underline code. */
    method Underline()
      modifies this
      ensures values == old(values) + [Consts.OpUnderline]
    {
      Push(Consts.OpUnderline);
    }

    /** Appends the slow blink code. */
    method SlowBlink()
      modifies this
      ensures values == old(values) + [Consts.OpSlowBlink]
    {
      Push(Consts.OpSlowBlink);
    }

    /** Appends the fast blink code. */
    method FastBlink()
      modifies this
      ensures values == old(values) + [Consts.OpFastBlink]
    {
      Push(Consts.OpFastBlink);
    }

    /** Appends the reverse code. */
    method Reverse()
      modifies this
      ensures values == old(values) + [Consts.OpReverse]
    {
      Push(Consts.OpReverse);
    }

    /** Appends the conceal code. */
    method Conceal()
      modifies this
      ensures values == old(values) + [Consts.OpConceal]
    {
      Push(Consts.OpConceal);
    }

    /** Appends the strikethrough code. */
    method Strikethrough()
      modifies this
      ensures values == old(values) + [Consts.OpStrikethrough]
    {
      Push(Consts.OpStrikethrough);
    }

    /** Appends the foreground black code. */
    method Black()
      modifies this
      ensures values == old(values) + [Consts.FgBlack]
    {
      Push(Consts.FgBlack);
    }

    /** Appends the foreground red code. */
    method Red()
      modifies this
      ensures values == old(values) + [Consts.FgRed]
    {
      Push(Consts.FgRed);
    }

    /** Appends the foreground green code. */
    method Green()
      modifies this
      ensures values == old(values) + [Consts.FgGreen]
    {
      Push(Consts.FgGreen);
    }

    /** Appends the foreground yellow code. */
    method Yellow()
      modifies this
      ensures values == old(values) + [Consts.FgYellow]
    {
      Push(Consts.FgYellow);
    }

    /** Appends the foreground blue code. */
    method Blue()
      modifies this
      ensures values == old(values) + [Consts.FgBlue]
    {
      Push(Consts.FgBlue);
    }

    /** Appends the foreground magenta code. */
    method Magenta()
      modifies this
      ensures values == old(values) + [Consts.FgMagenta]
    {
      Push(Consts.FgMagenta);
    }

    /** Appends the foreground cyan code. */
    method Cyan()
      modifies this
      ensures values == old(values) + [Consts.FgCyan]
    {
      Push(Consts.FgCyan);
    }

    /** Appends the foreground white code. */
    method White()
      modifies this
      ensures values == old(values) + [Consts.FgWhite]
    {
      Push(Consts.FgWhite);
    }

    /** Appends the foreground gray code. */
    method Gray()
      modifies this
      ensures values == old(values) + [Consts.FgGray]
    {
      Push(Consts.FgGray);
    }

    /** Appends the foreground bright red code. */
    method BrightRed()
      modifies this
      ensures values == old(values) + [Consts.FgBrightRed]
    {
      Push(Consts.FgBrightRed);
    }

    /** Appends the foreground bright green code. */
    method BrightGreen()
      modifies this
      ensures values == old(values) + [Consts.FgBrightGreen]
    {
      Push(Consts.FgBrightGreen);
    }

    /** Appends the foreground bright yellow code. */
    method BrightYellow()
      modifies this
      ensures values == old(values) + [Consts.FgBrightYellow]
    {
      Push(Consts.FgBrightYellow);
    }

    /** Appends the foreground bright blue code. */
    method BrightBlue()
      modifies this
      ensures values == old(values) + [Consts.FgBrightBlue]
    {
      Push(Consts.FgBrightBlue);
    }

    /** Appends the foreground bright magenta code. */
    method BrightMagenta()
      modifies this
      ensures values == old(values) + [Consts.FgBrightMagenta]
    {
      Push(Consts.FgBrightMagenta);
    }

    /** Appends the foreground bright cyan code. */
    method BrightCyan()
      modifies this
      ensures values == old(values) + [Consts.FgBrightCyan]
    {
      Push(Consts.FgBrightCyan);
    }

    /** Appends the foreground bright white code. */
    method BrightWhite()
      modifies this
      ensures values == old(values) + [Consts.FgBrightWhite]
    {
      Push(Consts.FgBrightWhite);
    }

    /** Appends the background black code. */
    method BgBlack()
      modifies this
      ensures values == old(values) + [Consts.BgBlack]
    {
      Push(Consts.BgBlack);
    }

    /** Appends the background red code. */
    method BgRed()
      modifies this
      ensures values == old(values) + [Consts.BgRed]
    {
      Push(Consts.BgRed);
    }

    /** Appends the background green code. */
    method BgGreen()
      modifies this
      ensures values == old(values) + [Consts.BgGreen]
    {
      Push(Consts.BgGreen);
    }

    /** Appends the background yellow code. */
    method BgYellow()
      modifies this
      ensures values == old(values) + [Consts.BgYellow]
    {
      Push(Consts.BgYellow);
    }

    /** Appends the background blue code. */
    method BgBlue()
      modifies this
      ensures values == old(values) + [Consts.BgBlue]
    {
      Push(Consts.BgBlue);
    }

    /** Appends the background magenta code. */
    method BgMagenta()
      modifies this
      ensures values == old(values) + [Consts.BgMagenta]
    {
      Push(Consts.BgMagenta);
    }

    /** Appends the background cyan code. */
    method BgCyan()
      modifies this
      ensures values == old(values) + [Consts.BgCyan]
    {
      Push(Consts.BgCyan);
    }

    /** Appends the background white code. */
    method BgWhite()
      modifies this
      ensures values == old(values) + [Consts.BgWhite]
    {
      Push(Consts.BgWhite);
    }

    /** Appends the background gray code. */
    method BgGray()
      modifies this
      ensures values == old(values) + [Consts.BgGray]
    {
      Push(Consts.BgGray);
    }

    /** Appends the background bright red code. */
    method BgBrightRed()
      modifies this
      ensures values == old(values) + [Consts.BgBrightRed]
    {
      Push(Consts.BgBrightRed);
    }

    /** Appends the background bright green code. */
    method BgBrightGreen()
      modifies this
      ensures values == old(values) + [Consts.BgBrightGreen]
    {
      Push(Consts.BgBrightGreen);
    }

    /** Appends the background bright yellow code. */
    method BgBrightYellow()
      modifies this
      ensures values == old(values) + [Consts.BgBrightYellow]
    {
      Push(Consts.BgBrightYellow);
    }

    /** Appends the background bright blue code. */
    method BgBrightBlue()
      modifies this
      ensures values == old(values) + [Consts.BgBrightBlue]
    {
      Push(Consts.BgBrightBlue);
    }

    /** Appends the background bright magenta code. */
    method BgBrightMagenta()
      modifies this
      ensures values == old(values) + [Consts.BgBrightMagenta]
    {
      Push(Consts.BgBrightMagenta);
    }

    /** Appends the background bright cyan code. */
    method BgBrightCyan()
      modifies this
      ensures values == old(values) + [Consts.BgBrightCyan]
    {
      Push(Consts.BgBrightCyan);
    }

    /** Appends the background bright white code. */
    method BgBrightWhite()
      modifies this
      ensures values == old(values) + [Consts.BgBrightWhite]
    {
      Push(Consts.BgBrightWhite);
    }

    /** Display for Style: the Set Graphics Mode sequence of the codes, the
        text unchanged, then the reset sequence. The text can be split back
        into the codes and the payload, and with no codes the prefix is the
        bare `ESC [ m`. */
    function ToString(): (r: string)
      reads this
      ensures Unstyle(r) == Some((values, text))
      ensures |r| >= 3 && r[..2] == Csi && r[|r| - 4..] == ResetText
      ensures values == [] ==> r == Csi + "m" + text + ResetText
    {
      UnstyleRoundTrip(values, text);
      Render(SetGraphicsMode(values)) + text + Render(Reset())
    }

    /** The same output, produced by running the escape-sequence writer
        for the codes and for the reset sequence. */
    method Display() returns (out: string)
      ensures out == ToString()
    {
      var prefix := Format(SetGraphicsMode(values));
      var suffix := Format(Reset());
      out := prefix + text + suffix;
    }
  }

  // ----- Reading a styled string back -----

  /** Position of the first `c` in `s`, or `|s|` if there is none. */
  function IndexOf(s: string, c: char): (k: nat)
    ensures k <= |s|
    ensures k < |s| ==> s[k] == c
    ensures forall i :: 0 <= i < k ==> s[i] != c
  {
    if s == "" then 0 else if s[0] == c then 0 else 1 + IndexOf(s[1..], c)
  }

  /** Splits a styled string into its codes and its text: `ESC [`, the
      parameters up to the first `m`, the text, and the reset sequence at
      the very end. */
  function Unstyle(s: string): Option<(seq<uint8>, string)> {
    if |s| < 2 || s[..2] != Csi then None
    else
      var rest := s[2..];
      var k := IndexOf(rest, 'm');
      if k == |rest| then None
      else
        var tail := rest[k + 1..];
        if |tail| < 4 || tail[|tail| - 4..] != ResetText then None
        else
          match ParseParameters(rest[..k])
          case None => None
          case Some(codes) => Some((codes, tail[..|tail| - 4]))
  }

  /** The first `c` in `x + [c] + y` is the one after `x` when `x` has none. */
  lemma FirstAfter(x: string, y: string, c: char)
    requires c !in x
    ensures IndexOf(x + [c] + y, c) == |x|
  {
    var s := x + [c] + y;
    assert s[|x|] == c;
    assert forall i :: 0 <= i < |x| ==> s[i] == x[i];
  }

  /** Splitting `ESC [` ++ body ++ `m` ++ text ++ `ESC [0m` finds the body
      and the text, when the body has no `m`. */
  lemma UnstyleParts(body: string, text: string)
    requires 'm' !in body
    ensures Unstyle(Csi + (body + "m" + (text + ResetText))) ==
      match ParseParameters(body)
      case None => None
      case Some(codes) => Some((codes, text))
  {
    var tail := text + ResetText;
    var rest := body + "m" + tail;
    var r := Csi + rest;
    assert r[..2] == Csi && r[2..] == rest;
    FirstAfter(body, tail, 'm');
    assert rest[..|body|] == body;
    assert rest[|body| + 1..] == tail;
    assert tail[|tail| - 4..] == ResetText && tail[..|tail| - 4] == text;
  }

  /** A styled string splits back into exactly the codes and text it was
      made from, whatever the text holds. */
  lemma UnstyleRoundTrip(values: seq<uint8>, text: string)
    ensures var r := Render(SetGraphicsMode(values)) + text + Render(Reset());
      Unstyle(r) == Some((values, text))
  {
    var body := Join(values);
    assert Render(SetGraphicsMode(values)) + text + Render(Reset())
      == Csi + (body + "m" + (text + ResetText));
    JoinAlphabet(values);
    UnstyleParts(body, text);
    ParametersRoundTrip(values);
  }

  /** Two styles render alike only if they hold the same codes and text. */
  lemma ToStringInjective(a: Style, b: Style)
    requires a.ToString() == b.ToString()
    ensures a.values == b.values && a.text == b.text
  {
  }

  // ----- The documented examples -----

  lemma RenderBlackUnderline()
    ensures Render(SetGraphicsMode([FgBlack, OpUnderline])) == Csi + "30;4m"
  {
    var v := [FgBlack, OpUnderline];
    TwoDigits(30);
    assert v[1..] == [OpUnderline];
    assert Join(v[1..]) == "4";
    assert Join(v) == "30;4";
  }

  lemma RenderBoldUnderlineRedOnGreen()
    ensures Render(SetGraphicsMode([OpBold, OpUnderline, FgRed, BgGreen])) == Csi + "1;4;31;42m"
  {
    var v := [OpBold, OpUnderline, FgRed, BgGreen];
    TwoDigits(31);
    TwoDigits(42);
    assert v[1..] == [OpUnderline, FgRed, BgGreen];
    assert v[1..][1..] == [FgRed, BgGreen];
    assert v[1..][1..][1..] == [BgGreen];
    assert Join(v[1..][1..][1..]) == "42";
    assert Join(v[1..][1..]) == "31;42";
    assert Join(v[1..]) == "4;31;42";
    assert Join(v) == "1;4;31;42";
  }

  /** `Style::new("Hello, world!").black().underline()` renders as
      `ESC[30;4mHello, world!ESC[0m`. */
  method HelloWorld() returns (out: string)
    ensures out == Csi + "30;4m" + "Hello, world!" + ResetText
  {
    var s := new Style("Hello, world!");
    s.Black();
    s.Underline();
    out := s.Display();
    assert s.values == [FgBlack, OpUnderline];
    RenderBlackUnderline();
  }

  /** A style with no codes keeps the bare `ESC [ m` prefix. */
  method Unstyled() returns (out: string)
    ensures out == Csi + "m" + "test" + ResetText
  {
    var s := new Style("test");
    out := s.Display();
  }

  /** Chained mutators record their codes in call order, and the rendered
      text lists them in that order. */
  method MultiStyle() returns (values: seq<uint8>, out: string)
    ensures values == [OpBold, OpUnderline, FgRed, BgGreen]
    ensures out == Csi + "1;4;31;42m" + "test" + ResetText
  {
    var s := new Style("test");
    s.Bold();
    s.Underline();
    s.Red();
    s.BgGreen();
    values := s.values;
    out := s.Display();
    assert values == [OpBold, OpUnderline, FgRed, BgGreen];
    RenderBoldUnderlineRedOnGreen();
  }

  /** Calling the same mutator twice appends its code twice. */
  method RepeatedMutator() returns (values: seq<uint8>)
    ensures values == [FgRed, FgBlue, FgRed]
  {
    var s := new Style("test");
    s.Red();
    s.Blue();
    s.Red();
    values := s.values;
  }

  /** Each text attribute mutator, applied to a fresh style, leaves exactly its own
      code. */
  method FreshTextAttributes() returns (results: seq<seq<uint8>>)
    ensures results == [[Consts.OpBold], [Consts.OpFaint], [Consts.OpItalic], [Consts.OpUnderline], [Consts.OpSlowBlink], [Consts.OpFastBlink], [Consts.OpReverse], [Consts.OpConceal], [Consts.OpStrikethrough]]
  {
    var s: Style;
    s := new Style("test");
    s.Bold();
    var v0 := s.values;
    assert v0 == [Consts.OpBold];
    s := new Style("test");
    s.Faint();
    var v1 := s.values;
    assert v1 == [Consts.OpFaint];
    s := new Style("test");
    s.Italic();
    var v2 := s.values;
    assert v2 == [Consts.OpItalic];
    s := new Style("test");
    s.Underline();
    var v3 := s.values;
    assert v3 == [Consts.OpUnderline];
    s := new Style("test");
    s.SlowBlink();
    var v4 := s.values;
    assert v4 == [Consts.OpSlowBlink];
    s := new Style("test");
    s.FastBlink();
    var v5 := s.values;
    assert v5 == [Consts.OpFastBlink];
    s := new Style("test");
    s.Reverse();
    var v6 := s.values;
    assert v6 == [Consts.OpReverse];
    s := new Style("test");
    s.Conceal();
    var v7 := s.values;
    assert v7 == [Consts.OpConceal];
    s := new Style("test");
    s.Strikethrough();
    var v8 := s.values;
    assert v8 == [Consts.OpStrikethrough];
    results := [v0, v1, v2, v3, v4, v5, v6, v7, v8];
  }

  /** Each standard foreground mutator, applied to a fresh style, leaves exactly its own
      code. */
  method FreshStandardForegrounds() returns (results: seq<seq<uint8>>)
    ensures results == [[Consts.FgBlack], [Consts.FgRed], [Consts.FgGreen], [Consts.FgYellow], [Consts.FgBlue], [Consts.FgMagenta], [Consts.FgCyan], [Consts.FgWhite]]
  {
    var s: Style;
    s := new Style("test");
    s.Black();
    var v0 := s.values;
    assert v0 == [Consts.FgBlack];
    s := new Style("test");
    s.Red();
    var v1 := s.values;
    assert v1 == [Consts.FgRed];
    s := new Style("test");
    s.Green();
    var v2 := s.values;
    assert v2 == [Consts.FgGreen];
    s := new Style("test");
    s.Yellow();
    var v3 := s.values;
    assert v3 == [Consts.FgYellow];
    s := new Style("test");
    s.Blue();
    var v4 := s.values;
    assert v4 == [Consts.FgBlue];
    s := new Style("test");
    s.Magenta();
    var v5 := s.values;
    assert v5 == [Consts.FgMagenta];
    s := new Style("test");
    s.Cyan();
    var v6 := s.values;
    assert v6 == [Consts.FgCyan];
    s := new Style("test");
    s.White();
    var v7 := s.values;
    assert v7 == [Consts.FgWhite];
    results := [v0, v1, v2, v3, v4, v5, v6, v7];
  }

  /** Each gray and bright foreground mutator, applied to a fresh style, leaves exactly its own
      code. */
  method FreshBrightForegrounds() returns (results: seq<seq<uint8>>)
    ensures results == [[Consts.FgGray], [Consts.FgBrightRed], [Consts.FgBrightGreen], [Consts.FgBrightYellow], [Consts.FgBrightBlue], [Consts.FgBrightMagenta], [Consts.FgBrightCyan], [Consts.FgBrightWhite]]
  {
    var s: Style;
    s := new Style("test");
    s.Gray();
    var v0 := s.values;
    assert v0 == [Consts.FgGray];
    s := new Style("test");
    s.BrightRed();
    var v1 := s.values;
    assert v1 == [Consts.FgBrightRed];
    s := new Style("test");
    s.BrightGreen();
    var v2 := s.values;
    assert v2 == [Consts.FgBrightGreen];
    s := new Style("test");
    s.BrightYellow();
    var v3 := s.values;
    assert v3 == [Consts.FgBrightYellow];
    s := new Style("test");
    s.BrightBlue();
    var v4 := s.values;
    assert v4 == [Consts.FgBrightBlue];
    s := new Style("test");
    s.BrightMagenta();
    var v5 := s.values;
    assert v5 == [Consts.FgBrightMagenta];
    s := new Style("test");
    s.BrightCyan();
    var v6 := s.values;
    assert v6 == [Consts.FgBrightCyan];
    s := new Style("test");
    s.BrightWhite();
    var v7 := s.values;
    assert v7 == [Consts.FgBrightWhite];
    results := [v0, v1, v2, v3, v4, v5, v6, v7];
  }

  /** Each standard background mutator, applied to a fresh style, leaves exactly its own
      code. */
  method FreshStandardBackgrounds() returns (results: seq<seq<uint8>>)
    ensures results == [[Consts.BgBlack], [Consts.BgRed], [Consts.BgGreen], [Consts.BgYellow], [Consts.BgBlue], [Consts.BgMagenta], [Consts.BgCyan], [Consts.BgWhite]]
  {
    var s: Style;
    s := new Style("test");
    s.BgBlack();
    var v0 := s.values;
    assert v0 == [Consts.BgBlack];
    s := new Style("test");
    s.BgRed();
    var v1 := s.values;
    assert v1 == [Consts.BgRed];
    s := new Style("test");
    s.BgGreen();
    var v2 := s.values;
    assert v2 == [Consts.BgGreen];
    s := new Style("test");
    s.BgYellow();
    var v3 := s.values;
    assert v3 == [Consts.BgYellow];
    s := new Style("test");
    s.BgBlue();
    var v4 := s.values;
    assert v4 == [Consts.BgBlue];
    s := new Style("test");
    s.BgMagenta();
    var v5 := s.values;
    assert v5 == [Consts.BgMagenta];
    s := new Style("test");
    s.BgCyan();
    var v6 := s.values;
    assert v6 == [Consts.BgCyan];
    s := new Style("test");
    s.BgWhite();
    var v7 := s.values;
    assert v7 == [Consts.BgWhite];
    results := [v0, v1, v2, v3, v4, v5, v6, v7];
  }

  /** Each gray and bright background mutator, applied to a fresh style, leaves exactly its own
      code. */
  method FreshBrightBackgrounds() returns (results: seq<seq<uint8>>)
    ensures results == [[Consts.BgGray], [Consts.BgBrightRed], [Consts.BgBrightGreen], [Consts.BgBrightYellow], [Consts.BgBrightBlue], [Consts.BgBrightMagenta], [Consts.BgBrightCyan], [Consts.BgBrightWhite]]
  {
    var s: Style;
    s := new Style("test");
    s.BgGray();
    var v0 := s.values;
    assert v0 == [Consts.BgGray];
    s := new Style("test");
    s.BgBrightRed();
    var v1 := s.values;
    assert v1 == [Consts.BgBrightRed];
    s := new Style("test");
    s.BgBrightGreen();
    var v2 := s.values;
    assert v2 == [Consts.BgBrightGreen];
    s := new Style("test");
    s.BgBrightYellow();
    var v3 := s.values;
    assert v3 == [Consts.BgBrightYellow];
    s := new Style("test");
    s.BgBrightBlue();
    var v4 := s.values;
    assert v4 == [Consts.BgBrightBlue];
    s := new Style("test");
    s.BgBrightMagenta();
    var v5 := s.values;
    assert v5 == [Consts.BgBrightMagenta];
    s := new Style("test");
    s.BgBrightCyan();
    var v6 := s.values;
    assert v6 == [Consts.BgBrightCyan];
    s := new Style("test");
    s.BgBrightWhite();
    var v7 := s.values;
    assert v7 == [Consts.BgBrightWhite];
    results := [v0, v1, v2, v3, v4, v5, v6, v7];
  }
}
