# terminal: a Dafny model of ANSI text styling

This project models the core of a small Rust library that styles terminal
text with the "Set Graphics Mode" escape sequence, the Select Graphic
Rendition control function of ECMA-48 (section 8.3.117). The sequence is
the Control Sequence Introducer `ESC [` (section 5.4 of the same standard),
the numeric parameters in decimal separated by `;`, and the final byte `m`.
Codes 90..97 and 100..107 are the common aixterm "bright" extension.

The model has three parts, one per source file:

- `consts.dfy` (module `Consts`, from `src/consts.rs`): the 41 attribute and
  colour codes plus `OP_RESET`, as constants of a `uint8` newtype. Lemmas
  check their structure: consecutive runs, background = foreground + 10, and
  all distinct.
- `escape_sequence.dfy` (module `EscapeSequences`, from
  `src/escape_sequence.rs`): the `EscapeSequence::SetGraphicsMode` datatype,
  `reset!()` as `Reset()`, and `sgm!(v)` as the constructor itself.
  `Render` is the specification of the `Display` output, and `Join`, the
  `;`-separated parameter text inside it, is the specification of the
  parameter string that `Format`'s loop builds (src/escape_sequence.rs:48-54). `Format` is the
  source's step-by-step `String` building loop, proved equal to `Render`.
  `Parse` reads a rendered sequence back, and the round trip is proved.
- `style.dfy` (module `Styles`, from `src/style.rs`): the `Style` class. Its
  `text` is a `const` (the source never changes it after `new`), and its
  `values` field is a `seq<uint8>` that each of the 41 mutators extends by
  one code. `ToString` is the pure `Display` rendering; `Unstyle` is its
  inverse. The documented examples and the unit tests become client methods
  and lemmas.

`decimal.dfy` (module `Decimal`) gives the decimal text of a byte, the
model's version of `u8::to_string`, with a parser that is proved to be its
exact inverse. `wrappers.dfy` holds the `Option` type that the parsers return.

The empty code list is rendered literally, as the code does: `ESC [ m`, with
nothing between `[` and `m`. It is not normalised to `ESC [0m`. So a style with
no mutators renders as `ESC [m` ++ text ++ `ESC [0m`.

Codes are `u8` in the code, so the model's codes are `uint8` (0..255).
Negative or wider values cannot occur, and nothing checks ranges beyond that.

## Model

| member | source | states |
|---|---|---|
| `Consts.TextAttributeCodes` | src/consts.rs:5-32 | OP_RESET is 0 and the nine text attributes bold..strikethrough are the consecutive values 1..9 |
| `Consts.StandardForegroundCodes` | src/consts.rs:35-56 | black..white foregrounds are the consecutive values 30..37 |
| `Consts.BrightForegroundCodes` | src/consts.rs:59-80 | gray and bright red..bright white foregrounds are the consecutive values 90..97 |
| `Consts.StandardBackgroundCodes` | src/consts.rs:83-104 | each standard background is its foreground plus 10; together 40..47 |
| `Consts.BrightBackgroundCodes` | src/consts.rs:107-128 | each gray or bright background is its foreground plus 10; together 100..107 |
| `Consts.MutatorCodesDistinct` | src/consts.rs:5-128 | the 41 mutator codes are pairwise distinct, none is OP_RESET, and each lies in 1..255 (a u8) |
| `Decimal.ToDecimal` | src/escape_sequence.rs:49 | `u8::to_string`: non-empty ASCII digits, no leading zero, one digit exactly for values below 10 |
| `Decimal.ValueOfToDecimal` | src/escape_sequence.rs:49 | the digits of `to_string(n)` denote `n` |
| `Decimal.ToDecimalValueOf` | src/escape_sequence.rs:52 | every canonical digit string is `to_string` of the number it denotes |
| `Decimal.ParseCodeIff` | src/escape_sequence.rs:49-52 | a string parses to the byte `n` if and only if it is `to_string(n)` |
| `Decimal.ToDecimalLength` | src/escape_sequence.rs:49-52 | a byte's decimal text has 1 to 3 digits: one below 10, three from 100 |
| `EscapeSequences.Render` | src/escape_sequence.rs:41-58 | every rendered Set Graphics Mode sequence starts with `ESC [` and ends with `m`, whatever the codes |
| `EscapeSequences.Format` | src/escape_sequence.rs:47-55 | the push loop (first code, then `;` and code for each of the rest, wrapped in `ESC [`...`m`) produces exactly `Render(e)` |
| `EscapeSequences.JoinAppend` | src/escape_sequence.rs:48-54 | for non-empty `a` and `b`, the parameters of `a ++ b` are those of `a`, `;`, those of `b` |
| `EscapeSequences.JoinSeparators` | src/escape_sequence.rs:49-53 | the parameters of a non-empty list of `n` codes contain exactly `n - 1` semicolons |
| `EscapeSequences.JoinAlphabet` | src/escape_sequence.rs:48-54 | the parameters contain only digits and `;` (never `m`) and are empty exactly when the list is |
| `EscapeSequences.SplitJoin` | src/escape_sequence.rs:48-54 | splitting the parameters of a non-empty list at `;` gives the decimal form of each code in input order: no sorting, merging or dropping |
| `EscapeSequences.ParametersRoundTrip` | src/escape_sequence.rs:48-54 | parsing the parameter text recovers the original codes, the empty list included |
| `EscapeSequences.RenderRoundTrip` | src/escape_sequence.rs:41-58 | parsing the rendered sequence recovers the escape sequence |
| `EscapeSequences.RenderInjective` | src/escape_sequence.rs:41-58 | different code lists never render to the same text |
| `EscapeSequences.RenderEmpty` | src/escape_sequence.rs:47-55 | an empty list renders as exactly `ESC [ m`, with no separator |
| `EscapeSequences.RenderNonEmpty` | src/escape_sequence.rs:48-55 | a non-empty list renders as `ESC [`, parameters whose `;`-pieces are the codes' decimal forms in order with `n - 1` separators, then `m` |
| `EscapeSequences.Reset` | src/escape_sequence.rs:69-78 | `reset!()` is Set Graphics Mode with the single code `OP_RESET`, and it renders as exactly `ESC [0m` (`ResetText`) |
| `EscapeSequences.RenderBoldBlackOnWhite` | src/escape_sequence.rs:107-108 | `sgm!([OP_BOLD, FG_BLACK, BG_WHITE])` renders as `ESC [1;30;47m` |
| `Styles.Style.constructor` | src/style.rs:64-69 | `Style::new(t)` has text `t` and an empty code list |
| `Styles.Style.Push` | src/style.rs:73 | `Vec::push`: the code list becomes the old list with the code appended |
| `Styles.Style.Bold` | src/style.rs:72-75 | appends exactly `OP_BOLD` at the end; earlier codes and the text are unchanged |
| `Styles.Style.Faint` | src/style.rs:78-81 | appends exactly `OP_FAINT` at the end; earlier codes and the text are unchanged |
| `Styles.Style.Italic` | src/style.rs:84-87 | appends exactly `OP_ITALIC` at the end; earlier codes and the text are unchanged |
| `Styles.Style.Underline` | src/style.rs:90-93 | appends exactly `OP_UNDERLINE` at the end; earlier codes and the text are unchanged |
| `Styles.Style.SlowBlink` | src/style.rs:96-99 | appends exactly `OP_SLOW_BLINK` at the end; earlier codes and the text are unchanged |
| `Styles.Style.FastBlink` | src/style.rs:102-105 | appends exactly `OP_FAST_BLINK` at the end; earlier codes and the text are unchanged |
| `Styles.Style.Reverse` | src/style.rs:108-111 | appends exactly `OP_REVERSE` at the end; earlier codes and the text are unchanged |
| `Styles.Style.Conceal` | src/style.rs:114-117 | appends exactly `OP_CONCEAL` at the end; earlier codes and the text are unchanged |
| `Styles.Style.Strikethrough` | src/style.rs:120-123 | appends exactly `OP_STRIKETHROUGH` at the end; earlier codes and the text are unchanged |
| `Styles.Style.Black` | src/style.rs:126-129 | appends exactly `FG_BLACK` at the end; earlier codes and the text are unchanged |
| `Styles.Style.Red` | src/style.rs:132-135 | appends exactly `FG_RED` at the end; earlier codes and the text are unchanged |
| `Styles.Style.Green` | src/style.rs:138-141 | appends exactly `FG_GREEN` at the end; earlier codes and the text are unchanged |
| `Styles.Style.Yellow` | src/style.rs:145-148 | appends exactly `FG_YELLOW` at the end; earlier codes and the text are unchanged |
| `Styles.Style.Blue` | src/style.rs:151-154 | appends exactly `FG_BLUE` at the end; earlier codes and the text are unchanged |
| `Styles.Style.Magenta` | src/style.rs:158-161 | appends exactly `FG_MAGENTA` at the end; earlier codes and the text are unchanged |
| `Styles.Style.Cyan` | src/style.rs:164-167 | appends exactly `FG_CYAN` at the end; earlier codes and the text are unchanged |
| `Styles.Style.White` | src/style.rs:170-173 | appends exactly `FG_WHITE` at the end; earlier codes and the text are unchanged |
| `Styles.Style.Gray` | src/style.rs:176-179 | appends exactly `FG_GRAY` at the end; earlier codes and the text are unchanged |
| `Styles.Style.BrightRed` | src/style.rs:183-186 | appends exactly `FG_BRIGHT_RED` at the end; earlier codes and the text are unchanged |
| `Styles.Style.BrightGreen` | src/style.rs:190-193 | appends exactly `FG_BRIGHT_GREEN` at the end; earlier codes and the text are unchanged |
| `Styles.Style.BrightYellow` | src/style.rs:197-200 | appends exactly `FG_BRIGHT_YELLOW` at the end; earlier codes and the text are unchanged |
| `Styles.Style.BrightBlue` | src/style.rs:204-207 | appends exactly `FG_BRIGHT_BLUE` at the end; earlier codes and the text are unchanged |
| `Styles.Style.BrightMagenta` | src/style.rs:211-214 | appends exactly `FG_BRIGHT_MAGENTA` at the end; earlier codes and the text are unchanged |
| `Styles.Style.BrightCyan` | src/style.rs:218-221 | appends exactly `FG_BRIGHT_CYAN` at the end; earlier codes and the text are unchanged |
| `Styles.Style.BrightWhite` | src/style.rs:225-228 | appends exactly `FG_BRIGHT_WHITE` at the end; earlier codes and the text are unchanged |
| `Styles.Style.BgBlack` | src/style.rs:231-234 | appends exactly `BG_BLACK` at the end; earlier codes and the text are unchanged |
| `Styles.Style.BgRed` | src/style.rs:237-240 | appends exactly `BG_RED` at the end; earlier codes and the text are unchanged |
| `Styles.Style.BgGreen` | src/style.rs:243-246 | appends exactly `BG_GREEN` at the end; earlier codes and the text are unchanged |
| `Styles.Style.BgYellow` | src/style.rs:250-253 | appends exactly `BG_YELLOW` at the end; earlier codes and the text are unchanged |
| `Styles.Style.BgBlue` | src/style.rs:256-259 | appends exactly `BG_BLUE` at the end; earlier codes and the text are unchanged |
| `Styles.Style.BgMagenta` | src/style.rs:263-266 | appends exactly `BG_MAGENTA` at the end; earlier codes and the text are unchanged |
| `Styles.Style.BgCyan` | src/style.rs:269-272 | appends exactly `BG_CYAN` at the end; earlier codes and the text are unchanged |
| `Styles.Style.BgWhite` | src/style.rs:275-278 | appends exactly `BG_WHITE` at the end; earlier codes and the text are unchanged |
| `Styles.Style.BgGray` | src/style.rs:281-284 | appends exactly `BG_GRAY` at the end; earlier codes and the text are unchanged |
| `Styles.Style.BgBrightRed` | src/style.rs:288-291 | appends exactly `BG_BRIGHT_RED` at the end; earlier codes and the text are unchanged |
| `Styles.Style.BgBrightGreen` | src/style.rs:295-298 | appends exactly `BG_BRIGHT_GREEN` at the end; earlier codes and the text are unchanged |
| `Styles.Style.BgBrightYellow` | src/style.rs:302-305 | appends exactly `BG_BRIGHT_YELLOW` at the end; earlier codes and the text are unchanged |
| `Styles.Style.BgBrightBlue` | src/style.rs:309-312 | appends exactly `BG_BRIGHT_BLUE` at the end; earlier codes and the text are unchanged |
| `Styles.Style.BgBrightMagenta` | src/style.rs:316-319 | appends exactly `BG_BRIGHT_MAGENTA` at the end; earlier codes and the text are unchanged |
| `Styles.Style.BgBrightCyan` | src/style.rs:323-326 | appends exactly `BG_BRIGHT_CYAN` at the end; earlier codes and the text are unchanged |
| `Styles.Style.BgBrightWhite` | src/style.rs:330-333 | appends exactly `BG_BRIGHT_WHITE` at the end; earlier codes and the text are unchanged |
| `Styles.Style.ToString` | src/style.rs:336-339 | the rendered style splits back into exactly its codes and text; it starts with `ESC [` and ends with `ESC [0m`; with no codes it is `ESC [m` ++ text ++ `ESC [0m` |
| `Styles.Style.Display` | src/style.rs:338 | writing the codes' sequence, the text and `reset!()` with the escape-sequence writer yields `ToString()` |
| `Styles.UnstyleRoundTrip` | src/style.rs:338 | `Render(codes) ++ text ++ Render(reset)` splits back into the codes and the text, whatever the text holds |
| `Styles.ToStringInjective` | src/style.rs:336-339 | two styles render alike only if their codes and texts are equal |
| `Styles.RenderBlackUnderline` | src/style.rs:14 | the codes `[FG_BLACK, OP_UNDERLINE]` render as `ESC [30;4m` |
| `Styles.RenderBoldUnderlineRedOnGreen` | src/style.rs:409-415 | the codes `[OP_BOLD, OP_UNDERLINE, FG_RED, BG_GREEN]` render as `ESC [1;4;31;42m` |
| `Styles.HelloWorld` | src/style.rs:10-14 | `Hello, world!` with `black().underline()` renders as `ESC [30;4mHello, world!ESC [0m` |
| `Styles.Unstyled` | src/style.rs:338 | a style with no mutators applied renders as `ESC [mtestESC [0m` |
| `Styles.MultiStyle` | src/style.rs:405-416 | `bold().underline().red().bg_green()` records `[OP_BOLD, OP_UNDERLINE, FG_RED, BG_GREEN]` in call order and renders as `ESC [1;4;31;42mtestESC [0m` |
| `Styles.RepeatedMutator` | src/style.rs:132-154 | calling `red` twice around `blue` keeps both red codes: no merging or overriding |
| `Styles.FreshTextAttributes` | src/style.rs:361-369 | each text-attribute mutator on a fresh style leaves exactly `[its OP_* code]` |
| `Styles.FreshStandardForegrounds` | src/style.rs:370-377 | each standard foreground mutator on a fresh style leaves exactly `[its FG_* code]` |
| `Styles.FreshBrightForegrounds` | src/style.rs:378-385 | each gray or bright foreground mutator on a fresh style leaves exactly `[its FG_* code]` |
| `Styles.FreshStandardBackgrounds` | src/style.rs:386-393 | each standard background mutator on a fresh style leaves exactly `[its BG_* code]` |
| `Styles.FreshBrightBackgrounds` | src/style.rs:394-401 | each gray or bright background mutator on a fresh style leaves exactly `[its BG_* code]` |

## Left out

- The `style!` macro (src/style.rs:38-40) only runs `format!` on its
  arguments before `Style::new`. Rust's formatting machinery is not part of
  this model. `Style::new` takes the already formatted text.
- `fmt::Formatter`, `fmt::Result` and the `write!` error propagation
  (src/escape_sequence.rs:55, src/style.rs:338) are not modelled. Rendering is
  a total function returning a string, and writing to a formatter cannot fail
  in the model.
- `String::with_capacity(100)` (src/escape_sequence.rs:47) is a pre-allocation
  with no observable effect. The model's string has no capacity.
- The `&mut Self` that every mutator returns only serves chaining. The
  mutators are methods that modify `this`. A chain `s.bold().underline()` is
  modelled as the calls `s.Bold(); s.Underline();` on the same object.
- `ToString` is a function reading the object. That it leaves the style
  unchanged and gives the same result on repeated calls holds because it is
  a function; no separate lemma states it.
- `src/bin/main.rs` is a demo that only prints styled lines, and `src/lib.rs`
  only declares and re-exports modules. Neither is part of this model.
- `Vec<u8>` growth is modelled by a `seq<uint8>`. Reallocation and the
  allocation-failure abort are not modelled.
- Rust's UTF-8 `String` text payload is a Dafny `string`, a sequence of
  characters. Nothing in the core inspects the text, so its encoding plays
  no part in the model.
