/**
 What the studio console promises over whole streams: chunk boundaries do not matter,
 the scroll-back is the newest part of the unbounded one, and a style written as a
 control sequence is the style that is then in force.
 */
module StudioConsoleTheorems {
  import opened StudioConsole

  // ---------- Chunk boundaries ----------

  /** The chunk ends in the first half of a surrogate pair that was printed by itself. */
  predicate EndsInPrintedHigh(limit: nat, s: Screen, chunk: seq<CodeUnit>)
    requires limit >= 1
  {
    chunk != [] && IsHigh(chunk[|chunk| - 1]) && Feed(limit, s, chunk[..|chunk| - 1]).pending == []
  }

  lemma PrintedHighIsRemembered(limit: nat, s: Screen, chunk: seq<CodeUnit>)
    requires limit >= 1 && WellFormed(s)
    ensures Fold(limit, s, chunk).halfPair <==> EndsInPrintedHigh(limit, s, chunk)
  {
    if chunk != [] {
      PendingIsKept(limit, s, chunk[..|chunk| - 1]);
      StepKeepsPending(limit, Fold(limit, s, chunk[..|chunk| - 1]), chunk[|chunk| - 1]);
    }
  }

  predicate SplitsPair(a: seq<CodeUnit>, b: seq<CodeUnit>)
  {
    a != [] && b != [] && IsHigh(a[|a| - 1]) && IsLow(b[0])
  }

  /** Cutting a stream between `a` and `b` changes nothing, unless it cuts a surrogate pair. */
  lemma CutIsInvisible(limit: nat, s: Screen, a: seq<CodeUnit>, b: seq<CodeUnit>)
    requires limit >= 1 && WellFormed(s)
    requires !EndsInPrintedHigh(limit, s, a) || !SplitsPair(a, b)
    ensures Feed(limit, Feed(limit, s, a), b) == Feed(limit, s, a + b)
  {
    var t := Fold(limit, s, a);
    FoldConcat(limit, s, a, b);
    PrintedHighIsRemembered(limit, s, a);
    if t.halfPair {
      if b == [] { assert a + b == a; }
      else { FoldIgnoresHalf(limit, t.(halfPair := false), true, b); }
    }
  }

  /** A pair cut in two takes two cells instead of one. */
  lemma CutPairTakesTwoCells(limit: nat, s: Screen, a: seq<CodeUnit>, low: CodeUnit)
    requires limit >= 1 && WellFormed(s) && EndsInPrintedHigh(limit, s, a) && IsLow(low)
    ensures Feed(limit, Feed(limit, s, a), [low]).column == Feed(limit, s, a + [low]).column + 1
  {
    var t := Fold(limit, s, a);
    PrintedHighIsRemembered(limit, s, a);
    PendingIsKept(limit, s, a);
    FoldConcat(limit, s, a, [low]);
    FoldOne(limit, t, low);
    FoldOne(limit, t.(halfPair := false), low);
    var before := Fold(limit, s, a[..|a| - 1]);
    PendingIsKept(limit, s, a[..|a| - 1]);
    assert t == GroundUnit(limit, before, a[|a| - 1]);
  }

  /** A chunk end is harmless whatever comes next, exactly when it does not follow a
      printed first half of a surrogate pair. */
  lemma ChunkEndIsHarmlessExactlyWhen(limit: nat, s: Screen, a: seq<CodeUnit>)
    requires limit >= 1 && WellFormed(s)
    ensures (forall b :: Feed(limit, Feed(limit, s, a), b) == Feed(limit, s, a + b))
            <==> !EndsInPrintedHigh(limit, s, a)
  {
    if EndsInPrintedHigh(limit, s, a) {
      CutPairTakesTwoCells(limit, s, a, 0xdc00);
      assert Feed(limit, Feed(limit, s, a), [0xdc00]) != Feed(limit, s, a + [0xdc00]);
    } else {
      forall b ensures Feed(limit, Feed(limit, s, a), b) == Feed(limit, s, a + b) {
        CutIsInvisible(limit, s, a, b);
      }
    }
  }

  function Concat(chunks: seq<seq<CodeUnit>>): seq<CodeUnit>
  {
    if chunks == [] then [] else Concat(chunks[..|chunks| - 1]) + chunks[|chunks| - 1]
  }

  function FeedAll(limit: nat, s: Screen, chunks: seq<seq<CodeUnit>>): Screen
    requires limit >= 1
  {
    if chunks == [] then s
    else Feed(limit, FeedAll(limit, s, chunks[..|chunks| - 1]), chunks[|chunks| - 1])
  }

  /** No piece ends inside a surrogate pair of the whole stream. */
  predicate KeepsPairs(chunks: seq<seq<CodeUnit>>)
  {
    forall i :: 0 <= i <= |chunks| ==> !SplitsPair(Concat(chunks[..i]), Concat(chunks[i..]))
  }

  lemma {:induction false} AnyChunkingIsTheSame(limit: nat, s: Screen, chunks: seq<seq<CodeUnit>>)
    requires limit >= 1 && WellFormed(s) && KeepsPairs(chunks)
    ensures FeedAll(limit, s, chunks) == Feed(limit, s, Concat(chunks))
  {
    if chunks != [] {
      var n := |chunks| - 1;
      var front := chunks[..n];
      forall i | 0 <= i <= |front| ensures !SplitsPair(Concat(front[..i]), Concat(front[i..])) {
        assert front[..i] == chunks[..i] && chunks[i..][..n - i] == front[i..];
        assert Concat(chunks[i..]) == Concat(front[i..]) + chunks[n];
        assert !SplitsPair(Concat(chunks[..i]), Concat(chunks[i..]));
      }
      AnyChunkingIsTheSame(limit, s, front);
      assert !SplitsPair(Concat(chunks[..n]), Concat(chunks[n..]));
      assert Concat(chunks[n..]) == chunks[n] by { assert chunks[n..][..0] == []; }
      CutIsInvisible(limit, s, Concat(front), chunks[n]);
    }
  }

  // ---------- Scroll-back ----------

  lemma {:induction false} ScrollBackIsBounded(limit: nat, s: Screen, text: seq<CodeUnit>)
    requires limit >= 1 && |s.lines| < limit
    ensures |Fold(limit, s, text).lines| < limit
  {
    if text != [] {
      ScrollBackIsBounded(limit, s, text[..|text| - 1]);
      UnitKeepsBound(limit, Fold(limit, s, text[..|text| - 1]), text[|text| - 1]);
    }
  }

  lemma UnitKeepsBound(limit: nat, s: Screen, u: CodeUnit)
    requires limit >= 1 && |s.lines| < limit
    ensures |StepUnit(limit, s, u).lines| < limit
  {
    if s.pending == [] {
      SpacesKeepPending(s.(halfPair := false), 8 - s.column % 8);
    } else if IsFinal(u) && |s.pending| >= 2 {
      CsiKeepsBound(limit, s.(halfPair := false), s.pending[2..], u);
    }
  }

  lemma CsiKeepsBound(limit: nat, s: Screen, params: seq<CodeUnit>, final: CodeUnit)
    requires limit >= 1 && |s.lines| < limit
    ensures |HandleCsi(s, params, final).lines| < limit
  {
  }

  function Newest(limit: nat, s: Screen): Screen
    requires limit >= 1
  {
    s.(lines := Last(s.lines, limit - 1))
  }

  lemma {:induction false} SpacesIgnoreLines(s: Screen, lines: seq<seq<Cell>>, count: nat)
    ensures PutSpaces(s.(lines := lines), count) == PutSpaces(s, count).(lines := lines)
  {
    if count > 0 { SpacesIgnoreLines(s, lines, count - 1); }
  }

  /** Trimming while writing shows the newest lines of what a longer console would show. */
  lemma {:induction false} TrimmingKeepsTheNewestLines(limit: nat, big: nat, s: Screen, text: seq<CodeUnit>)
    requires 1 <= limit <= big
    ensures Newest(limit, Fold(big, s, text)) == Fold(limit, Newest(limit, s), text)
  {
    if text != [] {
      TrimmingKeepsTheNewestLines(limit, big, s, text[..|text| - 1]);
      var t, u := Fold(big, s, text[..|text| - 1]), text[|text| - 1];
      TrimOneUnit(limit, big, t, u);
    }
  }

  lemma TrimOneUnit(limit: nat, big: nat, s: Screen, u: CodeUnit)
    requires 1 <= limit <= big
    ensures Newest(limit, StepUnit(big, s, u)) == StepUnit(limit, Newest(limit, s), u)
  {
    if s.pending == [] { TrimGroundUnit(limit, big, s, u); } else { TrimEscapeUnit(limit, s, u); }
  }

  lemma TrimGroundUnit(limit: nat, big: nat, s: Screen, u: CodeUnit)
    requires 1 <= limit <= big
    ensures Newest(limit, GroundUnit(big, s, u)) == GroundUnit(limit, Newest(limit, s), u)
  {
    if u == TAB {
      var t := s.(halfPair := false);
      SpacesIgnoreLines(t, Last(s.lines, limit - 1), 8 - s.column % 8);
      SpacesKeepPending(t, 8 - s.column % 8);
    } else if u == LF {
      TrimNewLine(limit, big, s.(halfPair := false));
    }
  }

  lemma TrimNewLine(limit: nat, big: nat, s: Screen)
    requires 1 <= limit <= big
    ensures Newest(limit, NewLine(big, s)) == NewLine(limit, Newest(limit, s))
  {
    assert Last(Last(s.lines + [s.cells], big - 1), limit - 1)
        == Last(Last(s.lines, limit - 1) + [s.cells], limit - 1);
  }

  lemma TrimEscapeUnit(limit: nat, s: Screen, u: CodeUnit)
    requires 1 <= limit && s.pending != []
    ensures Newest(limit, EscapeUnit(s.(halfPair := false), u))
         == EscapeUnit(Newest(limit, s).(halfPair := false), u)
  {
    if |s.pending| > 1 && s.pending[1] == LBRACKET && IsFinal(u) {
      TrimControlSequence(limit, s.(halfPair := false), s.pending[2..], u);
    }
  }

  lemma TrimControlSequence(limit: nat, s: Screen, params: seq<CodeUnit>, final: CodeUnit)
    requires 1 <= limit
    ensures Newest(limit, HandleCsi(s, params, final)) == HandleCsi(Newest(limit, s), params, final)
  {
  }

  // ---------- Style round trip ----------

  predicate Displayable(paint: Paint)
  {
    match paint
    case Unset => true
    case Set(Basic(index)) => index < 16
    case Set(Rgb(red, green, blue)) => 0 <= red <= 255 && 0 <= green <= 255 && 0 <= blue <= 255
  }

  /** The parameters that select a style, as section 8.3.117 of ECMA-48 numbers them. */
  function PaintCodes(paint: Paint, base: nat): seq<nat>
    requires Displayable(paint)
  {
    match paint
    case Unset => [base + 9]
    case Set(Basic(index)) => [if index < 8 then base + index else base + 60 + index - 8]
    case Set(Rgb(red, green, blue)) => [base + 8, 2, red, green, blue]
  }

  function Flag(on: bool, code: nat): seq<nat> { if on then [code] else [] }

  function FlagCodes(style: Style): seq<nat>
  {
    Flag(style.bold, 1) + (Flag(style.dim, 2) + (Flag(style.italic, 3) + (Flag(style.underline, 4)
    + (Flag(style.inverse, 7) + Flag(style.strike, 9)))))
  }

  function StyleCodes(style: Style): seq<nat>
    requires Displayable(style.foreground) && Displayable(style.background)
  {
    [0] + (PaintCodes(style.foreground, 30) + (PaintCodes(style.background, 40) + FlagCodes(style)))
  }

  lemma {:induction false} SgrShift(style: Style, a: seq<int>, b: seq<int>, i: nat)
    requires i <= |b|
    ensures SgrFrom(style, a + b, |a| + i) == SgrFrom(style, b, i)
    decreases |b| - i
  {
    if i < |b| {
      var p, k := a + b, |a| + i;
      assert p[|a|..] == b;
      assert p[k] == p[|a|..][i];
      if IsIndexedColor(b, i) {
        assert p[k + 1] == b[i + 1] && p[k + 2] == b[i + 2];
        SgrShift(Painted(style, b[i], Color256(b[i + 2])), a, b, i + 3);
      } else if IsDirectColor(b, i) {
        assert p[k + 1] == b[i + 1] && p[k + 2] == b[i + 2] && p[k + 3] == b[i + 3] && p[k + 4] == b[i + 4];
        SgrShift(Painted(style, b[i], Rgb(Clamp255(b[i + 2]), Clamp255(b[i + 3]), Clamp255(b[i + 4]))),
                 a, b, i + 5);
      } else {
        if i + 1 < |b| { assert p[k + 1] == b[i + 1]; }
        SgrShift(SgrSimple(style, b[i]), a, b, i + 1);
      }
    }
  }

  lemma SgrCode(style: Style, code: int, rest: seq<int>)
    requires code != 38 && code != 48
    ensures SgrFrom(style, [code] + rest, 0) == SgrFrom(SgrSimple(style, code), rest, 0)
  {
    SgrShift(SgrSimple(style, code), [code], rest, 0);
  }

  lemma SgrFlag(style: Style, on: bool, code: nat, rest: seq<int>)
    requires code != 38 && code != 48
    ensures SgrFrom(style, Flag(on, code) + rest, 0)
         == SgrFrom(if on then SgrSimple(style, code) else style, rest, 0)
  {
    if on { SgrCode(style, code, rest); } else { assert Flag(on, code) + rest == rest; }
  }

  lemma SgrPaint(style: Style, paint: Paint, base: nat, rest: seq<int>)
    requires Displayable(paint) && (base == 30 || base == 40)
    ensures SgrFrom(style, PaintCodes(paint, base) + rest, 0)
         == SgrFrom(if base == 30 then style.(foreground := paint) else style.(background := paint), rest, 0)
  {
    match paint
    case Set(Rgb(red, green, blue)) =>
      var codes := PaintCodes(paint, base);
      var params := codes + rest;
      assert params[0] == base + 8 && params[1] == 2;
      assert params[2] == red && params[3] == green && params[4] == blue;
      SgrShift(Painted(style, base + 8, Rgb(red, green, blue)), codes, rest, 0);
    case _ =>
      SgrCode(style, PaintCodes(paint, base)[0], rest);
  }

  lemma FlagsRoundTrip(s: Style, style: Style)
    requires s == DEFAULT_STYLE.(foreground := style.foreground, background := style.background)
    ensures SgrFrom(s, FlagCodes(style), 0) == style
  {
    var c6 := Flag(style.strike, 9);
    var c5 := Flag(style.inverse, 7) + c6;
    var c4 := Flag(style.underline, 4) + c5;
    var c3 := Flag(style.italic, 3) + c4;
    var c2 := Flag(style.dim, 2) + c3;
    SgrFlag(s, style.bold, 1, c2);
    var s1 := s.(bold := style.bold);
    SgrFlag(s1, style.dim, 2, c3);
    var s2 := s1.(dim := style.dim);
    SgrFlag(s2, style.italic, 3, c4);
    var s3 := s2.(italic := style.italic);
    SgrFlag(s3, style.underline, 4, c5);
    var s4 := s3.(underline := style.underline);
    SgrFlag(s4, style.inverse, 7, c6);
    var s5 := s4.(inverse := style.inverse);
    assert c6 == c6 + [];
    SgrFlag(s5, style.strike, 9, []);
  }

  lemma CodesRoundTrip(before: Style, style: Style)
    requires Displayable(style.foreground) && Displayable(style.background)
    ensures SgrFrom(before, StyleCodes(style), 0) == style
  {
    var flags := FlagCodes(style);
    var paints := PaintCodes(style.background, 40) + flags;
    SgrCode(before, 0, PaintCodes(style.foreground, 30) + paints);
    SgrPaint(DEFAULT_STYLE, style.foreground, 30, paints);
    SgrPaint(DEFAULT_STYLE.(foreground := style.foreground), style.background, 40, flags);
    FlagsRoundTrip(DEFAULT_STYLE.(foreground := style.foreground, background := style.background), style);
  }

  function Decimal(n: nat): (text: seq<CodeUnit>)
    ensures text != [] && forall i :: 0 <= i < |text| ==> IsDigit(text[i])
  {
    if n < 10 then [0x30 + n] else Decimal(n / 10) + [0x30 + n % 10]
  }

  function Joined(params: seq<nat>): (text: seq<CodeUnit>)
    requires params != []
    ensures text != [] && forall i :: 0 <= i < |text| ==> IsDigit(text[i]) || text[i] == SEMICOLON
  {
    if |params| == 1 then Decimal(params[0]) else Decimal(params[0]) + [SEMICOLON] + Joined(params[1..])
  }

  lemma {:induction false} DecimalRoundTrip(n: nat)
    ensures DigitsValue(Decimal(n)) == n
  {
    if n >= 10 {
      DecimalRoundTrip(n / 10);
      assert Decimal(n)[..|Decimal(n)| - 1] == Decimal(n / 10);
    } else {
      assert [0x30 + n][..0] == [];
      assert DigitsValue([]) == 0;
    }
  }

  lemma {:induction false} AllDigitsArePrefix(text: seq<CodeUnit>)
    requires forall i :: 0 <= i < |text| ==> IsDigit(text[i])
    ensures DigitPrefix(text) == text
  {
    if text != [] { AllDigitsArePrefix(text[1..]); }
  }

  lemma {:induction false} SplitDigits(text: seq<CodeUnit>)
    requires forall i :: 0 <= i < |text| ==> IsDigit(text[i])
    ensures Split(text) == [text]
  {
    if text != [] {
      SplitDigits(text[1..]);
      assert [text[0]] + text[1..] == text;
    }
  }

  lemma {:induction false} SplitFirst(text: seq<CodeUnit>, rest: seq<CodeUnit>)
    requires forall i :: 0 <= i < |text| ==> IsDigit(text[i])
    ensures Split(text + [SEMICOLON] + rest) == [text] + Split(rest)
  {
    if text == [] {
      assert ([] + [SEMICOLON] + rest)[1..] == rest;
    } else {
      SplitFirst(text[1..], rest);
      assert (text + [SEMICOLON] + rest)[1..] == text[1..] + [SEMICOLON] + rest;
      assert [text[0]] + text[1..] == text;
    }
  }

  function Decimals(params: seq<nat>): seq<seq<CodeUnit>>
  {
    seq(|params|, i requires 0 <= i < |params| => Decimal(params[i]))
  }

  lemma {:induction false} SplitJoined(params: seq<nat>)
    requires params != []
    ensures Split(Joined(params)) == Decimals(params)
  {
    if |params| == 1 {
      SplitDigits(Decimal(params[0]));
    } else {
      SplitJoined(params[1..]);
      SplitFirst(Decimal(params[0]), Joined(params[1..]));
      assert Decimals(params) == [Decimal(params[0])] + Decimals(params[1..]);
    }
  }

  lemma ParseDecimal(n: nat)
    ensures ParseIntOrZero(Decimal(n)) == n
  {
    DecimalRoundTrip(n);
    AllDigitsArePrefix(Decimal(n));
    assert IsDigit(Decimal(n)[0]);
  }

  lemma ParametersRoundTrip(params: seq<nat>)
    requires params != []
    ensures SgrParameters(Joined(params)) == params
  {
    var text := Joined(params);
    assert ColonsToSemicolons(text) == text;
    SplitJoined(params);
    forall i | 0 <= i < |params| ensures SgrParameters(text)[i] == params[i] {
      ParseDecimal(params[i]);
    }
  }

  /** Selecting a style by its control sequence puts exactly that style in force and
      changes nothing else, whatever was in force before. */
  lemma StyleRoundTrip(limit: nat, s: Screen, style: Style)
    requires limit >= 1 && WellFormed(s) && s.pending == []
    requires Displayable(style.foreground) && Displayable(style.background)
    ensures Feed(limit, s, [ESC, LBRACKET] + Joined(StyleCodes(style)) + [0x6d]) == s.(style := style)
  {
    var params := StyleCodes(style);
    var text := Joined(params);
    ParametersRoundTrip(params);
    CodesRoundTrip(s.style, style);
    var p := [ESC, LBRACKET] + text;
    forall i | 2 <= i < |p| ensures !IsFinal(p[i]) { assert p[i] == text[i - 2]; }
    FoldEscape(limit, s, p, 0x6d);
    assert p[2..] == text;
  }

  // ---------- What the other sequences do to the visible line ----------

  /** The sequence with one number. */
  function Command(n: nat, final: CodeUnit): seq<CodeUnit>
  {
    [ESC, LBRACKET] + Decimal(n) + [final]
  }

  /** What is seen in a column of the current line. */
  function ShownAt(s: Screen, column: nat): seq<CodeUnit>
  {
    if column < |s.cells| then s.cells[column].text else [SPACE]
  }

  lemma {:induction false} AllDigitsAreKept(text: seq<CodeUnit>)
    requires forall i :: 0 <= i < |text| ==> IsDigit(text[i])
    ensures OnlyDigits(text) == text
  {
    if text != [] { AllDigitsAreKept(text[1..]); }
  }

  lemma CommandRuns(limit: nat, s: Screen, n: nat, final: CodeUnit)
    requires limit >= 1 && WellFormed(s) && s.pending == [] && IsFinal(final)
    ensures FirstParameter(Decimal(n)) == n
    ensures Feed(limit, s, Command(n, final)) == HandleCsi(s, Decimal(n), final).(pending := [], halfPair := false)
  {
    var text := Decimal(n);
    var p := [ESC, LBRACKET] + text;
    DecimalRoundTrip(n);
    SplitDigits(text);
    AllDigitsAreKept(text);
    forall i | 2 <= i < |p| ensures !IsFinal(p[i]) { assert p[i] == text[i - 2]; }
    assert p[2..] == text;
    FoldCsiText(limit, s, p, final);
  }

  lemma ForwardMoves(limit: nat, s: Screen, n: nat)
    requires limit >= 1 && WellFormed(s) && s.pending == []
    ensures Feed(limit, s, Command(n, 0x43)) == s.(column := s.column + Max(1, n))
  {
    CommandRuns(limit, s, n, 0x43);
  }

  lemma BackMoves(limit: nat, s: Screen, n: nat)
    requires limit >= 1 && WellFormed(s) && s.pending == []
    ensures Feed(limit, s, Command(n, 0x44)) == s.(column := Max(0, s.column - Max(1, n)))
  {
    CommandRuns(limit, s, n, 0x44);
  }

  lemma ColumnIsSet(limit: nat, s: Screen, column: nat)
    requires limit >= 1 && WellFormed(s) && s.pending == []
    ensures Feed(limit, s, Command(column, 0x47)) == s.(column := Max(1, column) - 1)
  {
    CommandRuns(limit, s, column, 0x47);
  }

  /** Moving the cursor forward and back by the same number ends where it began. */
  lemma ForwardThenBack(limit: nat, s: Screen, n: nat)
    requires limit >= 1 && WellFormed(s) && s.pending == []
    ensures Feed(limit, Feed(limit, s, Command(n, 0x43)), Command(n, 0x44)) == s
  {
    ForwardMoves(limit, s, n);
    BackMoves(limit, Feed(limit, s, Command(n, 0x43)), n);
  }

  /** The column is set whatever it was, and moving on from it adds up. */
  lemma ColumnIsAbsolute(limit: nat, s: Screen, column: nat, n: nat)
    requires limit >= 1 && WellFormed(s) && s.pending == [] && column > 0 && n > 0
    ensures Feed(limit, s, Command(column, 0x47)) == s.(column := column - 1)
    ensures Feed(limit, Feed(limit, s, Command(column, 0x47)), Command(n, 0x43))
            == Feed(limit, s, Command(column + n, 0x47))
  {
    ColumnIsSet(limit, s, column);
    ColumnIsSet(limit, s, column + n);
    ForwardMoves(limit, Feed(limit, s, Command(column, 0x47)), n);
  }

  /** Erasing blanks the line from the cursor on, up to and with it, or all of it, and leaves
      what is seen in the other columns. */
  lemma EraseBlanksItsSide(limit: nat, s: Screen, i: nat)
    requires limit >= 1 && WellFormed(s) && s.pending == []
    ensures ShownAt(Feed(limit, s, Command(0, 0x4b)), i) == if i < s.column then ShownAt(s, i) else [SPACE]
    ensures ShownAt(Feed(limit, s, Command(1, 0x4b)), i) == if i <= s.column then [SPACE] else ShownAt(s, i)
    ensures ShownAt(Feed(limit, s, Command(2, 0x4b)), i) == [SPACE] && Feed(limit, s, Command(2, 0x4b)).column == 0
  {
    CommandRuns(limit, s, 0, 0x4b);
    CommandRuns(limit, s, 1, 0x4b);
    CommandRuns(limit, s, 2, 0x4b);
  }

  /** A printable character is seen where the cursor was, in the style in force, and nowhere else. */
  lemma CharacterIsSeenAtTheCursor(limit: nat, s: Screen, u: CodeUnit, i: nat)
    requires limit >= 1 && WellFormed(s) && s.pending == [] && u >= 0x20 && u != DEL
    ensures var after := Feed(limit, s, [u]);
            && s.column < |after.cells| && ShownAt(after, i) == (if i == s.column then [u] else ShownAt(s, i))
            && after.cells[s.column].style == s.style && after.column == s.column + 1 && after.lines == s.lines
  {
    assert [u][..0] == [];
    assert Fold(limit, s, [u]) == StepUnit(limit, Fold(limit, s, []), u);
    assert Fold(limit, s, []) == s;
  }
}
