/**
 The studio console (html/static/broadcaster.js): an incremental interpreter for
 terminal output that arrives in arbitrary pieces.

 `StepUnit` is the reference meaning: an automaton that consumes one UTF-16 code
 unit at a time.  The class `Console` is the parser as the page runs it: it
 glues the unfinished escape sequence to the next chunk and scans the whole text
 again.  `ParseChunk` is proved to refine the automaton, and the results about
 chunk boundaries, scroll-back and style are proved about the automaton.
 */
module StudioConsole {

  type CodeUnit = u: int | 0 <= u < 0x1_0000

  const BEL: CodeUnit := 0x07
  const BACKSPACE: CodeUnit := 0x08
  const TAB: CodeUnit := 0x09
  const LF: CodeUnit := 0x0a
  const CR: CodeUnit := 0x0d
  const ESC: CodeUnit := 0x1b
  const SPACE: CodeUnit := 0x20
  const SEMICOLON: CodeUnit := 0x3b
  const LBRACKET: CodeUnit := 0x5b
  const BACKSLASH: CodeUnit := 0x5c
  const RBRACKET: CodeUnit := 0x5d
  const DEL: CodeUnit := 0x7f

  datatype Color = Basic(index: nat) | Rgb(red: int, green: int, blue: int)

  datatype Paint = Unset | Set(color: Color)

  datatype Style = Style(
    foreground: Paint, background: Paint,
    bold: bool, dim: bool, italic: bool, underline: bool, inverse: bool, strike: bool)

  const DEFAULT_STYLE := Style(Unset, Unset, false, false, false, false, false, false)

  datatype Cell = Cell(text: seq<CodeUnit>, style: Style)

  const BLANK := Cell([SPACE], DEFAULT_STYLE)

  /** What the console shows and remembers.  `lines` are the finished lines still on
      screen, `cells` is the line being written, `pending` is the unfinished escape
      sequence.  `halfPair` says that the unit just printed was the first half of a
      surrogate pair, so that the second half joins its cell. */
  datatype Screen = Screen(
    lines: seq<seq<Cell>>, cells: seq<Cell>, column: nat, style: Style,
    pending: seq<CodeUnit>, halfPair: bool)

  const BLANK_SCREEN := Screen([], [], 0, DEFAULT_STYLE, [], false)

  predicate IsHigh(u: CodeUnit) { 0xd800 <= u <= 0xdbff }

  predicate IsLow(u: CodeUnit) { 0xdc00 <= u <= 0xdfff }

  predicate IsFinal(u: CodeUnit) { 0x40 <= u <= 0x7e }

  predicate IsDigit(u: CodeUnit) { 0x30 <= u <= 0x39 }

  function Min(a: int, b: int): int { if a < b then a else b }

  function Max(a: int, b: int): int { if a < b then b else a }

  function Last<T>(s: seq<T>, n: nat): seq<T> { if |s| <= n then s else s[|s| - n..] }

  // ---------- Parameter text ----------

  function Split(text: seq<CodeUnit>): (parts: seq<seq<CodeUnit>>)
    ensures |parts| >= 1
  {
    if text == [] then [[]]
    else
      var rest := Split(text[1..]);
      if text[0] == SEMICOLON then [[]] + rest else [[text[0]] + rest[0]] + rest[1..]
  }

  function ColonsToSemicolons(text: seq<CodeUnit>): seq<CodeUnit>
  {
    seq(|text|, i requires 0 <= i < |text| => if text[i] == 0x3a then SEMICOLON else text[i])
  }

  function DigitsValue(text: seq<CodeUnit>): nat
  {
    if text == [] then 0
    else
      var d := text[|text| - 1];
      10 * DigitsValue(text[..|text| - 1]) + if IsDigit(d) then d - 0x30 else 0
  }

  function DigitPrefix(text: seq<CodeUnit>): seq<CodeUnit>
  {
    if text == [] || !IsDigit(text[0]) then [] else [text[0]] + DigitPrefix(text[1..])
  }

  function OnlyDigits(text: seq<CodeUnit>): seq<CodeUnit>
  {
    if text == [] then []
    else (if IsDigit(text[0]) then [text[0]] else []) + OnlyDigits(text[1..])
  }

  predicate IsJsSpace(u: CodeUnit)
  {
    0x09 <= u <= 0x0d || u == 0x20 || u == 0xa0 || u == 0x1680 || 0x2000 <= u <= 0x200a
    || u == 0x2028 || u == 0x2029 || u == 0x202f || u == 0x205f || u == 0x3000 || u == 0xfeff
  }

  /** `Number.parseInt(text, 10)` with 0 in place of NaN. */
  function ParseIntOrZero(text: seq<CodeUnit>): int
  {
    if text != [] && IsJsSpace(text[0]) then ParseIntOrZero(text[1..])
    else if text != [] && text[0] == 0x2d then 0 - DigitsValue(DigitPrefix(text[1..]))
    else if text != [] && text[0] == 0x2b then DigitsValue(DigitPrefix(text[1..]))
    else DigitsValue(DigitPrefix(text))
  }

  function SgrParameters(text: seq<CodeUnit>): (params: seq<int>)
    ensures |params| >= 1
  {
    if text == [] then [0]
    else
      var parts := Split(ColonsToSemicolons(text));
      seq(|parts|, i requires 0 <= i < |parts| => ParseIntOrZero(parts[i]))
  }

  // ---------- Select graphic rendition (section 8.3.117 of ECMA-48) ----------

  function Color256(index: int): Color
  {
    var value := Max(0, Min(255, index));
    if value < 16 then Basic(value)
    else if value >= 232 then
      var gray := 8 + (value - 232) * 10;
      Rgb(gray, gray, gray)
    else
      var cube := value - 16;
      Rgb(CubeLevel(cube / 36), CubeLevel((cube % 36) / 6), CubeLevel(cube % 6))
  }

  function CubeLevel(part: int): int { if part == 0 then 0 else 55 + part * 40 }

  function Clamp255(value: int): int { Max(0, Min(255, value)) }

  function SgrSimple(style: Style, code: int): Style
  {
    if code == 0 then DEFAULT_STYLE
    else if code == 1 then style.(bold := true)
    else if code == 2 then style.(dim := true)
    else if code == 3 then style.(italic := true)
    else if code == 4 then style.(underline := true)
    else if code == 7 then style.(inverse := true)
    else if code == 9 then style.(strike := true)
    else if code == 22 then style.(bold := false, dim := false)
    else if code == 23 then style.(italic := false)
    else if code == 24 then style.(underline := false)
    else if code == 27 then style.(inverse := false)
    else if code == 29 then style.(strike := false)
    else if 30 <= code <= 37 then style.(foreground := Set(Basic(code - 30)))
    else if code == 39 then style.(foreground := Unset)
    else if 40 <= code <= 47 then style.(background := Set(Basic(code - 40)))
    else if code == 49 then style.(background := Unset)
    else if 90 <= code <= 97 then style.(foreground := Set(Basic(8 + code - 90)))
    else if 100 <= code <= 107 then style.(background := Set(Basic(8 + code - 100)))
    else style
  }

  predicate IsIndexedColor(params: seq<int>, i: nat)
    requires i < |params|
  {
    (params[i] == 38 || params[i] == 48) && i + 2 < |params| && params[i + 1] == 5
  }

  predicate IsDirectColor(params: seq<int>, i: nat)
    requires i < |params|
  {
    (params[i] == 38 || params[i] == 48) && i + 4 < |params| && params[i + 1] == 2
  }

  function Painted(style: Style, code: int, color: Color): Style
  {
    if code == 38 then style.(foreground := Set(color)) else style.(background := Set(color))
  }

  /** The style after the parameters from `i` on. */
  function SgrFrom(style: Style, params: seq<int>, i: nat): Style
    decreases |params| - i
  {
    if i >= |params| then style
    else if IsIndexedColor(params, i) then
      SgrFrom(Painted(style, params[i], Color256(params[i + 2])), params, i + 3)
    else if IsDirectColor(params, i) then
      SgrFrom(Painted(style, params[i],
                      Rgb(Clamp255(params[i + 2]), Clamp255(params[i + 3]), Clamp255(params[i + 4]))),
              params, i + 5)
    else SgrFrom(SgrSimple(style, params[i]), params, i + 1)
  }

  // ---------- Screen operations ----------

  function Put(s: Screen, text: seq<CodeUnit>): Screen
  {
    var padded := s.cells + Spaces(Max(0, s.column - |s.cells|), DEFAULT_STYLE);
    var cell := Cell(text, s.style);
    var cells := if s.column < |padded| then padded[s.column := cell] else padded + [cell];
    s.(cells := cells, column := s.column + 1, halfPair := false)
  }

  function Spaces(count: nat, style: Style): (cells: seq<Cell>)
    ensures |cells| == count && forall i :: 0 <= i < count ==> cells[i] == Cell([SPACE], style)
  {
    seq(count, i => Cell([SPACE], style))
  }

  function PutSpaces(s: Screen, count: nat): Screen
  {
    if count == 0 then s else Put(PutSpaces(s, count - 1), [SPACE])
  }

  /** A new line starts; `limit` counts the finished lines and the new one. */
  function NewLine(limit: nat, s: Screen): Screen
    requires limit >= 1
  {
    s.(lines := Last(s.lines + [s.cells], limit - 1), cells := [], column := 0)
  }

  function FirstParameter(params: seq<CodeUnit>): nat
  {
    DigitsValue(OnlyDigits(Split(params)[0]))
  }

  function HandleCsi(s: Screen, params: seq<CodeUnit>, final: CodeUnit): Screen
  {
    var first := FirstParameter(params);
    var step := if first == 0 then 1 else first;
    if final == 0x6d then s.(style := SgrFrom(s.style, SgrParameters(params), 0))
    else if final == 0x4b then
      if first == 2 then s.(cells := [], column := 0)
      else if first == 1 then
        var limit := Min(s.column + 1, |s.cells|);
        s.(cells := Spaces(limit, s.style) + s.cells[limit..])
      else s.(cells := s.cells[..Min(s.column, |s.cells|)])
    else if final == 0x47 then s.(column := step - 1)
    else if final == 0x43 then s.(column := s.column + step)
    else if final == 0x44 then s.(column := Max(0, s.column - step))
    else if final == 0x4a && (first == 2 || first == 3) then BLANK_SCREEN
    else s
  }

  /** One unit outside any escape sequence. */
  function GroundUnit(limit: nat, s: Screen, u: CodeUnit): Screen
    requires limit >= 1
  {
    var t := s.(halfPair := false);
    if u == ESC then t.(pending := [ESC])
    else if u == CR then t.(column := 0)
    else if u == LF then NewLine(limit, t)
    else if u == BACKSPACE then t.(column := Max(0, s.column - 1))
    else if u == TAB then PutSpaces(t, 8 - s.column % 8)
    else if u < 0x20 || u == DEL then t
    else if s.halfPair && IsLow(u) && 0 < s.column <= |s.cells| then
      var cell := s.cells[s.column - 1];
      t.(cells := s.cells[s.column - 1 := cell.(text := cell.text + [u])])
    else Put(t, [u]).(halfPair := IsHigh(u))
  }

  /** One unit inside an escape sequence (section 5.4 of ECMA-48). */
  function EscapeUnit(s: Screen, u: CodeUnit): Screen
    requires s.pending != []
  {
    var p := s.pending;
    if |p| == 1 then
      if u == LBRACKET || u == RBRACKET then s.(pending := p + [u]) else s.(pending := [])
    else if p[1] == LBRACKET then
      if IsFinal(u) then HandleCsi(s, p[2..], u).(pending := []) else s.(pending := p + [u])
    else
      if u == BEL || (u == BACKSLASH && |p| > 2 && p[|p| - 1] == ESC) then s.(pending := [])
      else s.(pending := p + [u])
  }

  function StepUnit(limit: nat, s: Screen, u: CodeUnit): Screen
    requires limit >= 1
  {
    if s.pending == [] then GroundUnit(limit, s, u) else EscapeUnit(s.(halfPair := false), u)
  }

  function Fold(limit: nat, s: Screen, text: seq<CodeUnit>): Screen
    requires limit >= 1
  {
    if text == [] then s
    else StepUnit(limit, Fold(limit, s, text[..|text| - 1]), text[|text| - 1])
  }

  /** The meaning of one chunk: a surrogate pair is joined only within the chunk. */
  function Feed(limit: nat, s: Screen, chunk: seq<CodeUnit>): Screen
    requires limit >= 1
  {
    Fold(limit, s, chunk).(halfPair := false)
  }

  /** Unfinished escape sequences, the only texts that are ever carried over. */
  predicate IsPending(p: seq<CodeUnit>)
  {
    || p == []
    || (p[0] == ESC
        && (|p| > 1 ==> p[1] == LBRACKET || p[1] == RBRACKET)
        && (|p| > 1 && p[1] == LBRACKET ==> forall i :: 2 <= i < |p| ==> !IsFinal(p[i]))
        && (|p| > 1 && p[1] == RBRACKET ==> forall i :: 2 <= i < |p| ==> !EndsOsc(p, i)))
  }

  /** The unit at `i` ends an operating system command: BEL, or the backslash of ESC \. */
  predicate EndsOsc(p: seq<CodeUnit>, i: nat)
    requires 2 <= i < |p|
  {
    p[i] == BEL || (p[i] == BACKSLASH && i > 2 && p[i - 1] == ESC)
  }

  predicate WellFormed(s: Screen)
  {
    IsPending(s.pending) && !s.halfPair
  }

  // ---------- Facts about the automaton ----------

  lemma {:induction false} FoldConcat(limit: nat, s: Screen, a: seq<CodeUnit>, b: seq<CodeUnit>)
    requires limit >= 1
    ensures Fold(limit, s, a + b) == Fold(limit, Fold(limit, s, a), b)
  {
    if b == [] {
      assert a + b == a;
    } else {
      assert (a + b)[..|a + b| - 1] == a + b[..|b| - 1];
      FoldConcat(limit, s, a, b[..|b| - 1]);
    }
  }

  lemma {:induction false} PendingIsKept(limit: nat, s: Screen, text: seq<CodeUnit>)
    requires limit >= 1 && IsPending(s.pending)
    ensures IsPending(Fold(limit, s, text).pending)
    ensures Fold(limit, s, text).halfPair ==> Fold(limit, s, text).pending == [] || text == []
  {
    if text != [] {
      PendingIsKept(limit, s, text[..|text| - 1]);
      var t, u := Fold(limit, s, text[..|text| - 1]), text[|text| - 1];
      StepKeepsPending(limit, t, u);
    }
  }

  lemma StepKeepsPending(limit: nat, s: Screen, u: CodeUnit)
    requires limit >= 1 && IsPending(s.pending)
    ensures IsPending(StepUnit(limit, s, u).pending)
    ensures StepUnit(limit, s, u).halfPair <==> s.pending == [] && IsHigh(u)
  {
    var p := s.pending;
    if p == [] {
      SpacesKeepPending(s.(halfPair := false), 8 - s.column % 8);
    } else if |p| > 1 {
      var q := p + [u];
      forall i | 2 <= i < |p| ensures p[1] == RBRACKET ==> !EndsOsc(q, i) {
        if p[1] == RBRACKET { assert !EndsOsc(p, i); }
      }
    }
  }

  lemma {:induction false} SpacesKeepPending(s: Screen, count: nat)
    ensures var t := PutSpaces(s, count);
            t.pending == s.pending && t.lines == s.lines && (t.halfPair ==> s.halfPair)
            && t.column == s.column + count && t.style == s.style
  {
    if count > 0 { SpacesKeepPending(s, count - 1); }
  }

  /** Replaying a carried-over sequence from the ground state rebuilds the state. */
  lemma {:induction false} ReplayPending(limit: nat, s: Screen, p: seq<CodeUnit>)
    requires limit >= 1 && IsPending(p)
    ensures Fold(limit, s.(pending := [], halfPair := false), p)
         == s.(pending := p, halfPair := false)
  {
    if p != [] {
      var q := p[..|p| - 1];
      assert q + [p[|p| - 1]] == p;
      if |q| > 1 { assert q[0] == p[0] && q[1] == p[1]; }
      assert IsPending(q) by {
        forall i | 2 <= i < |q| ensures p[1] == RBRACKET ==> !EndsOsc(q, i) {
          if p[1] == RBRACKET { assert !EndsOsc(p, i); }
        }
      }
      ReplayPending(limit, s, q);
      if |p| > 2 && p[1] == RBRACKET { assert !EndsOsc(p, |p| - 1); }
    }
  }

  /** Replaying the units of a scan that stays inside one escape sequence. */
  lemma FoldEscape(limit: nat, s: Screen, p: seq<CodeUnit>, u: CodeUnit)
    requires limit >= 1 && s.pending == [] && !s.halfPair && IsPending(p) && p != []
    ensures Fold(limit, s, p + [u]) == EscapeUnit(s.(pending := p), u)
  {
    ReplayPending(limit, s, p);
    assert (p + [u])[..|p|] == p;
  }

  /** A surrogate pair seen in one chunk is a single cell. */
  lemma FoldSurrogatePair(limit: nat, s: Screen, high: CodeUnit, low: CodeUnit)
    requires limit >= 1 && s.pending == [] && IsHigh(high) && IsLow(low)
    ensures Fold(limit, s, [high, low]) == Put(s, [high, low])
  {
    var t := Put(s, [high]);
    assert Fold(limit, s, [high]) == t.(halfPair := true) by {
      assert [high][..0] == [];
      assert Fold(limit, s, []) == s;
    }
    assert Fold(limit, s, [high, low]) == StepUnit(limit, t.(halfPair := true), low) by {
      assert [high, low][..1] == [high];
    }
    assert t.cells[t.column - 1] == Cell([high], s.style);
    assert [high] + [low] == [high, low];
    assert Put(s, [high, low]).cells == t.cells[t.column - 1 := Cell([high, low], s.style)];
  }

  lemma {:induction false} FoldIgnoresHalf(limit: nat, s: Screen, half: bool, text: seq<CodeUnit>)
    requires limit >= 1 && text != [] && (half ==> !IsLow(text[0])) && !s.halfPair
    ensures Fold(limit, s.(halfPair := half), text) == Fold(limit, s, text)
  {
    if |text| == 1 {
      assert text[..0] == [];
      assert Fold(limit, s, []) == s;
      assert Fold(limit, s.(halfPair := half), []) == s.(halfPair := half);
    } else {
      FoldIgnoresHalf(limit, s, half, text[..|text| - 1]);
    }
  }

  /** The scan position moves from `i` to `j`. */
  lemma Advance(limit: nat, start: Screen, view: Screen, half: bool, text: seq<CodeUnit>, i: nat, j: nat)
    requires limit >= 1 && i < j <= |text| && !view.halfPair
    requires Fold(limit, start, text[..i]) == view.(halfPair := half)
    requires half ==> !IsLow(text[i])
    ensures Fold(limit, start, text[..j]) == Fold(limit, view, text[i..j])
  {
    assert text[..j] == text[..i] + text[i..j];
    FoldConcat(limit, start, text[..i], text[i..j]);
    FoldIgnoresHalf(limit, view, half, text[i..j]);
  }

  lemma FoldOne(limit: nat, s: Screen, u: CodeUnit)
    requires limit >= 1
    ensures Fold(limit, s, [u]) == StepUnit(limit, s, u)
  {
    assert [u][..0] == [];
    assert Fold(limit, s, []) == s;
  }

  /** The parser of the page, its state updated in place. */
  class Console {
    var lineNodes: seq<seq<Cell>>
    var currentLineCells: seq<Cell>
    var cursorColumn: nat
    var escapePending: seq<CodeUnit>
    var style: Style
    const maxLines: nat

    ghost predicate Valid()
      reads this
    {
      maxLines >= 1 && 1 <= |lineNodes| <= maxLines && IsPending(escapePending)
    }

    ghost function View(): Screen
      requires Valid()
      reads this
    {
      Screen(lineNodes[..|lineNodes| - 1], currentLineCells, cursorColumn, style, escapePending, false)
    }

    constructor (maxLines: nat)
      requires maxLines >= 1
      ensures Valid() && View() == BLANK_SCREEN && this.maxLines == maxLines
    {
      this.maxLines := maxLines;
      lineNodes, currentLineCells, cursorColumn := [[]], [], 0;
      escapePending, style := [], DEFAULT_STYLE;
    }

    method Reset()
      requires Valid()
      modifies this
      ensures Valid() && View() == BLANK_SCREEN && lineNodes == [[]]
    {
      currentLineCells := [];
      cursorColumn := 0;
      escapePending := [];
      style := DEFAULT_STYLE;
      lineNodes := [[]];
    }

    /** Writes the current cells to the node of the current line. */
    method RenderCurrentLine()
      requires Valid()
      modifies `lineNodes
      ensures Valid() && View() == old(View())
      ensures lineNodes == old(lineNodes)[|old(lineNodes)| - 1 := currentLineCells]
    {
      lineNodes := lineNodes[|lineNodes| - 1 := currentLineCells];
    }

    method TrimLines()
      requires maxLines >= 1
      modifies `lineNodes
      ensures lineNodes == Last(old(lineNodes), maxLines)
    {
      while |lineNodes| > maxLines
        invariant |lineNodes| <= |old(lineNodes)|
        invariant lineNodes == Last(old(lineNodes), |lineNodes|)
        invariant |lineNodes| < |old(lineNodes)| ==> |lineNodes| >= maxLines
      {
        lineNodes := lineNodes[1..];
      }
    }

    method StartLine()
      requires Valid()
      modifies this
      ensures Valid() && View() == NewLine(maxLines, old(View()))
    {
      RenderCurrentLine();
      currentLineCells := [];
      cursorColumn := 0;
      ghost var nodes := lineNodes;
      lineNodes := lineNodes + [[]];
      assert lineNodes[..|lineNodes| - 1] == nodes;
      TrimLines();
      assert nodes == old(View()).lines + [old(View()).cells];
    }

    method PutCharacter(text: seq<CodeUnit>)
      requires Valid()
      modifies `currentLineCells, `cursorColumn
      ensures Valid() && View() == Put(old(View()), text)
    {
      ghost var cells := currentLineCells;
      while |currentLineCells| < cursorColumn
        invariant cursorColumn == old(cursorColumn)
        invariant |cells| <= |currentLineCells| <= Max(cursorColumn, |cells|)
        invariant currentLineCells == cells + Spaces(|currentLineCells| - |cells|, DEFAULT_STYLE)
      {
        currentLineCells := currentLineCells + [BLANK];
      }
      assert currentLineCells == cells + Spaces(Max(0, cursorColumn - |cells|), DEFAULT_STYLE);
      var cell := Cell(text, style);
      if cursorColumn < |currentLineCells| {
        currentLineCells := currentLineCells[cursorColumn := cell];
      } else {
        currentLineCells := currentLineCells + [cell];
      }
      cursorColumn := cursorColumn + 1;
    }

    method ApplySgr(parameterText: seq<CodeUnit>)
      requires Valid()
      modifies `style
      ensures Valid() && style == SgrFrom(old(style), SgrParameters(parameterText), 0)
    {
      var params := SgrParameters(parameterText);
      var index := 0;
      while index < |params|
        invariant 0 <= index
        invariant SgrFrom(style, params, index) == SgrFrom(old(style), params, 0)
      {
        var code := params[index];
        if IsIndexedColor(params, index) {
          style := Painted(style, code, Color256(params[index + 2]));
          index := index + 2;
        } else if IsDirectColor(params, index) {
          var color := Rgb(Clamp255(params[index + 2]), Clamp255(params[index + 3]),
                           Clamp255(params[index + 4]));
          style := Painted(style, code, color);
          index := index + 4;
        } else {
          style := SgrSimple(style, code);
        }
        index := index + 1;
      }
    }

    method ControlSequence(params: seq<CodeUnit>, final: CodeUnit)
      requires Valid() && escapePending == []
      modifies this
      ensures Valid() && View() == HandleCsi(old(View()), params, final)
    {
      var first := FirstParameter(params);
      var step := if first == 0 then 1 else first;
      if final == 0x6d {
        ApplySgr(params);
      } else if final == 0x4b {
        if first == 2 {
          currentLineCells := [];
          cursorColumn := 0;
        } else if first == 1 {
          EraseToCursor();
        } else {
          currentLineCells := currentLineCells[..Min(cursorColumn, |currentLineCells|)];
        }
      } else if final == 0x47 {
        cursorColumn := step - 1;
      } else if final == 0x43 {
        cursorColumn := cursorColumn + step;
      } else if final == 0x44 {
        cursorColumn := Max(0, cursorColumn - step);
      } else if final == 0x4a && (first == 2 || first == 3) {
        Reset();
      }
    }

    method EraseToCursor()
      requires Valid()
      modifies `currentLineCells
      ensures var n := Min(cursorColumn + 1, |old(currentLineCells)|);
              currentLineCells == Spaces(n, style) + old(currentLineCells)[n..]
    {
      var limit := Min(cursorColumn + 1, |currentLineCells|);
      ghost var cells := currentLineCells;
      for index := 0 to limit
        invariant cursorColumn == old(cursorColumn) && style == old(style)
        invariant |currentLineCells| == |cells| && currentLineCells[..index] == Spaces(index, style)
        invariant currentLineCells[index..] == cells[index..]
      {
        currentLineCells := currentLineCells[index := Cell([SPACE], style)];
      }
      assert currentLineCells == currentLineCells[..limit] + currentLineCells[limit..];
    }

    method PutTab()
      requires Valid()
      modifies `currentLineCells, `cursorColumn
      ensures Valid() && View() == PutSpaces(old(View()), 8 - old(cursorColumn) % 8)
    {
      var spaces := 8 - cursorColumn % 8;
      for count := 0 to spaces
        invariant View() == PutSpaces(old(View()), count)
      {
        PutCharacter([SPACE]);
      }
    }

    /** One control or printable character outside an escape sequence; returns its width
        in code units. */
    method PlainCharacter(text: seq<CodeUnit>, index: nat) returns (width: nat, ghost half: bool)
      requires Valid() && escapePending == [] && index < |text| && text[index] != ESC
      modifies this
      ensures Valid() && escapePending == [] && 1 <= width && index + width <= |text|
      ensures Fold(maxLines, old(View()), text[index..index + width]) == View().(halfPair := half)
      ensures half ==> index + width < |text| ==> !IsLow(text[index + width])
    {
      var u := text[index];
      width, half := 1, false;
      if u == CR {
        cursorColumn := 0;
      } else if u == LF {
        StartLine();
      } else if u == BACKSPACE {
        cursorColumn := Max(0, cursorColumn - 1);
      } else if u == TAB {
        PutTab();
      } else if u < 0x20 || u == DEL {
      } else if IsHigh(u) && index + 1 < |text| && IsLow(text[index + 1]) {
        PutCharacter([u, text[index + 1]]);
        width := 2;
        FoldSurrogatePair(maxLines, old(View()), u, text[index + 1]);
        assert text[index..index + 2] == [u, text[index + 1]];
        return;
      } else {
        PutCharacter([u]);
        half := IsHigh(u);
      }
      FoldOne(maxLines, old(View()), u);
      assert text[index..index + 1] == [u];
    }

    method ParseChunk(raw: seq<CodeUnit>)
      requires Valid()
      modifies this
      ensures Valid() && View() == Feed(maxLines, old(View()), raw)
      ensures lineNodes[|lineNodes| - 1] == currentLineCells
    {
      ghost var start := View().(pending := []);
      ghost var half := false;
      var text := escapePending + raw;
      ReplayPending(maxLines, start, escapePending);
      FoldConcat(maxLines, start, escapePending, raw);
      escapePending := [];
      var index := 0;
      while index < |text|
        invariant Valid() && index <= |text| && (index < |text| ==> escapePending == [])
        invariant half && index < |text| ==> !IsLow(text[index])
        invariant Fold(maxLines, start, text[..index]) == View().(halfPair := half)
      {
        ghost var view, before := View(), half;
        var end;
        end, half := Item(text, index);
        Advance(maxLines, start, view, before, text, index, end);
        index := end;
      }
      assert text[..index] == text;
      RenderCurrentLine();
    }

    /** One character or escape sequence from `index` on. */
    method Item(text: seq<CodeUnit>, index: nat) returns (end: nat, ghost half: bool)
      requires Valid() && escapePending == [] && index < |text|
      modifies this
      ensures Valid() && index < end <= |text| && (end < |text| ==> escapePending == [])
      ensures half && end < |text| ==> !IsLow(text[end])
      ensures Fold(maxLines, old(View()), text[index..end]) == View().(halfPair := half)
    {
      if text[index] == ESC {
        var done;
        done, end := EscapeSequence(text, index);
        half := false;
      } else {
        var width;
        width, half := PlainCharacter(text, index);
        end := index + width;
      }
    }

    /** The escape sequence at `index`: carried out when it is complete, kept when not. */
    method EscapeSequence(text: seq<CodeUnit>, index: nat) returns (done: bool, end: nat)
      requires Valid() && escapePending == [] && index < |text| && text[index] == ESC
      modifies this
      ensures Valid() && index < end <= |text|
      ensures if done then escapePending == [] else end == |text|
      ensures Fold(maxLines, old(View()), text[index..end]) == View()
    {
      if index + 1 >= |text| {
        done, end := false, |text|;
        assert text[index..] == [ESC];
      } else if text[index + 1] == LBRACKET {
        done, end := ControlSequenceAt(text, index);
      } else if text[index + 1] == RBRACKET {
        done, end := OscEnd(text, index);
        if done { FoldOsc(maxLines, View(), text, index, end); }
      } else {
        done, end := true, index + 2;
        FoldEscape(maxLines, View(), [ESC], text[index + 1]);
        assert text[index..index + 2] == [ESC] + [text[index + 1]];
      }
      if !done {
        ReplayPending(maxLines, View(), text[index..]);
        assert text[index..end] == text[index..];
        escapePending := text[index..];
      }
    }

    method ControlSequenceAt(text: seq<CodeUnit>, index: nat) returns (done: bool, end: nat)
      requires Valid() && escapePending == [] && index + 1 < |text|
      requires text[index] == ESC && text[index + 1] == LBRACKET
      modifies this
      ensures Valid() && escapePending == [] && index < end <= |text|
      ensures if done then Fold(maxLines, old(View()), text[index..end]) == View()
              else end == |text| && IsPending(text[index..]) && View() == old(View())
    {
      end := CsiEnd(text, index);
      done := end < |text|;
      if done {
        ghost var view := View();
        ControlSequence(text[index + 2..end], text[end]);
        FoldCsi(maxLines, view, text, index, end);
        end := end + 1;
      } else {
        assert text[index..end] == text[index..];
      }
    }
  }

  /** The end of a control sequence: its final byte, or the end of the text. */
  method CsiEnd(text: seq<CodeUnit>, index: nat) returns (end: nat)
    requires index + 1 < |text| && text[index] == ESC && text[index + 1] == LBRACKET
    ensures index + 2 <= end <= |text| && (end < |text| ==> IsFinal(text[end]))
    ensures IsPending(text[index..end])
  {
    end := index + 2;
    while end < |text| && !IsFinal(text[end])
      invariant index + 2 <= end <= |text|
      invariant forall i :: index + 2 <= i < end ==> !IsFinal(text[i])
    {
      end := end + 1;
    }
  }

  predicate ClosesOsc(p: seq<CodeUnit>, u: CodeUnit)
  {
    u == BEL || (u == BACKSLASH && |p| > 2 && p[|p| - 1] == ESC)
  }

  /** The end of an operating system command, just past BEL or ESC \. */
  method OscEnd(text: seq<CodeUnit>, index: nat) returns (found: bool, end: nat)
    requires index + 1 < |text| && text[index] == ESC && text[index + 1] == RBRACKET
    ensures index + 2 <= end <= |text|
    ensures found ==> index + 2 < end && IsPending(text[index..end - 1])
                      && ClosesOsc(text[index..end - 1], text[end - 1])
    ensures !found ==> end == |text| && IsPending(text[index..])
  {
    end := index + 2;
    while end < |text|
      invariant index + 2 <= end <= |text|
      invariant IsPending(text[index..end])
      invariant forall k :: index + 2 <= k < end ==>
        !(text[k] == ESC && k + 1 < |text| && text[k + 1] == BACKSLASH)
    {
      if text[end] == BEL { return true, end + 1; }
      ExtendOsc(text, index, end);
      if text[end] == ESC && end + 1 < |text| && text[end + 1] == BACKSLASH {
        return true, end + 2;
      }
      end := end + 1;
    }
    assert text[index..end] == text[index..];
    found := false;
  }

  lemma FoldCsi(limit: nat, s: Screen, text: seq<CodeUnit>, index: nat, end: nat)
    requires limit >= 1 && s.pending == [] && !s.halfPair && index + 2 <= end < |text|
    requires text[index] == ESC && text[index + 1] == LBRACKET
    requires IsPending(text[index..end]) && IsFinal(text[end])
    ensures Fold(limit, s, text[index..end + 1])
         == HandleCsi(s, text[index + 2..end], text[end]).(pending := [])
  {
    FoldCsiText(limit, s, text[index..end], text[end]);
    assert text[index..end + 1] == text[index..end] + [text[end]];
    assert text[index..end][2..] == text[index + 2..end];
  }

  lemma FoldCsiText(limit: nat, s: Screen, p: seq<CodeUnit>, final: CodeUnit)
    requires limit >= 1 && s.pending == [] && !s.halfPair && |p| >= 2 && p[0] == ESC && p[1] == LBRACKET
    requires IsPending(p) && IsFinal(final)
    ensures Fold(limit, s, p + [final]) == HandleCsi(s, p[2..], final).(pending := [])
  {
    FoldEscape(limit, s, p, final);
  }

  lemma FoldOsc(limit: nat, s: Screen, text: seq<CodeUnit>, index: nat, end: nat)
    requires limit >= 1 && s.pending == [] && !s.halfPair && index + 2 < end <= |text|
    requires text[index] == ESC && text[index + 1] == RBRACKET
    requires IsPending(text[index..end - 1]) && ClosesOsc(text[index..end - 1], text[end - 1])
    ensures Fold(limit, s, text[index..end]) == s
  {
    FoldEscape(limit, s, text[index..end - 1], text[end - 1]);
    assert text[index..end] == text[index..end - 1] + [text[end - 1]];
  }

  lemma ExtendOsc(text: seq<CodeUnit>, index: nat, end: nat)
    requires index + 2 <= end < |text| && text[index] == ESC && text[index + 1] == RBRACKET
    requires IsPending(text[index..end]) && text[end] != BEL
    requires forall k :: index + 2 <= k < end ==> !(text[k] == ESC && text[k + 1] == BACKSLASH)
    ensures IsPending(text[index..end + 1])
  {
    var p, q := text[index..end], text[index..end + 1];
    forall i | 2 <= i < |q| ensures !EndsOsc(q, i) {
      if i < |p| { assert !EndsOsc(p, i); }
    }
  }
}
