/**
 The pure helpers of the demo page: the string escape added to every string,
 the keyboard mapping from key codes to movement directions, the fixed move
 deltas, and the zoom factor chosen from a mouse-wheel reading.

 Each stops at the value it produces; the handlers apply these values to a
 scene object that the page never defines.
 */
module Demo {
  import Js

  // ---------------------------------------------------------------------------
  // String escape

  /** A global replace of one character by a string: what `replace(/c/g, r)` does when the pattern is a single character and the replacement contains no `$`. */
  function ReplaceAll(s: string, target: char, replacement: string): string {
    if s == [] then []
    else (if s[0] == target then replacement else [s[0]]) + ReplaceAll(s[1..], target, replacement)
  }

  /** The escape as written: newlines, then double quotes, then tabs, each in its own pass over the whole string. */
  function Escape(s: string): (r: string)
    ensures '\n' !in r && '\t' !in r
  {
    var noNewline := ReplaceAll(s, '\n', "\\n");
    var noQuote := ReplaceAll(noNewline, '"', "\\\"");
    ReplaceAllChars(s, '\n', "\\n");
    ReplaceAllChars(noNewline, '"', "\\\"");
    ReplaceAllChars(noQuote, '\t', "\\t");
    ReplaceAll(noQuote, '\t', "\\t")
  }

  /** Every character of a replaced string is either a kept character other than the target or a character of the replacement. */
  lemma {:induction false} ReplaceAllChars(s: string, target: char, replacement: string)
    ensures forall x :: x in ReplaceAll(s, target, replacement) ==> (x in s && x != target) || x in replacement
  {
    if s != [] {
      ReplaceAllChars(s[1..], target, replacement);
      var head := if s[0] == target then replacement else [s[0]];
      assert ReplaceAll(s, target, replacement) == head + ReplaceAll(s[1..], target, replacement);
      forall x | x in ReplaceAll(s, target, replacement)
        ensures (x in s && x != target) || x in replacement
      {
        if x in head {
          if s[0] != target { assert x == s[0]; }
        } else {
          assert x in ReplaceAll(s[1..], target, replacement);
        }
      }
    }
  }

  /** The per-character reading of the escape. */
  function EscapeChar(c: char): string {
    if c == '\n' then "\\n"
    else if c == '"' then "\\\""
    else if c == '\t' then "\\t"
    else [c]
  }

  function EscapeMap(s: string): string {
    if s == [] then [] else EscapeChar(s[0]) + EscapeMap(s[1..])
  }

  predicate NeedsEscape(c: char) {
    c == '\n' || c == '"' || c == '\t'
  }

  function CountNeedsEscape(s: string): nat {
    if s == [] then 0 else (if NeedsEscape(s[0]) then 1 else 0) + CountNeedsEscape(s[1..])
  }

  lemma {:induction false} ReplaceAllAppend(a: string, b: string, target: char, replacement: string)
    ensures ReplaceAll(a + b, target, replacement) == ReplaceAll(a, target, replacement) + ReplaceAll(b, target, replacement)
  {
    if a == [] {
      assert a + b == b;
    } else {
      var head := if a[0] == target then replacement else [a[0]];
      assert (a + b)[0] == a[0];
      assert (a + b)[1..] == a[1..] + b;
      assert ReplaceAll(a + b, target, replacement) == head + ReplaceAll(a[1..] + b, target, replacement);
      ReplaceAllAppend(a[1..], b, target, replacement);
      assert ReplaceAll(a, target, replacement) == head + ReplaceAll(a[1..], target, replacement);
    }
  }

  lemma EscapeAppend(a: string, b: string)
    ensures Escape(a + b) == Escape(a) + Escape(b)
  {
    ReplaceAllAppend(a, b, '\n', "\\n");
    ReplaceAllAppend(ReplaceAll(a, '\n', "\\n"), ReplaceAll(b, '\n', "\\n"), '"', "\\\"");
    ReplaceAllAppend(ReplaceAll(ReplaceAll(a, '\n', "\\n"), '"', "\\\""),
                     ReplaceAll(ReplaceAll(b, '\n', "\\n"), '"', "\\\""), '\t', "\\t");
  }

  lemma ReplaceAllSingle(c: char, target: char, replacement: string)
    ensures ReplaceAll([c], target, replacement) == if c == target then replacement else [c]
  {
    assert [c][1..] == [];
    assert ReplaceAll([c], target, replacement) == (if c == target then replacement else [c]) + ReplaceAll([], target, replacement);
  }

  lemma ReplaceAllPair(c: char, d: char, target: char, replacement: string)
    ensures ReplaceAll([c, d], target, replacement) == ReplaceAll([c], target, replacement) + ReplaceAll([d], target, replacement)
  {
    assert [c, d] == [c] + [d];
    ReplaceAllAppend([c], [d], target, replacement);
  }

  /** No replacement string contains a character a later pass rewrites. */
  lemma EscapeOneChar(c: char)
    ensures Escape([c]) == EscapeChar(c)
  {
    ReplaceAllSingle(c, '\n', "\\n");
    if c == '\n' {
      assert "\\n" == ['\\', 'n'];
      ReplaceAllPair('\\', 'n', '"', "\\\"");
      ReplaceAllSingle('\\', '"', "\\\"");
      ReplaceAllSingle('n', '"', "\\\"");
      ReplaceAllPair('\\', 'n', '\t', "\\t");
      ReplaceAllSingle('\\', '\t', "\\t");
      ReplaceAllSingle('n', '\t', "\\t");
    } else if c == '"' {
      ReplaceAllSingle(c, '"', "\\\"");
      assert "\\\"" == ['\\', '"'];
      ReplaceAllPair('\\', '"', '\t', "\\t");
      ReplaceAllSingle('\\', '\t', "\\t");
      ReplaceAllSingle('"', '\t', "\\t");
    } else {
      ReplaceAllSingle(c, '"', "\\\"");
      ReplaceAllSingle(c, '\t', "\\t");
    }
  }

  /** The three chained passes are one per-character map. */
  lemma {:induction false} EscapeIsPerCharMap(s: string)
    ensures Escape(s) == EscapeMap(s)
  {
    if s != [] {
      assert s == [s[0]] + s[1..];
      EscapeAppend([s[0]], s[1..]);
      EscapeOneChar(s[0]);
      EscapeIsPerCharMap(s[1..]);
    }
  }

  /** Each newline, quote and tab grows by one character, every other character is copied. */
  lemma {:induction false} EscapeLength(s: string)
    ensures |Escape(s)| == |s| + CountNeedsEscape(s)
  {
    EscapeMapLength(s);
    EscapeIsPerCharMap(s);
  }

  lemma {:induction false} EscapeMapLength(s: string)
    ensures |EscapeMap(s)| == |s| + CountNeedsEscape(s)
  {
    if s != [] {
      EscapeMapLength(s[1..]);
    }
  }

  /** Backslashes are not escaped, so a newline and backslash-n escape alike, and no decoder can undo the escape. */
  lemma EscapeNotInjective(decode: string -> string)
    ensures Escape("\n") == Escape("\\n") == "\\n"
    ensures exists s :: decode(Escape(s)) != s
  {
    EscapeOneChar('\n');
    assert "\\n" == ['\\'] + ['n'];
    EscapeAppend(['\\'], ['n']);
    EscapeOneChar('\\');
    EscapeOneChar('n');
    if decode(Escape("\n")) == "\n" {
      assert decode(Escape("\\n")) != "\\n";
    } else {
      assert decode(Escape("\n")) != "\n";
    }
  }

  // ---------------------------------------------------------------------------
  // Keyboard

  datatype Direction = Left | Up | Right | Down

  datatype KeyAction = Move(direction: Direction) | NoAction

  /** The keydown switch: the arrow keys and W, A, S, D. */
  function KeyDirection(keyCode: int): (r: KeyAction)
    ensures r == Move(Left) <==> keyCode == 37 || keyCode == 65
    ensures r == Move(Up) <==> keyCode == 38 || keyCode == 87
    ensures r == Move(Right) <==> keyCode == 39 || keyCode == 68
    ensures r == Move(Down) <==> keyCode == 40 || keyCode == 83
  {
    match keyCode
    case 37 => Move(Left)
    case 65 => Move(Left)
    case 38 => Move(Up)
    case 87 => Move(Up)
    case 39 => Move(Right)
    case 68 => Move(Right)
    case 40 => Move(Down)
    case 83 => Move(Down)
    case _ => NoAction
  }

  /** The arrow key for each direction. */
  function ArrowKey(d: Direction): int {
    match d
    case Left => 37
    case Up => 38
    case Right => 39
    case Down => 40
  }

  /** The letter key for each direction (A, W, D, S). */
  function LetterKey(d: Direction): int {
    match d
    case Left => 65
    case Up => 87
    case Right => 68
    case Down => 83
  }

  /** Exactly two keys move in each direction, its arrow and its letter; every other key does nothing. */
  lemma KeysForDirection(keyCode: int, d: Direction)
    ensures KeyDirection(ArrowKey(d)) == Move(d) && KeyDirection(LetterKey(d)) == Move(d)
    ensures KeyDirection(keyCode) == Move(d) <==> keyCode == ArrowKey(d) || keyCode == LetterKey(d)
    ensures KeyDirection(keyCode) == NoAction <==> forall e: Direction :: keyCode != ArrowKey(e) && keyCode != LetterKey(e)
  {
    if KeyDirection(keyCode) != NoAction {
      var e := KeyDirection(keyCode).direction;
      assert keyCode == ArrowKey(e) || keyCode == LetterKey(e);
    }
  }

  // ---------------------------------------------------------------------------
  // Moves

  const MOVE_AMT: int := 10

  datatype Delta = Delta(dx: int, dy: int)

  /** The translation each move handler applies: one step of MOVE_AMT along one axis, with y growing downwards. */
  function MoveDelta(d: Direction): (r: Delta)
    ensures (r.dx == 0) != (r.dy == 0)
    ensures r.dx * r.dx + r.dy * r.dy == MOVE_AMT * MOVE_AMT
    ensures r.dx < 0 <==> d == Left
    ensures r.dy < 0 <==> d == Up
    ensures r.dx > 0 <==> d == Right
    ensures r.dy > 0 <==> d == Down
  {
    match d
    case Left => Delta(-MOVE_AMT, 0)
    case Up => Delta(0, -MOVE_AMT)
    case Right => Delta(MOVE_AMT, 0)
    case Down => Delta(0, MOVE_AMT)
  }

  function Opposite(d: Direction): Direction {
    match d
    case Left => Right
    case Up => Down
    case Right => Left
    case Down => Up
  }

  /** A move followed by the opposite move returns to the start. */
  lemma OppositeMovesCancel(d: Direction)
    ensures Opposite(d) != d && Opposite(Opposite(d)) == d
    ensures MoveDelta(d).dx + MoveDelta(Opposite(d)).dx == 0 && MoveDelta(d).dy + MoveDelta(Opposite(d)).dy == 0
  {
  }

  // ---------------------------------------------------------------------------
  // Mouse wheel

  /** `wheelDelta || -detail`: the wheel reading when present and nonzero, else the negated scroll detail. */
  function WheelDelta(wheelDelta: Js.Value, detail: real): (r: real)
    ensures wheelDelta.Number? && wheelDelta.value != 0.0 ==> r == wheelDelta.value
    ensures wheelDelta == Js.Undefined || wheelDelta == Js.Number(0.0) ==> r == -detail
  {
    if Js.Truthy(wheelDelta) then wheelDelta.value else -detail
  }

  /** Zoom out a little on a negative reading, zoom in otherwise. */
  function ZoomFactor(delta: real): (r: real)
    ensures r == 0.9 || r == 1.1
  {
    if delta < 0.0 then 0.9 else 1.1
  }

  /** The wheel zooms out exactly when the reading points down: a negative wheelDelta, or a positive detail when wheelDelta is absent or zero. */
  lemma WheelZoomDirection(wheelDelta: Js.Value, detail: real)
    ensures ZoomFactor(WheelDelta(wheelDelta, detail)) < 1.0 <==>
            if Js.Truthy(wheelDelta) then wheelDelta.value < 0.0 else detail > 0.0
    ensures ZoomFactor(WheelDelta(wheelDelta, detail)) > 1.0 <==>
            if Js.Truthy(wheelDelta) then wheelDelta.value > 0.0 else detail <= 0.0
  {
  }
}
