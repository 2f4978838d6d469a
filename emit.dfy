/** The line emitter: how one output line of the AST printer is laid out.
    A line is either the separator written between root declarations, or a
    message preceded by indentation and an optional list-item marker "- ". */
module Emit {

  const SeparatorText: string := "--------"
  const ItemMarker: string := "- "

  /** One printed line, without its trailing newline. `pad` is the number of
      spaces before the optional marker. */
  datatype Line =
    | Rule
    | Text(pad: nat, marker: bool, msg: string)

  /** The number of columns in front of the message. */
  function Width(l: Line): (w: nat)
  {
    match l
    case Rule => 0
    case Text(pad, marker, _) => pad + if marker then |ItemMarker| else 0
  }

  /** A text line whose message starts on a level boundary at or beyond
      column 2*level. */
  predicate Nested(l: Line, level: nat)
  {
    l.Text? && Width(l) >= 2 * level && Width(l) % 2 == 0
  }

  function Spaces(n: nat): (s: string)
    ensures |s| == n && forall i :: 0 <= i < n ==> s[i] == ' '
  {
    seq(n, _ => ' ')
  }

  /** The characters of a line as they reach standard output. */
  function Layout(l: Line): (s: string)
  {
    match l
    case Rule => SeparatorText
    case Text(pad, marker, msg) => Spaces(pad) + (if marker then ItemMarker else "") + msg
  }

  /** `fprint(composite, level, ...)`: a list item is padded to 2*level-2
      columns and then marked with "- ", any other line is padded to 2*level
      columns. Either way the message starts at column 2*level. Go's "%*s"
      with a negative width is never reached, since a list item is always
      at least one level deep. */
  function Fprint(composite: bool, level: nat, msg: string): (l: Line)
    requires composite ==> level >= 1
    ensures l.Text? && l.marker == composite && l.msg == msg
    ensures Width(l) == 2 * level
  {
    if composite then Text(2 * level - 2, true, msg) else Text(2 * level, false, msg)
  }

  /** The printed form of an fprint line: exactly 2*level columns of
      whitespace (the last two being "- " for a list item), then the message. */
  lemma FprintLayout(composite: bool, level: nat, msg: string)
    requires composite ==> level >= 1
    ensures var s := Layout(Fprint(composite, level, msg));
      && |s| == 2 * level + |msg|
      && s[2 * level..] == msg
      && (forall i :: 0 <= i < 2 * level - |ItemMarker| ==> s[i] == ' ')
      && (composite ==> s[2 * level - 2..2 * level] == ItemMarker)
      && (!composite ==> forall i :: 0 <= i < 2 * level ==> s[i] == ' ')
  {
    var s := Layout(Fprint(composite, level, msg));
    if composite {
      assert s == Spaces(2 * level - 2) + ItemMarker + msg;
    } else {
      assert s == Spaces(2 * level) + msg;
    }
  }

  /** Moving a line one level deeper: two more columns of padding. The
      separator is written at column 0 whatever the depth. */
  function ShiftLine(l: Line): (l': Line)
  {
    match l
    case Rule => Rule
    case Text(pad, marker, msg) => Text(pad + 2, marker, msg)
  }

  /** A shifted text line prints as the original preceded by two spaces. */
  lemma ShiftLayout(l: Line)
    requires l.Text?
    ensures Layout(ShiftLine(l)) == "  " + Layout(l)
  {
    assert Spaces(l.pad + 2) == "  " + Spaces(l.pad);
  }

  function Shift(lines: seq<Line>): (r: seq<Line>)
    ensures |r| == |lines|
  {
    if lines == [] then [] else [ShiftLine(lines[0])] + Shift(lines[1..])
  }

  lemma {:induction false} ShiftAppend(a: seq<Line>, b: seq<Line>)
    ensures Shift(a + b) == Shift(a) + Shift(b)
  {
    if a == [] {
      assert a + b == b;
    } else {
      assert (a + b)[0] == a[0] && (a + b)[1..] == a[1..] + b;
      ShiftAppend(a[1..], b);
    }
  }

  /** Shifting works line by line. */
  lemma {:induction false} ShiftAt(lines: seq<Line>, i: nat)
    requires i < |lines|
    ensures Shift(lines)[i] == ShiftLine(lines[i])
  {
    if i > 0 {
      ShiftAt(lines[1..], i - 1);
    }
  }

  /** fprint at one level deeper is fprint shifted right by one level. */
  lemma ShiftFprint(composite: bool, level: nat, msg: string)
    requires composite ==> level >= 1
    ensures ShiftLine(Fprint(composite, level, msg)) == Fprint(composite, level + 1, msg)
  {
  }

  /** A header line and a sub-header line one level deeper, followed by a
      block of lines that shifts to `a'`. */
  lemma ShiftHeaded(c1: bool, c2: bool, level: nat, m1: string, m2: string, a: seq<Line>, a': seq<Line>)
    requires c1 ==> level >= 1
    requires Shift(a) == a'
    ensures Shift([Fprint(c1, level, m1), Fprint(c2, level + 1, m2)] + a)
         == [Fprint(c1, level + 1, m1), Fprint(c2, level + 2, m2)] + a'
  {
    var h := [Fprint(c1, level, m1), Fprint(c2, level + 1, m2)];
    ShiftAppend(h, a);
    assert Shift(h) == [ShiftLine(h[0])] + Shift(h[1..]);
    assert Shift(h[1..]) == [ShiftLine(h[1])] + Shift(h[2..]);
  }

  /** As `ShiftHeaded`, with a second sub-header and block after the first. */
  lemma ShiftHeadedPair(c1: bool, c2: bool, c3: bool, level: nat, m1: string, m2: string, m3: string,
                        a: seq<Line>, a': seq<Line>, b: seq<Line>, b': seq<Line>)
    requires c1 ==> level >= 1
    requires Shift(a) == a' && Shift(b) == b'
    ensures Shift([Fprint(c1, level, m1), Fprint(c2, level + 1, m2)] + a + [Fprint(c3, level + 1, m3)] + b)
         == [Fprint(c1, level + 1, m1), Fprint(c2, level + 2, m2)] + a' + [Fprint(c3, level + 2, m3)] + b'
  {
    var h := [Fprint(c1, level, m1), Fprint(c2, level + 1, m2)];
    var m := [Fprint(c3, level + 1, m3)];
    ShiftHeaded(c1, c2, level, m1, m2, a, a');
    assert Shift(m) == [Fprint(c3, level + 2, m3)] by {
      assert Shift(m) == [ShiftLine(m[0])] + Shift(m[1..]);
    }
    ShiftAppend(h + a, m);
    ShiftAppend(h + a + m, b);
  }
}
