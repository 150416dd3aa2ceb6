/**
 * Console logging with a fixed prefix (utils/log.js). A message is split
 * into lines at every `\r?\n`; the first line carries the coloured prefix
 * (unless the caller asks for no prefix) and every other line is indented by
 * as many spaces as the prefix is long. Printing is modelled as the emission
 * it would produce; colouring is one opening and one closing escape around
 * the text.
 */
module Log {
  import opened Wrappers

  datatype Color = Blue | Yellow | Red | Green | Cyan

  /** The SGR parameter that switches the foreground to a colour. */
  function ColorCode(color: Color): string {
    match color
    case Red => "31"
    case Green => "32"
    case Yellow => "33"
    case Blue => "34"
    case Cyan => "36"
  }

  const Escape: char := 27 as char

  /** `chalk[color](s)`: `s` unchanged between the colour's escape and the reset escape. */
  function Paint(color: Color, s: string): (r: string)
    ensures |r| == |s| + 10 && r[5..5 + |s|] == s
    ensures '\n' in r <==> '\n' in s
  {
    [Escape] + "[" + ColorCode(color) + "m" + s + [Escape] + "[39m"
  }

  /** The package name the prefix shows; package.json is not part of this model. */
  const PackageName: string := "webpack-mpa-builder"

  const Prefix: string := "[" + PackageName + "] "

  /** `n` spaces: what `new Array(n + 1).join(' ')` builds. */
  function Spaces(n: nat): (r: string)
    ensures |r| == n
    ensures forall i :: 0 <= i < n ==> r[i] == ' '
  {
    if n == 0 then "" else Spaces(n - 1) + " "
  }

  /** The indentation of every line that does not carry the prefix. */
  function Padding(): (r: string)
    ensures |r| == |Prefix|
    ensures forall i :: 0 <= i < |r| ==> r[i] == ' '
  {
    Spaces(|Prefix|)
  }

  /** What `parseMessage` receives: a string, or any other value with its string form. */
  datatype Data = Text(text: string) | Value(shown: string)

  /** Index of the first occurrence of `c` in `s`, or -1 when there is none. */
  function IndexOf(s: string, c: char): (i: int)
    ensures -1 <= i < |s|
    ensures i == -1 <==> c !in s
    ensures i >= 0 ==> s[i] == c && c !in s[..i]
  {
    if s == [] then -1
    else if s[0] == c then 0
    else
      var i := IndexOf(s[1..], c);
      if i < 0 then -1
      else
        assert s[..i + 1] == [s[0]] + s[1..][..i];
        i + 1
  }

  /** `x` without one trailing carriage return. */
  function DropCR(x: string): string {
    if |x| > 0 && x[|x| - 1] == '\r' then x[..|x| - 1] else x
  }

  /** `s.split(/\r?\n/)`: a separator is a line feed with the carriage return just before it, if any. */
  function SplitLines(s: string): (lines: seq<string>)
    ensures |lines| >= 1
    ensures forall k :: 0 <= k < |lines| ==> '\n' !in lines[k]
    decreases |s|
  {
    var i := IndexOf(s, '\n');
    if i < 0 then [s]
    else
      var head, rest := DropCR(s[..i]), SplitLines(s[i + 1..]);
      DropCRKeepsNoLF(s[..i]);
      assert forall k :: 1 <= k < 1 + |rest| ==> ([head] + rest)[k] == rest[k - 1];
      [head] + rest
  }

  /** Dropping a carriage return cannot introduce a line feed. */
  lemma DropCRKeepsNoLF(x: string)
    requires '\n' !in x
    ensures '\n' !in DropCR(x)
  {
    var r := DropCR(x);
    forall k | 0 <= k < |r| ensures r[k] != '\n' {
      assert r[k] == x[k];
    }
  }

  /** `s.split('\n')`: the lines of a string separated by bare line feeds. */
  function Lines(s: string): (lines: seq<string>)
    ensures |lines| >= 1
    decreases |s|
  {
    var i := IndexOf(s, '\n');
    if i < 0 then [s] else [s[..i]] + Lines(s[i + 1..])
  }

  /** The strings of `xs` joined by line feeds, with no trailing line feed. */
  function JoinLF(xs: seq<string>): string
  {
    if |xs| == 0 then ""
    else if |xs| == 1 then xs[0]
    else JoinLF(xs[..|xs| - 1]) + "\n" + xs[|xs| - 1]
  }

  /** What goes in front of line `k`: the prefix in `color` (blue by default) or the padding. */
  function Lead(k: nat, noPrefix: bool, color: Option<Color>): (r: string)
    ensures '\n' !in r
  {
    if k == 0 && !noPrefix then Paint(color.GetOr(Blue), Prefix) else Padding()
  }

  /** Every line behind its lead. */
  function Decorate(lines: seq<string>, noPrefix: bool, color: Option<Color>): (r: seq<string>)
    ensures |r| == |lines|
  {
    seq(|lines|, k requires 0 <= k < |lines| => Lead(k, noPrefix, color) + lines[k])
  }

  /** The message `parseMessage(data, noPrefix, color)` returns. */
  function Format(data: Data, noPrefix: bool, color: Option<Color>): string {
    match data
    case Text(s) => JoinLF(Decorate(SplitLines(s), noPrefix, color))
    case Value(v) => Lead(0, noPrefix, color) + v
  }

  /** The first `n` lines rendered as the loop of `parseMessage` appends them. */
  function Rendered(lines: seq<string>, noPrefix: bool, color: Option<Color>, n: nat): string
    requires n <= |lines|
  {
    if n == 0 then ""
    else Rendered(lines, noPrefix, color, n - 1) + Lead(n - 1, noPrefix, color) + lines[n - 1]
         + (if n - 1 != |lines| - 1 then "\n" else "")
  }

  /** Appending the next string to what has been joined so far, and its line feed, extends the join. */
  lemma JoinLFStep(xs: seq<string>, k: nat, prev: string)
    requires k < |xs|
    requires k == 0 ==> prev == ""
    requires 0 < k ==> prev == JoinLF(xs[..k]) + "\n"
    ensures prev + xs[k] == JoinLF(xs[..k + 1])
  {
    assert xs[..k + 1][..k] == xs[..k];
    if k == 0 {
      assert xs[..1] == [xs[0]];
    }
  }

  /** Rendering one more line appends that line, decorated, and its line feed unless it is the last. */
  lemma RenderedStep(lines: seq<string>, noPrefix: bool, color: Option<Color>, k: nat)
    requires k < |lines|
    ensures Rendered(lines, noPrefix, color, k + 1)
            == Rendered(lines, noPrefix, color, k) + Decorate(lines, noPrefix, color)[k]
               + (if k < |lines| - 1 then "\n" else "")
  {
    var prev, lead := Rendered(lines, noPrefix, color, k), Lead(k, noPrefix, color);
    assert Decorate(lines, noPrefix, color)[k] == lead + lines[k];
    assert prev + lead + lines[k] == prev + (lead + lines[k]);
  }

  /** Rendering line by line yields the decorated lines joined by line feeds. */
  lemma {:induction false} RenderedIsJoin(lines: seq<string>, noPrefix: bool, color: Option<Color>, n: nat)
    requires 0 < n <= |lines|
    ensures Rendered(lines, noPrefix, color, n)
            == JoinLF(Decorate(lines, noPrefix, color)[..n]) + (if n < |lines| then "\n" else "")
  {
    var k := n - 1;
    if k > 0 {
      RenderedIsJoin(lines, noPrefix, color, k);
    }
    RenderedStep(lines, noPrefix, color, k);
    JoinLFStep(Decorate(lines, noPrefix, color), k, Rendered(lines, noPrefix, color, k));
  }

  /** The loop of `parseMessage` over the lines of a text message. */
  method RenderLines(lines: seq<string>, noPrefix: bool, color: Option<Color>) returns (message: string)
    ensures message == Rendered(lines, noPrefix, color, |lines|)
  {
    message := "";
    var idx := 0;
    while idx < |lines|
      invariant 0 <= idx <= |lines|
      invariant message == Rendered(lines, noPrefix, color, idx)
    {
      message := message + Lead(idx, noPrefix, color);
      message := message + lines[idx];
      if idx != |lines| - 1 {
        message := message + "\n";
      } else {
        assert message == message + "";
      }
      idx := idx + 1;
    }
  }

  /** `parseMessage`: builds the message line by line. */
  method ParseMessage(data: Data, noPrefix: bool, color: Option<Color>) returns (message: string)
    ensures message == Format(data, noPrefix, color)
  {
    if data.Text? {
      var lines := SplitLines(data.text);
      message := RenderLines(lines, noPrefix, color);
      RenderedIsJoin(lines, noPrefix, color, |lines|);
      assert Decorate(lines, noPrefix, color)[..|lines|] == Decorate(lines, noPrefix, color);
    } else {
      message := "";
      message := message + Lead(0, noPrefix, color);
      message := message + data.shown;
    }
  }

  /** The string form of the data, as `${data}` renders it. */
  function Shown(data: Data): string {
    match data
    case Text(s) => s
    case Value(v) => v
  }

  // Lines of the formatted message

  /** Where the first occurrence of a character lies in a concatenation. */
  lemma IndexOfConcat(a: string, b: string, c: char)
    ensures IndexOf(a, c) >= 0 ==> IndexOf(a + b, c) == IndexOf(a, c)
    ensures IndexOf(a, c) < 0 && |b| > 0 && b[0] == c ==> IndexOf(a + b, c) == |a|
  {
    var i := IndexOf(a, c);
    if i >= 0 {
      assert (a + b)[..i] == a[..i];
    } else if |b| > 0 && b[0] == c {
      assert (a + b)[..|a|] == a;
    }
  }

  /** A line feed followed by a last line without line feeds splits off exactly that line. */
  lemma {:induction false} LinesAppend(a: string, b: string)
    requires '\n' !in b
    ensures Lines(a + ("\n" + b)) == Lines(a) + [b]
    decreases |a|
  {
    var i := IndexOf(a, '\n');
    if i < 0 {
      TwoLines(a, b);
    } else {
      LinesAppend(a[i + 1..], b);
      LinesAppendStep(a, "\n" + b, i, b);
    }
  }

  /** The induction step of `LinesAppend`: the first line of `a` is split off first. */
  lemma LinesAppendStep(a: string, t: string, i: int, b: string)
    requires 0 <= i && i == IndexOf(a, '\n')
    requires Lines(a[i + 1..] + t) == Lines(a[i + 1..]) + [b]
    ensures Lines(a + t) == Lines(a) + [b]
  {
    IndexOfConcat(a, t, '\n');
    SliceAround(a, t, i);
    LinesCons(a + t, i);
    LinesCons(a, i);
    ConsSnoc(a[..i], Lines(a[i + 1..]), b);
  }

  /** Putting an element in front and another at the back can be done in either order. */
  lemma ConsSnoc<T>(x: T, xs: seq<T>, y: T)
    ensures [x] + (xs + [y]) == ([x] + xs) + [y]
  {
  }

  /** A string with a line feed at `i`, and none before, has the text before it as its first line. */
  lemma LinesCons(s: string, i: int)
    requires 0 <= i && i == IndexOf(s, '\n')
    ensures Lines(s) == [s[..i]] + Lines(s[i + 1..])
  {
  }

  /** A string without line feeds is one line. */
  lemma OneLine(s: string)
    requires '\n' !in s
    ensures Lines(s) == [s]
  {
    assert IndexOf(s, '\n') == -1;
  }

  /** Two strings without line feeds, joined by one, are two lines. */
  lemma TwoLines(a: string, b: string)
    requires '\n' !in a && '\n' !in b
    ensures Lines(a + ("\n" + b)) == [a, b]
  {
    var s := a + ("\n" + b);
    IndexOfConcat(a, "\n" + b, '\n');
    assert s[..|a|] == a && s[|a| + 1..] == b;
  }

  /** Slicing a concatenation around a position inside its first part. */
  lemma SliceAround(a: string, b: string, i: nat)
    requires i < |a|
    ensures (a + b)[..i] == a[..i] && (a + b)[i + 1..] == a[i + 1..] + b
  {
  }

  /** Round trip: splitting joined lines at line feeds gives the lines back. */
  lemma {:induction false} LinesOfJoin(xs: seq<string>)
    requires |xs| >= 1
    requires forall k :: 0 <= k < |xs| ==> '\n' !in xs[k]
    ensures Lines(JoinLF(xs)) == xs
    decreases |xs|
  {
    if |xs| == 1 {
      OneLine(xs[0]);
    } else {
      var init, last := xs[..|xs| - 1], xs[|xs| - 1];
      forall k | 0 <= k < |init| ensures '\n' !in init[k] {
        assert init[k] == xs[k];
      }
      LinesOfJoin(init);
      var a := JoinLF(init);
      LinesAppend(a, last);
      assert JoinLF(xs) == a + "\n" + last;
      Assoc(a, "\n", last);
      InitLast(xs);
    }
  }

  /** Concatenation is associative. */
  lemma Assoc<T>(a: seq<T>, b: seq<T>, c: seq<T>)
    ensures a + b + c == a + (b + c)
  {
  }

  /** A non-empty sequence is its first element followed by the rest. */
  lemma HeadTail<T>(xs: seq<T>)
    requires |xs| >= 1
    ensures xs == [xs[0]] + xs[1..]
  {
  }

  /** A non-empty sequence is its front followed by its last element. */
  lemma InitLast<T>(xs: seq<T>)
    requires |xs| >= 1
    ensures xs[..|xs| - 1] + [xs[|xs| - 1]] == xs
  {
  }

  /**
   * For string data the message has one line per `\r?\n`-separated input
   * line: the first behind the prefix (or the padding), every other behind
   * the padding, joined by line feeds and with no trailing line feed.
   */
  lemma FormatLines(s: string, noPrefix: bool, color: Option<Color>)
    ensures Lines(Format(Text(s), noPrefix, color)) == Decorate(SplitLines(s), noPrefix, color)
    ensures |Lines(Format(Text(s), noPrefix, color))| == |SplitLines(s)|
  {
    var d := Decorate(SplitLines(s), noPrefix, color);
    forall k | 0 <= k < |d| ensures '\n' !in d[k] {
      var lead := Lead(k, noPrefix, color);
      var line := SplitLines(s)[k];
      assert d[k] == lead + line;
    }
    LinesOfJoin(d);
  }

  /**
   * Line by line: the first output line is the prefix (blue unless another
   * colour is given) or, without prefix, the padding, followed by the first
   * input line; every later output line is the padding followed by its input line.
   */
  lemma MessageLines(s: string, noPrefix: bool, color: Option<Color>)
    ensures var out, input := Lines(Format(Text(s), noPrefix, color)), SplitLines(s);
      && |out| == |input|
      && (!noPrefix ==> out[0] == Paint(if color.Some? then color.value else Blue, Prefix) + input[0])
      && (noPrefix ==> out[0] == Padding() + input[0])
      && forall k :: 1 <= k < |out| ==> out[k] == Padding() + input[k]
  {
    var input := SplitLines(s);
    var d := Decorate(input, noPrefix, color);
    FormatLines(s, noPrefix, color);
    assert d[0] == Lead(0, noPrefix, color) + input[0];
    forall k | 1 <= k < |d| ensures d[k] == Padding() + input[k] {
      assert d[k] == Lead(k, noPrefix, color) + input[k];
    }
  }

  /** `split(/\r?\n/)` is the split at line feeds with one carriage return dropped before each of them. */
  lemma {:induction false} SplitLinesDropsCR(s: string)
    ensures |SplitLines(s)| == |Lines(s)|
    ensures forall k :: 0 <= k < |Lines(s)| - 1 ==> SplitLines(s)[k] == DropCR(Lines(s)[k])
    ensures SplitLines(s)[|Lines(s)| - 1] == Lines(s)[|Lines(s)| - 1]
    decreases |s|
  {
    var i := IndexOf(s, '\n');
    if i >= 0 {
      var rest := s[i + 1..];
      SplitLinesDropsCR(rest);
      var split, lines := SplitLines(s), Lines(s);
      assert split == [DropCR(s[..i])] + SplitLines(rest);
      assert lines == [s[..i]] + Lines(rest);
      forall k | 0 <= k < |lines| - 1 ensures split[k] == DropCR(lines[k]) {
        if k > 0 {
          assert split[k] == SplitLines(rest)[k - 1] && lines[k] == Lines(rest)[k - 1];
        }
      }
    }
  }

  // The print filter `/[0-9A-z]+/`

  /** A character of the class `[0-9A-z]`; note that `A-z` also covers `[ \ ] ^ _` and the backquote. */
  predicate IsWordChar(c: char) {
    ('0' <= c <= '9') || ('A' <= c <= 'z')
  }

  predicate HasWordChar(s: string) {
    exists i :: 0 <= i < |s| && IsWordChar(s[i])
  }

  /** Some string of `xs` shows a character of `[0-9A-z]`. */
  predicate SomeHasWordChar(xs: seq<string>) {
    exists k :: 0 <= k < |xs| && HasWordChar(xs[k])
  }

  lemma HasWordCharConcat(a: string, b: string)
    ensures HasWordChar(a + b) <==> HasWordChar(a) || HasWordChar(b)
  {
    var ab := a + b;
    if HasWordChar(ab) {
      var i :| 0 <= i < |ab| && IsWordChar(ab[i]);
      if i < |a| {
        assert IsWordChar(a[i]);
      } else {
        assert IsWordChar(b[i - |a|]);
      }
    }
    if HasWordChar(a) {
      var i :| 0 <= i < |a| && IsWordChar(a[i]);
      assert ab[i] == a[i];
    }
    if HasWordChar(b) {
      var i :| 0 <= i < |b| && IsWordChar(b[i]);
      assert ab[|a| + i] == b[i];
    }
  }

  lemma NoWordCharInSpaces(n: nat)
    ensures !HasWordChar(Spaces(n))
  {
  }

  /** The joined lines contain a word character exactly when one of the lines does. */
  lemma {:induction false} HasWordCharJoin(xs: seq<string>)
    ensures HasWordChar(JoinLF(xs)) <==> SomeHasWordChar(xs)
    decreases |xs|
  {
    if |xs| > 1 {
      var init := xs[..|xs| - 1];
      HasWordCharJoin(init);
      HasWordCharConcat(JoinLF(init), "\n");
      HasWordCharConcat(JoinLF(init) + "\n", xs[|xs| - 1]);
      assert !HasWordChar("\n");
      if exists k :: 0 <= k < |xs| && HasWordChar(xs[k]) {
        var k :| 0 <= k < |xs| && HasWordChar(xs[k]);
        if k < |xs| - 1 {
          assert init[k] == xs[k];
        }
      }
    }
  }

  lemma HasWordCharDropCR(x: string)
    ensures HasWordChar(DropCR(x)) <==> HasWordChar(x)
  {
    if |x| > 0 && x[|x| - 1] == '\r' {
      assert x == DropCR(x) + "\r";
      HasWordCharConcat(DropCR(x), "\r");
      assert !HasWordChar("\r");
    }
  }

  /** A string cut at one line feed keeps its word characters in the two halves. */
  lemma HasWordCharLine(head: string, rest: string)
    ensures HasWordChar(head + "\n" + rest) <==> HasWordChar(head) || HasWordChar(rest)
  {
    HasWordCharConcat(head, "\n");
    HasWordCharConcat(head + "\n", rest);
    assert !HasWordChar("\n");
  }

  /** Some string of `[x] + xs` has a word character exactly when `x` or one of `xs` has. */
  lemma HasWordCharCons(x: string, xs: seq<string>)
    ensures SomeHasWordChar([x] + xs) <==> HasWordChar(x) || SomeHasWordChar(xs)
  {
    var ys := [x] + xs;
    if exists k :: 0 <= k < |ys| && HasWordChar(ys[k]) {
      var k :| 0 <= k < |ys| && HasWordChar(ys[k]);
      if k > 0 {
        assert xs[k - 1] == ys[k];
      }
    }
    if exists k :: 0 <= k < |xs| && HasWordChar(xs[k]) {
      var k :| 0 <= k < |xs| && HasWordChar(xs[k]);
      assert ys[k + 1] == xs[k];
    }
    if HasWordChar(x) {
      assert ys[0] == x;
    }
  }

  /** Splitting at `\r?\n` neither adds nor loses a word character. */
  lemma {:induction false} HasWordCharSplit(s: string)
    ensures HasWordChar(s) <==> SomeHasWordChar(SplitLines(s))
    decreases |s|
  {
    var lines := SplitLines(s);
    var i := IndexOf(s, '\n');
    if i >= 0 {
      var head, rest := s[..i], s[i + 1..];
      assert s == head + "\n" + rest;
      assert lines == [DropCR(head)] + SplitLines(rest);
      HasWordCharSplit(rest);
      HasWordCharDropCR(head);
      HasWordCharLine(head, rest);
      HasWordCharCons(DropCR(head), SplitLines(rest));
    } else {
      assert lines == [s];
      if exists k :: 0 <= k < |lines| && HasWordChar(lines[k]) {
        var k :| 0 <= k < |lines| && HasWordChar(lines[k]);
        assert lines[k] == s;
      }
      if HasWordChar(s) {
        assert HasWordChar(lines[0]);
      }
    }
  }

  /**
   * Without the prefix, the filter of `info`, `warn` and `error` passes a
   * message exactly when the data itself shows a character of `[0-9A-z]`.
   */
  lemma NoPrefixFilter(data: Data, color: Option<Color>)
    ensures HasWordChar(Format(data, true, color)) <==> HasWordChar(Shown(data))
  {
    match data
    case Text(s) =>
      NoPrefixText(s, color);
    case Value(v) =>
      NoWordCharInSpaces(|Prefix|);
      HasWordCharConcat(Padding(), v);
  }

  /** The string case of `NoPrefixFilter`. */
  lemma NoPrefixText(s: string, color: Option<Color>)
    ensures HasWordChar(Format(Text(s), true, color)) <==> HasWordChar(s)
  {
    var lines := SplitLines(s);
    HasWordCharJoin(Decorate(lines, true, color));
    HasWordCharSplit(s);
    PaddedLines(lines, color);
  }

  /** Padding every line neither adds nor removes a word character from the lines. */
  lemma PaddedLines(lines: seq<string>, color: Option<Color>)
    ensures SomeHasWordChar(Decorate(lines, true, color)) <==> SomeHasWordChar(lines)
  {
    var d := Decorate(lines, true, color);
    if SomeHasWordChar(d) {
      var k :| 0 <= k < |d| && HasWordChar(d[k]);
      PaddedLine(lines, color, k);
    }
    if SomeHasWordChar(lines) {
      var k :| 0 <= k < |lines| && HasWordChar(lines[k]);
      PaddedLine(lines, color, k);
    }
  }

  /** Without the prefix every line is behind the padding, which shows no word character. */
  lemma PaddedLine(lines: seq<string>, color: Option<Color>, k: int)
    requires 0 <= k < |lines|
    ensures Decorate(lines, true, color)[k] == Padding() + lines[k]
    ensures HasWordChar(Decorate(lines, true, color)[k]) <==> HasWordChar(lines[k])
  {
    NoWordCharInSpaces(|Prefix|);
    HasWordCharConcat(Padding(), lines[k]);
  }

  /** With the prefix, the filter always passes: the prefix itself shows `[` and letters. */
  lemma PrefixedPasses(data: Data, color: Option<Color>)
    ensures HasWordChar(Format(data, false, color))
  {
    var lead := Lead(0, false, color);
    assert lead[5] == Prefix[0] == '[';
    assert HasWordChar(lead);
    match data
    case Text(s) =>
      var lines := SplitLines(s);
      var d := Decorate(lines, false, color);
      assert d[0] == lead + lines[0];
      HasWordCharConcat(lead, lines[0]);
      HasWordCharJoin(d);
    case Value(v) =>
      HasWordCharConcat(lead, v);
  }

  // The exported functions

  datatype Stream = Stdout | Stderr

  /** A call of an exported function with string data and no further arguments, as other modules make them. */
  datatype Call = InfoCall(message: string) | SucceedCall(message: string) | ErrorCall(message: string)

  /** A line written to the console. */
  datatype Emission = Emission(stream: Stream, text: string)

  /** `info`: prints the message when it shows a character of `[0-9A-z]`. */
  method Info(data: Data, noPrefix: bool, color: Option<Color>) returns (out: Option<Emission>)
    ensures HasWordChar(Format(data, noPrefix, color)) ==> out == Some(Emission(Stdout, Format(data, noPrefix, color)))
    ensures !HasWordChar(Format(data, noPrefix, color)) ==> out == None
    ensures !noPrefix ==> out == Some(Emission(Stdout, Format(data, noPrefix, color)))
    ensures noPrefix ==> (out.Some? <==> HasWordChar(Shown(data)))
  {
    var message := ParseMessage(data, noPrefix, color);
    PrefixedPasses(data, color);
    NoPrefixFilter(data, color);
    out := if HasWordChar(message) then Some(Emission(Stdout, message)) else None;
  }

  /** `succeed`: always prints, without the prefix, in green, after a blank line. */
  method Succeed(data: Data) returns (out: Emission)
    ensures out == Emission(Stdout, "\n" + Paint(Green, Format(data, true, None)))
  {
    var message := ParseMessage(data, true, None);
    out := Emission(Stdout, "\n" + Paint(Green, message));
  }

  /** `fail`: always prints, without the prefix, in red, after a blank line. */
  method Fail(data: Data) returns (out: Emission)
    ensures out == Emission(Stdout, "\n" + Paint(Red, Format(data, true, None)))
  {
    var message := ParseMessage(data, true, None);
    out := Emission(Stdout, "\n" + Paint(Red, message));
  }

  /** `warn`: like `info` with a yellow prefix, printed in yellow as a warning. */
  method Warn(data: Data, noPrefix: bool) returns (out: Option<Emission>)
    ensures HasWordChar(Format(data, noPrefix, Some(Yellow))) ==> out == Some(Emission(Stderr, Paint(Yellow, Format(data, noPrefix, Some(Yellow)))))
    ensures !HasWordChar(Format(data, noPrefix, Some(Yellow))) ==> out == None
    ensures !noPrefix ==> out == Some(Emission(Stderr, Paint(Yellow, Format(data, noPrefix, Some(Yellow)))))
    ensures noPrefix ==> (out.Some? <==> HasWordChar(Shown(data)))
  {
    var message := ParseMessage(data, noPrefix, Some(Yellow));
    PrefixedPasses(data, Some(Yellow));
    NoPrefixFilter(data, Some(Yellow));
    out := if HasWordChar(message) then Some(Emission(Stderr, Paint(Yellow, message))) else None;
  }

  /** `error`: like `info` with a red prefix, printed in red as an error. */
  method Error(data: Data, noPrefix: bool) returns (out: Option<Emission>)
    ensures HasWordChar(Format(data, noPrefix, Some(Red))) ==> out == Some(Emission(Stderr, Paint(Red, Format(data, noPrefix, Some(Red)))))
    ensures !HasWordChar(Format(data, noPrefix, Some(Red))) ==> out == None
    ensures !noPrefix ==> out == Some(Emission(Stderr, Paint(Red, Format(data, noPrefix, Some(Red)))))
    ensures noPrefix ==> (out.Some? <==> HasWordChar(Shown(data)))
  {
    var message := ParseMessage(data, noPrefix, Some(Red));
    PrefixedPasses(data, Some(Red));
    NoPrefixFilter(data, Some(Red));
    out := if HasWordChar(message) then Some(Emission(Stderr, Paint(Red, message))) else None;
  }
}
