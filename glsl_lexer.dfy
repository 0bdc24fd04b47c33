/** The GLSL syntax-highlighting lexer: the name it reports for its shader
    stage, the style it reports for every style number, and `styleText`,
    which styles a range of the editor's text line by line. */
module GlslLexer {

  // ------------------------------------------------------------- lexer()

  /** `QOpenGLShader::ShaderType`, a flag value. */
  type ShaderType = int

  const Vertex: ShaderType := 0x0001
  const Fragment: ShaderType := 0x0002
  const Geometry: ShaderType := 0x0004
  const TessellationControl: ShaderType := 0x0008
  const TessellationEvaluation: ShaderType := 0x0010
  const Compute: ShaderType := 0x0020

  /** The six stages the lexer names. */
  predicate KnownStage(t: ShaderType) {
    t == Vertex || t == Fragment || t == Geometry ||
    t == TessellationControl || t == TessellationEvaluation || t == Compute
  }

  /** `lexer()`: the stage's name, or the empty string for any other value. */
  function LexerName(t: ShaderType): (name: string)
    ensures name == "" <==> !KnownStage(t)
  {
    if t == Vertex then "Vertex"
    else if t == Fragment then "Fragment"
    else if t == Geometry then "Geometry"
    else if t == TessellationControl then "TessellationControl"
    else if t == TessellationEvaluation then "TessellationEvaluation"
    else if t == Compute then "Compute"
    else ""
  }

  /** The stage a name stands for; an independent reading of the table. */
  function StageNamed(name: string): ShaderType {
    match name
    case "Vertex" => Vertex
    case "Fragment" => Fragment
    case "Geometry" => Geometry
    case "TessellationControl" => TessellationControl
    case "TessellationEvaluation" => TessellationEvaluation
    case "Compute" => Compute
    case _ => 0
  }

  /** Every named stage can be read back from its name, so no two stages
      share a name. */
  lemma LexerNameRoundTrip(t: ShaderType)
    requires KnownStage(t)
    ensures StageNamed(LexerName(t)) == t
  {
  }

  lemma LexerNameInjective(s: ShaderType, t: ShaderType)
    requires LexerName(s) == LexerName(t) && KnownStage(s)
    ensures s == t
  {
    LexerNameRoundTrip(s);
    LexerNameRoundTrip(t);
  }

  // ------------------------------------------------------ style getters

  /** An RGB colour. */
  datatype Color = Color(red: int, green: int, blue: int)

  /** A `QsciStyle`: what the editor shows for one style number. */
  datatype StyleInfo = StyleInfo(description: string, color: Color, paper: Color, font: string, eolFill: bool)

  /** The style the constructor makes for the `Default` slot and then
      copies into every slot. */
  function DefaultStyle(): StyleInfo {
    StyleInfo("Keyword", Color(255, 0, 0), Color(0, 0, 255), "Monospace", true)
  }

  /** The number of style slots, `Style::Count` of the header. */
  const StyleCount: nat := 14

  /** The style table the constructor leaves behind: the default style
      written to slot 0 and then copied over every slot. */
  function InitialStyles(): (styles: seq<StyleInfo>)
    ensures |styles| == StyleCount && forall i :: 0 <= i < StyleCount ==> styles[i] == DefaultStyle()
  {
    seq(StyleCount, _ => DefaultStyle())
  }

  /** The getters `color`, `font`, `description`, `paper` and `eolFill`:
      each reads slot 0 of the table, whatever `style` it is asked about. */
  function StyleColor(styles: seq<StyleInfo>, style: int): Color
    requires |styles| > 0
  {
    styles[0].color
  }

  function StyleFont(styles: seq<StyleInfo>, style: int): string
    requires |styles| > 0
  {
    styles[0].font
  }

  function StyleDescription(styles: seq<StyleInfo>, style: int): string
    requires |styles| > 0
  {
    styles[0].description
  }

  function StylePaper(styles: seq<StyleInfo>, style: int): Color
    requires |styles| > 0
  {
    styles[0].paper
  }

  function StyleEolFill(styles: seq<StyleInfo>, style: int): bool
    requires |styles| > 0
  {
    styles[0].eolFill
  }

  /** With the table the constructor builds, every style number reports
      the default style: red on blue, "Monospace", "Keyword", filled to
      the end of the line. */
  lemma GettersIgnoreStyle(s: int, s': int)
    ensures var styles := InitialStyles();
      StyleColor(styles, s) == StyleColor(styles, s') == Color(255, 0, 0) &&
      StylePaper(styles, s) == StylePaper(styles, s') == Color(0, 0, 255) &&
      StyleFont(styles, s) == StyleFont(styles, s') == "Monospace" &&
      StyleDescription(styles, s) == StyleDescription(styles, s') == "Keyword" &&
      StyleEolFill(styles, s) == StyleEolFill(styles, s') == true
  {
    var styles := InitialStyles();
    assert styles[0] == DefaultStyle();
  }

  // ---------------------------------------------------------- styleText

  /** The three styles `styleText` applies. */
  datatype Style = Default | Comment | Macro

  /** One `setStyling` call: `length` characters from `start` get `style`. */
  datatype Run = Run(start: int, length: nat, style: Style)

  /** `QString(range)`: the characters before the first NUL. */
  function UpToNul(range: seq<char>): (text: seq<char>)
    ensures '\0' !in text && text <= range
    ensures |text| < |range| ==> range[|text|] == '\0'
  {
    if range == [] || range[0] == '\0' then []
    else [range[0]] + UpToNul(range[1..])
  }

  /** `text.split('\n')`: the pieces between newlines, empty ones included;
      always at least one. */
  function Split(s: string): (lines: seq<string>)
    ensures |lines| >= 1
    ensures forall i :: 0 <= i < |lines| ==> '\n' !in lines[i]
    decreases |s|
  {
    if s == [] then [""]
    else if s[0] == '\n' then [""] + Split(s[1..])
    else
      var rest := Split(s[1..]);
      [[s[0]] + rest[0]] + rest[1..]
  }

  /** The lines joined back with one newline between neighbours. */
  function Join(lines: seq<string>): string
    requires |lines| >= 1
    decreases |lines|
  {
    if |lines| == 1 then lines[0] else lines[0] + "\n" + Join(lines[1..])
  }

  /** Splitting loses nothing: joining the lines gives the text back. */
  lemma {:induction false} JoinSplit(s: string)
    ensures Join(Split(s)) == s
    decreases |s|
  {
    if s != [] {
      JoinSplit(s[1..]);
      var rest := Split(s[1..]);
      if s[0] == '\n' {
        assert Split(s)[1..] == rest;
        assert s == "\n" + s[1..];
      } else {
        var lines := Split(s);
        assert lines[1..] == rest[1..];
        if |rest| == 1 {
          assert Join(lines) == [s[0]] + rest[0];
        } else {
          assert Join(rest) == rest[0] + "\n" + Join(rest[1..]);
          assert Join(lines) == [s[0]] + rest[0] + "\n" + Join(rest[1..]);
        }
        assert s == [s[0]] + s[1..];
      }
    }
  }

  /** Joining lines that hold no newline and splitting again gives the same
      lines. */
  lemma {:induction false} SplitJoin(lines: seq<string>)
    requires |lines| >= 1 && forall i :: 0 <= i < |lines| ==> '\n' !in lines[i]
    ensures Split(Join(lines)) == lines
    decreases |lines|
  {
    if |lines| == 1 {
      SplitNoNewline(lines[0]);
    } else {
      SplitJoin(lines[1..]);
      SplitAfterLine(lines[0], Join(lines[1..]));
      assert [lines[0]] + lines[1..] == lines;
    }
  }

  lemma {:induction false} SplitNoNewline(s: string)
    requires '\n' !in s
    ensures Split(s) == [s]
    decreases |s|
  {
    if s != [] {
      assert s[0] in s;
      assert forall c :: c in s[1..] ==> c in s;
      SplitNoNewline(s[1..]);
      assert s == [s[0]] + s[1..];
    }
  }

  /** A line without newlines, a newline, and then `rest`. */
  lemma {:induction false} SplitAfterLine(line: string, rest: string)
    requires '\n' !in line
    ensures Split(line + "\n" + rest) == [line] + Split(rest)
    decreases |line|
  {
    if line == [] {
      assert line + "\n" + rest == "\n" + rest;
      assert ("\n" + rest)[1..] == rest;
    } else {
      assert line[0] in line;
      assert forall c :: c in line[1..] ==> c in line;
      SplitAfterLine(line[1..], rest);
      var s := line + "\n" + rest;
      assert s[0] == line[0] && s[1..] == line[1..] + "\n" + rest;
      assert [line[0]] + line[1..] == line;
    }
  }

  predicate StartsWith(s: string, prefix: string) {
    prefix <= s
  }

  /** The style of a line: `Macro` for a line starting with `#`, `Comment`
      for one starting with `//`, `Default` for any other. */
  function LineStyle(line: string): (style: Style)
    ensures style == Macro <==> StartsWith(line, "#")
    ensures style == Comment <==> StartsWith(line, "//")
  {
    assert StartsWith(line, "//") ==> line[0] == '/';
    var style := if StartsWith(line, "//") then Comment else Default;
    if StartsWith(line, "#") then Macro else style
  }

  /** Where line `k` starts when the first line starts at `pos`. */
  function Offset(lines: seq<string>, k: nat, pos: int): int
    requires k <= |lines|
  {
    if k == 0 then pos else Offset(lines, k - 1, pos) + |lines[k - 1]| + 1
  }

  /** The runs for line `i`: the line in its style, then, unless it is the
      last line, one `Default` character for its newline. */
  function LineRuns(lines: seq<string>, i: nat, pos: int): seq<Run>
    requires i < |lines|
  {
    [Run(pos, |lines[i]|, LineStyle(lines[i]))] +
    (if i < |lines| - 1 then [Run(pos + |lines[i]|, 1, Default)] else [])
  }

  /** The runs `styleText` emits for its first `k` lines. */
  function Emitted(lines: seq<string>, k: nat, pos: int): (runs: seq<Run>)
    requires k <= |lines|
    ensures |runs| == if k == 0 then 0 else if k == |lines| then 2 * k - 1 else 2 * k
  {
    if k == 0 then [] else Emitted(lines, k - 1, pos) + LineRuns(lines, k - 1, Offset(lines, k - 1, pos))
  }

  /** The runs, one by one: run `2 i` is line `i` in its style and starts
      where that line starts, run `2 i + 1` is the single `Default`
      character of its newline. */
  lemma {:induction false} EmittedAt(lines: seq<string>, k: nat, pos: int)
    requires k <= |lines|
    ensures forall j :: 0 <= j < |Emitted(lines, k, pos)| ==>
      var i := j / 2;
      Emitted(lines, k, pos)[j] ==
        if j % 2 == 0 then Run(Offset(lines, i, pos), |lines[i]|, LineStyle(lines[i]))
        else Run(Offset(lines, i, pos) + |lines[i]|, 1, Default)
  {
    if k > 0 {
      EmittedAt(lines, k - 1, pos);
      var prev := Emitted(lines, k - 1, pos);
      var runs := Emitted(lines, k, pos);
      assert |prev| == 2 * (k - 1);
      forall j | 0 <= j < |runs|
        ensures var i := j / 2;
          runs[j] == if j % 2 == 0 then Run(Offset(lines, i, pos), |lines[i]|, LineStyle(lines[i]))
                     else Run(Offset(lines, i, pos) + |lines[i]|, 1, Default)
      {
        if j < |prev| {
          assert runs[j] == prev[j];
        } else if j == |prev| {
          assert j / 2 == k - 1 && j % 2 == 0;
        } else {
          assert j / 2 == k - 1 && j % 2 == 1;
        }
      }
    }
  }

  /** The runs are contiguous: each starts where the previous one ends. */
  predicate Contiguous(runs: seq<Run>, pos: int) {
    (|runs| > 0 ==> runs[0].start == pos) &&
    forall j :: 0 <= j < |runs| - 1 ==> runs[j + 1].start == runs[j].start + runs[j].length
  }

  function TotalLength(runs: seq<Run>): int {
    if runs == [] then 0 else TotalLength(runs[..|runs| - 1]) + runs[|runs| - 1].length
  }

  lemma {:induction false} TotalLengthAppend(a: seq<Run>, b: seq<Run>)
    ensures TotalLength(a + b) == TotalLength(a) + TotalLength(b)
    decreases |b|
  {
    if b == [] {
      assert a + b == a;
    } else {
      assert (a + b)[..|a + b| - 1] == a + b[..|b| - 1];
      assert (a + b)[|a + b| - 1] == b[|b| - 1];
      TotalLengthAppend(a, b[..|b| - 1]);
    }
  }

  /** The runs of the whole text leave no gap: each starts where the one
      before it ends, the first at `pos`. */
  lemma EmittedContiguous(lines: seq<string>, pos: int)
    ensures Contiguous(Emitted(lines, |lines|, pos), pos)
  {
    var runs := Emitted(lines, |lines|, pos);
    EmittedAt(lines, |lines|, pos);
    forall j | 0 <= j < |runs| - 1 ensures runs[j + 1].start == runs[j].start + runs[j].length {
      var i := j / 2;
      if j % 2 == 0 {
        assert (j + 1) / 2 == i && (j + 1) % 2 == 1;
      } else {
        assert (j + 1) / 2 == i + 1 && (j + 1) % 2 == 0;
        assert Offset(lines, i + 1, pos) == Offset(lines, i, pos) + |lines[i]| + 1;
      }
    }
  }

  /** The runs of one line cover it and, unless it is the last, its newline. */
  lemma LineRunsTotal(lines: seq<string>, i: nat, off: int)
    requires i < |lines|
    ensures TotalLength(LineRuns(lines, i, off)) == |lines[i]| + (if i < |lines| - 1 then 1 else 0)
  {
    var first := [Run(off, |lines[i]|, LineStyle(lines[i]))];
    assert first[..0] == [];
    if i < |lines| - 1 {
      var newline := [Run(off + |lines[i]|, 1, Default)];
      assert newline[..0] == [];
      assert LineRuns(lines, i, off) == first + newline;
      TotalLengthAppend(first, newline);
    } else {
      assert LineRuns(lines, i, off) == first;
    }
  }

  /** The first `k` lines' runs cover those lines and their newlines. */
  lemma {:induction false} EmittedTotal(lines: seq<string>, k: nat, pos: int)
    requires k <= |lines|
    ensures TotalLength(Emitted(lines, k, pos)) == Offset(lines, k, pos) - pos - (if 0 < k == |lines| then 1 else 0)
  {
    if k > 0 {
      EmittedTotal(lines, k - 1, pos);
      var off := Offset(lines, k - 1, pos);
      TotalLengthAppend(Emitted(lines, k - 1, pos), LineRuns(lines, k - 1, off));
      LineRunsTotal(lines, k - 1, off);
    }
  }

  /** The run lengths add up to the length of the text. */
  lemma StyledLength(text: string, pos: int)
    ensures var lines := Split(text);
      TotalLength(Emitted(lines, |lines|, pos)) == |text|
  {
    var lines := Split(text);
    EmittedTotal(lines, |lines|, pos);
    JoinSplit(text);
    OffsetJoin(lines, |lines|, pos);
    assert lines[..|lines|] == lines;
  }

  /** Line `k` starts one character after the end of the first `k` lines
      joined. */
  lemma {:induction false} OffsetJoin(lines: seq<string>, k: nat, pos: int)
    requires 0 < k <= |lines|
    ensures Offset(lines, k, pos) == pos + |Join(lines[..k])| + 1
  {
    if k > 1 {
      OffsetJoin(lines, k - 1, pos);
      JoinSnoc(lines[..k - 1], lines[k - 1]);
      assert lines[..k - 1] + [lines[k - 1]] == lines[..k];
    } else {
      assert Join(lines[..1]) == lines[0];
    }
    if k == |lines| {
      assert lines[..k] == lines;
    }
  }

  lemma {:induction false} JoinSnoc(lines: seq<string>, line: string)
    requires |lines| >= 1
    ensures Join(lines + [line]) == Join(lines) + "\n" + line
    decreases |lines|
  {
    if |lines| == 1 {
      assert (lines + [line])[1..] == [line];
    } else {
      JoinSnoc(lines[1..], line);
      assert (lines + [line])[1..] == lines[1..] + [line];
    }
  }

  /** The lexer object: its shader stage, its style table, and the
      editor's styling state it drives, with the cursor `startStyling`
      places and the runs `setStyling` has applied. */
  class QSciGlslLexer {
    const shaderType: ShaderType
    const styles: seq<StyleInfo>
    var position: int
    var runs: seq<Run>

    /** The constructor: every slot of the table gets the default style. */
    constructor (t: ShaderType)
      ensures shaderType == t && styles == InitialStyles()
      ensures runs == []
    {
      shaderType := t;
      styles := InitialStyles();
      position := 0;
      runs := [];
    }

    method StartStyling(start: int)
      modifies this
      ensures position == start && runs == old(runs)
    {
      position := start;
    }

    method SetStyling(length: nat, style: Style)
      modifies this
      ensures runs == old(runs) + [Run(old(position), length, style)]
      ensures position == old(position) + length
    {
      runs := runs + [Run(position, length, style)];
      position := position + length;
    }

    /** `styleText`, given the characters the editor returned for the range:
      every line in its style and every newline in `Default`, contiguous
      from `start`. */
    method StyleText(start: int, end: int, range: seq<char>)
      modifies this
      ensures var lines := Split(UpToNul(range));
              runs == old(runs) + Emitted(lines, |lines|, start)
      ensures position == start + |UpToNul(range)|
    {
      var text := UpToNul(range);
      StartStyling(start);
      var lines := Split(text);
      var i := 0;
      while i < |lines|
        invariant i <= |lines|
        invariant runs == old(runs) + Emitted(lines, i, start)
        invariant position == Offset(lines, i, start) - (if 0 < i == |lines| then 1 else 0)
      {
        var style := Default;
        if StartsWith(lines[i], "//") {
          style := Comment;
        }
        if StartsWith(lines[i], "#") {
          style := Macro;
        }
        SetStyling(|lines[i]|, style);
        if i < |lines| - 1 {
          SetStyling(1, Default);
        }
        i := i + 1;
      }
      StyledLength(text, start);
      EmittedTotal(lines, |lines|, start);
    }
  }
}
