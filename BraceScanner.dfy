/** The brace-counting capture of a prompt's JSON block (analyzer/analyzer.py:43-77).
    After a prompt-start line the analyzer reads the following lines, keeping a
    bracket level that starts at 1: a line holding `}` lowers it by its number of
    `}` (and its `{` are then not counted), any other line raises it by its number
    of `{`. The block ends on the line that brings the level to 0 (kept up to its
    last `}`), is abandoned on a line that brings it below 0, and is cut off by
    the end of the input. */
module BraceScanner {

  /** `line.count(c)`. */
  function Count(line: string, c: char): nat {
    multiset(line)[c]
  }

  /** `line.rfind(c)`: the last position of `c`, or -1. */
  function LastIndexOf(line: string, c: char): (k: int)
    ensures -1 <= k < |line|
    ensures k >= 0 ==> line[k] == c
    ensures forall j :: k < j < |line| ==> line[j] != c
    decreases |line|
  {
    if line == [] then -1
    else if line[|line| - 1] == c then |line| - 1
    else LastIndexOf(line[..|line| - 1], c)
  }

  /** The closing line kept up to and including its last `}`. */
  function CutAfterLastClose(line: string): string {
    line[..LastIndexOf(line, '}') + 1]
  }

  /** How one line moves the bracket level: by its net number of braces,
      except that the `{` of a line that also holds a `}` are not counted. */
  function Delta(line: string): (d: int)
    ensures '{' !in line || '}' !in line ==> d == Count(line, '{') - Count(line, '}')
    ensures '{' in line && '}' in line ==> d == (Count(line, '{') - Count(line, '}')) - Count(line, '{')
    ensures d < 0 <==> '}' in line
  {
    if Count(line, '}') > 0 then -(Count(line, '}') as int) else Count(line, '{')
  }

  /** The bracket level after the lines `lines[start..j]`. */
  function Depth(lines: seq<string>, start: nat, j: nat): int
    requires start <= j <= |lines|
    decreases j
  {
    if j == start then 1 else Depth(lines, start, j - 1) + Delta(lines[j - 1])
  }

  function Concat(lines: seq<string>): string {
    if lines == [] then "" else Concat(lines[..|lines| - 1]) + lines[|lines| - 1]
  }

  /** How a capture ends: closed by line `last` with the captured text, abandoned
      at line `last` below level 0, or cut off by the end of the input. */
  datatype BlockEnd =
    | Closed(text: string, last: nat)
    | Mismatched(last: nat)
    | Truncated

  /** The capture from line `j` on, at bracket level `depth` with `acc` read so far. */
  function CaptureFrom(lines: seq<string>, j: nat, depth: int, acc: string): (c: BlockEnd)
    requires j <= |lines| && depth > 0
    ensures !c.Truncated? ==> j <= c.last < |lines|
    decreases |lines| - j
  {
    if j == |lines| then Truncated
    else
      var line := lines[j];
      var closeCount := Count(line, '}');
      if closeCount > 0 then
        var level := depth - closeCount;
        if level == 0 then Closed(acc + CutAfterLastClose(line), j)
        else if level < 0 then Mismatched(j)
        else CaptureFrom(lines, j + 1, level, acc + line)
      else
        CaptureFrom(lines, j + 1, depth + Count(line, '{'), acc + line)
  }

  /** The capture of the block opened on the line before `start`. */
  function Capture(lines: seq<string>, start: nat): (c: BlockEnd)
    requires start <= |lines|
    ensures !c.Truncated? ==> start <= c.last < |lines|
  {
    CaptureFrom(lines, start, 1, "{\n")
  }

  lemma ConcatSnoc(lines: seq<string>, start: nat, j: nat)
    requires start <= j < |lines|
    ensures Concat(lines[start..j + 1]) == Concat(lines[start..j]) + lines[j]
  {
    assert lines[start..j + 1][..j - start] == lines[start..j];
  }

  /** The bracket level stays positive after each of the lines `lines[start..j]`. */
  ghost predicate PositiveThrough(lines: seq<string>, start: nat, j: nat)
    requires start <= j <= |lines|
  {
    forall k :: start < k <= j ==> Depth(lines, start, k) > 0
  }

  /** What the capture of the block opened before line `start` means in terms of
      the bracket level: it ends on the first line after which the level is no
      longer positive, closed with the text `{` + newline, the lines in between
      and the closing line cut after its last `}` when the level is exactly 0,
      abandoned when it is below 0; it is cut off only when the level stays
      positive to the end of the input. */
  ghost predicate EndsAsCounted(lines: seq<string>, start: nat, c: BlockEnd)
    requires start <= |lines|
    requires !c.Truncated? ==> start <= c.last < |lines|
  {
    match c
    case Closed(text, last) =>
      && Depth(lines, start, last + 1) == 0
      && PositiveThrough(lines, start, last)
      && text == "{\n" + Concat(lines[start..last]) + CutAfterLastClose(lines[last])
    case Mismatched(last) =>
      Depth(lines, start, last + 1) < 0 && PositiveThrough(lines, start, last)
    case Truncated =>
      PositiveThrough(lines, start, |lines|)
  }

  lemma {:induction false} CaptureFromSpec(lines: seq<string>, start: nat, j: nat, acc: string)
    requires start <= j <= |lines|
    requires PositiveThrough(lines, start, j)
    requires acc == "{\n" + Concat(lines[start..j])
    ensures Depth(lines, start, j) > 0
    ensures EndsAsCounted(lines, start, CaptureFrom(lines, j, Depth(lines, start, j), acc))
    decreases |lines| - j
  {
    if j < |lines| {
      var d := Depth(lines, start, j + 1);
      assert d == Depth(lines, start, j) + Delta(lines[j]);
      if d > 0 {
        ConcatSnoc(lines, start, j);
        assert "{\n" + Concat(lines[start..j + 1]) == acc + lines[j];
        assert CaptureFrom(lines, j, Depth(lines, start, j), acc) == CaptureFrom(lines, j + 1, d, acc + lines[j]);
        CaptureFromSpec(lines, start, j + 1, acc + lines[j]);
      }
    }
  }

  /** The capture ends as the bracket level says it does. */
  lemma CaptureSpec(lines: seq<string>, start: nat)
    requires start <= |lines|
    ensures EndsAsCounted(lines, start, Capture(lines, start))
  {
    assert "{\n" + Concat(lines[start..start]) == "{\n";
    CaptureFromSpec(lines, start, start, "{\n");
  }

  /** A line holding both a nested object and its closing brace lowers the
      level: the capture closes on it although the block's own `}` is still to
      come, so the captured text is not the whole object. */
  lemma NestedObjectClosesEarly()
    ensures Capture(["{}\n", "}\n"], 0) == Closed("{\n{}", 0)
  {
    var line := "{}\n";
    assert multiset(line) == multiset{'{', '}', '\n'};
    assert Count(line, '}') == 1;
    assert LastIndexOf(line, '}') == 1;
  }

  /** The inner `while` loop of the analyzer: reads from line `start` and stops
      where the capture ends, with the bracket level and the text read. */
  method ScanBlock(lines: seq<string>, start: nat) returns (i: nat, level: int, json: string)
    requires start <= |lines|
    ensures var c := Capture(lines, start);
            && (c.Closed? ==> i == c.last && level == 0 && json == c.text)
            && (c.Mismatched? ==> i == c.last && level < 0)
            && (c.Truncated? ==> i == |lines| && level > 0)
  {
    i, level, json := start, 1, "{\n";
    while i < |lines|
      invariant start <= i <= |lines| && level > 0
      invariant CaptureFrom(lines, i, level, json) == Capture(lines, start)
      decreases |lines| - i
    {
      var line := lines[i];
      var closeCount := Count(line, '}');
      if closeCount > 0 {
        level := level - closeCount;
        if level == 0 {
          json := json + line[..LastIndexOf(line, '}') + 1];
          return;
        } else if level < 0 {
          json := json + line;
          return;
        } else {
          json := json + line;
        }
      } else if '{' in line {
        level := level + Count(line, '{');
        json := json + line;
      } else {
        json := json + line;
      }
      i := i + 1;
    }
  }
}
