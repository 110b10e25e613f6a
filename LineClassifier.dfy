/** Recognition of the three kinds of log line the analyzer dispatches on
    (analyzer/analyzer.py:35, 43 and 96). Each pattern is searched for anywhere
    in the line, leftmost match first, as `re.search` does; the character classes
    `\d` and `\w` are taken over ASCII. Every scanner works on index ranges of the
    one line, so a match is described by positions in it. */
module LineClassifier {
  import opened Prompts

  /** What a log line is, in the order the analyzer tries the patterns. */
  datatype LineKind =
    | Marker(hand: nat)
    | PromptStart(agent: string)
    | DecisionLine(decision: Decision)
    | Other

  const MarkerHead := "=== STARTING NEW HAND #"
  const MarkerTail := " ==="
  const PromptHead := "LLM Prompt for "
  const PromptTail := ": {"
  const AgentWord := "Agent"
  const DecisionMid := "] Successfully parsed decision: "
  const Comma := ", "

  predicate IsDigit(c: char) {
    '0' <= c <= '9'
  }

  /** `\w`, restricted to ASCII. */
  predicate IsWordChar(c: char) {
    IsDigit(c) || 'a' <= c <= 'z' || 'A' <= c <= 'Z' || c == '_'
  }

  /** The code-point ranges of the characters `str.isspace` accepts (and so
      `str.strip` removes). */
  const SpaceRanges: seq<(int, int)> := [
    (0x09, 0x0d), (0x1c, 0x20), (0x85, 0x85), (0xa0, 0xa0), (0x1680, 0x1680),
    (0x2000, 0x200a), (0x2028, 0x2029), (0x202f, 0x202f), (0x205f, 0x205f), (0x3000, 0x3000)]

  predicate InRanges(x: int, ranges: seq<(int, int)>) {
    ranges != [] && (ranges[0].0 <= x <= ranges[0].1 || InRanges(x, ranges[1..]))
  }

  predicate IsSpace(c: char) {
    InRanges(c as int, SpaceRanges)
  }

  /** What the regular-expression `.` matches. */
  predicate NotNewline(c: char) {
    c != '\n'
  }

  /** The literal `lit` occurs in `s` at position `p`. */
  predicate HasAt(s: string, p: nat, lit: string) {
    p + |lit| <= |s| && s[p..p + |lit|] == lit
  }

  /** Length of the longest run of `inClass` characters in `s[p..hi]` starting
      at `p`: what a greedy `[class]*` consumes before `hi`. */
  function Span(s: string, p: nat, hi: nat, inClass: char -> bool): (n: nat)
    requires p <= hi <= |s|
    ensures p + n <= hi
    ensures p + n < hi ==> !inClass(s[p + n])
    decreases hi - p
  {
    if p < hi && inClass(s[p]) then 1 + Span(s, p + 1, hi, inClass) else 0
  }

  /** Length of the longest run of `inClass` characters in `s[lo..j]` ending at `j`. */
  function SpanBack(s: string, lo: nat, j: nat, inClass: char -> bool): (n: nat)
    requires lo <= j <= |s|
    ensures lo + n <= j
    ensures lo + n < j ==> !inClass(s[j - n - 1])
    decreases j - lo
  {
    if lo < j && inClass(s[j - 1]) then 1 + SpanBack(s, lo, j - 1, inClass) else 0
  }

  /** `Span` is the longest run: it has length `n` exactly when the `n`
      characters from `p` are in the class and the next one (if before `hi`) is not. */
  lemma {:induction false} SpanIsLongest(s: string, p: nat, hi: nat, inClass: char -> bool, n: nat)
    requires p + n <= hi <= |s|
    ensures Span(s, p, hi, inClass) == n <==>
              (forall k :: p <= k < p + n ==> inClass(s[k])) && (p + n < hi ==> !inClass(s[p + n]))
    decreases n
  {
    if n > 0 {
      SpanIsLongest(s, p + 1, hi, inClass, n - 1);
      if forall k :: p + 1 <= k < p + n ==> inClass(s[k]) {
        if inClass(s[p]) {
          assert forall k :: p <= k < p + n ==> inClass(s[k]) by {
            forall k | p <= k < p + n ensures inClass(s[k]) {
              if k > p { assert p + 1 <= k < p + n; }
            }
          }
        }
      }
    }
  }

  /** Every character `SpanBack` counts is in the class. */
  lemma {:induction false} SpanBackAll(s: string, lo: nat, j: nat, inClass: char -> bool)
    requires lo <= j <= |s|
    ensures forall k :: j - SpanBack(s, lo, j, inClass) <= k < j ==> inClass(s[k])
    decreases j - lo
  {
    if lo < j && inClass(s[j - 1]) {
      SpanBackAll(s, lo, j - 1, inClass);
    }
  }

  /** The integer the decimal digits `s[lo..hi]` denote, as `int` computes it. */
  function DigitsValue(s: string, lo: nat, hi: nat): nat
    requires lo <= hi <= |s|
    decreases hi - lo
  {
    if hi == lo then 0 else DigitsValue(s, lo, hi - 1) * 10 + DigitValue(s[hi - 1])
  }

  function DigitValue(c: char): nat {
    if IsDigit(c) then c as int - '0' as int else 0
  }

  /** Equal text at two places denotes the same number. */
  lemma {:induction false} DigitsValueShift(s: string, lo: nat, t: string, lo': nat, n: nat)
    requires lo + n <= |s| && lo' + n <= |t|
    requires s[lo..lo + n] == t[lo'..lo' + n]
    ensures DigitsValue(s, lo, lo + n) == DigitsValue(t, lo', lo' + n)
  {
    if n > 0 {
      assert s[lo..lo + (n - 1)] == s[lo..lo + n][..n - 1];
      assert t[lo'..lo' + (n - 1)] == t[lo'..lo' + n][..n - 1];
      DigitsValueShift(s, lo, t, lo', n - 1);
      assert s[lo + (n - 1)] == s[lo..lo + n][n - 1];
      assert t[lo' + (n - 1)] == t[lo'..lo' + n][n - 1];
    }
  }

  /** The decimal numeral of `n`, the inverse of `DigitsValue`. */
  function Numeral(n: nat): (ds: string)
    ensures |ds| > 0
    ensures forall k :: 0 <= k < |ds| ==> IsDigit(ds[k])
    ensures DigitsValue(ds, 0, |ds|) == n
  {
    var last := [('0' as int + n % 10) as char];
    if n < 10 then last
    else
      var front := Numeral(n / 10);
      assert (front + last)[0..|front|] == front[0..|front|];
      DigitsValueShift(front, 0, front + last, 0, |front|);
      front + last
  }

  /** Where `.*` started at `p` stops: the first newline from `p` on, or the end. */
  function LineEnd(s: string, p: nat): (e: nat)
    requires p <= |s|
    ensures p <= e <= |s|
  {
    p + Span(s, p, |s|, NotNewline)
  }

  /** The bounds of `s[lo..hi].strip()` inside `s`. */
  function StripBounds(s: string, lo: nat, hi: nat): (b: (nat, nat))
    requires lo <= hi <= |s|
    ensures lo <= b.0 <= b.1 <= hi
  {
    var i := lo + Span(s, lo, hi, IsSpace);
    (i, hi - SpanBack(s, i, hi, IsSpace))
  }

  /** `strip` removes white space at both ends and nothing else: what lies
      outside the bounds is white space, and the kept text neither starts nor
      ends with it. */
  lemma StripBoundsSpec(s: string, lo: nat, hi: nat)
    requires lo <= hi <= |s|
    ensures var b := StripBounds(s, lo, hi);
            && (forall k :: lo <= k < b.0 ==> IsSpace(s[k]))
            && (forall k :: b.1 <= k < hi ==> IsSpace(s[k]))
            && (b.0 < b.1 ==> !IsSpace(s[b.0]) && !IsSpace(s[b.1 - 1]))
  {
    var n := Span(s, lo, hi, IsSpace);
    SpanIsLongest(s, lo, hi, IsSpace, n);
    SpanBackAll(s, lo + n, hi, IsSpace);
  }

  /** `s[lo..hi].strip()`. */
  function StripRange(s: string, lo: nat, hi: nat): string
    requires lo <= hi <= |s|
  {
    var b := StripBounds(s, lo, hi);
    s[b.0..b.1]
  }

  /** Leftmost position from `p` on where `at` matches, and what it captured. */
  function Search<T>(s: string, p: nat, at: (string, nat) -> Option<T>): (r: Option<T>)
    ensures r.None? <==> forall k :: p <= k <= |s| ==> at(s, k).None?
    ensures r.Some? ==> exists k :: p <= k <= |s| && at(s, k) == r && forall j :: p <= j < k ==> at(s, j).None?
    decreases |s| + 1 - p
  {
    if p > |s| then None
    else if at(s, p).Some? then at(s, p)
    else Search(s, p + 1, at)
  }

  /** End of `Agent\d+` when it starts at `p`. */
  function AgentEnd(s: string, p: nat): (e: Option<nat>)
    ensures e.Some? ==> p + |AgentWord| < e.value <= |s|
  {
    if HasAt(s, p, AgentWord) then
      var n := Span(s, p + |AgentWord|, |s|, IsDigit);
      if n > 0 then Some(p + |AgentWord| + n) else None
    else None
  }

  /** `=== STARTING NEW HAND #(\d+) ===` matched at `p`: the hand number. */
  function MarkerAt(s: string, p: nat): Option<nat> {
    if HasAt(s, p, MarkerHead) then MarkerNumber(s, p + |MarkerHead|) else None
  }

  /** `(\d+) ===` matched at `q`: the number. */
  function MarkerNumber(s: string, q: nat): Option<nat>
    requires q <= |s|
  {
    var n := Span(s, q, |s|, IsDigit);
    if n > 0 && HasAt(s, q + n, MarkerTail) then Some(DigitsValue(s, q, q + n)) else None
  }

  /** `LLM Prompt for (Agent\d+): \{` matched at `p`: the agent name. */
  function PromptAt(s: string, p: nat): Option<string> {
    if HasAt(s, p, PromptHead) then
      var q := p + |PromptHead|;
      match AgentEnd(s, q)
      case Some(e) => if HasAt(s, e, PromptTail) then Some(s[q..e]) else None
      case None => None
    else None
  }

  /** `\[(Agent\d+)\] Successfully parsed decision: (\w+), (\d+), (.*)` matched
      at `p`: the agent, the action, the amount as an integer and the stripped
      reasoning. */
  function DecisionAt(s: string, p: nat): Option<Decision> {
    if HasAt(s, p, "[") then DecisionAfterBracket(s, p + 1) else None
  }

  /** `(Agent\d+)\] Successfully parsed decision: (\w+), (\d+), (.*)` matched at `q`. */
  function DecisionAfterBracket(s: string, q: nat): Option<Decision> {
    match AgentEnd(s, q)
    case None => None
    case Some(e) => if HasAt(s, e, DecisionMid) then DecisionFields(s, s[q..e], e + |DecisionMid|) else None
  }

  /** `[class]+, ` matched at `p`: the position after the comma and space. */
  function RunThenComma(s: string, p: nat, inClass: char -> bool): (r: Option<nat>)
    requires p <= |s|
    ensures r.Some? ==> p + |Comma| < r.value <= |s|
  {
    var n := Span(s, p, |s|, inClass);
    if n > 0 && HasAt(s, p + n, Comma) then Some(p + n + |Comma|) else None
  }

  /** `(\w+), (\d+), (.*)` matched at `a`, completing a decision for `agent`. */
  function DecisionFields(s: string, agent: string, a: nat): Option<Decision>
    requires a <= |s|
  {
    match RunThenComma(s, a, IsWordChar)
    case None => None
    case Some(b) =>
      match RunThenComma(s, b, IsDigit)
      case None => None
      case Some(c) => Some(DecisionOf(s, agent, a, b, c))
  }

  /** The decision whose action ends before `b - 2`, amount before `c - 2` and reasoning runs from `c` to the line end. */
  function DecisionOf(s: string, agent: string, a: nat, b: nat, c: nat): Decision
    requires a + |Comma| <= b && b + |Comma| <= c <= |s|
  {
    Decision(agent, s[a..b - |Comma|], DigitsValue(s, b, c - |Comma|), StripRange(s, c, LineEnd(s, c)))
  }

  /** The dispatch order of the analyzer's loop: marker, then prompt start, then decision. */
  function Classify(line: string): LineKind
  {
    match Search(line, 0, MarkerAt)
    case Some(n) => Marker(n)
    case None =>
      match Search(line, 0, PromptAt)
      case Some(agent) => PromptStart(agent)
      case None =>
        match Search(line, 0, DecisionAt)
        case Some(d) => DecisionLine(d)
        case None => Other
  }

  /** Each line is handled by exactly one rule, the first whose pattern occurs
      somewhere in it: a marker wins over a prompt start, which wins over a decision. */
  lemma ClassifyPriority(line: string)
    ensures Classify(line).Marker? <==> exists k :: 0 <= k <= |line| && MarkerAt(line, k).Some?
    ensures Classify(line).PromptStart? <==>
              && (forall k :: 0 <= k <= |line| ==> MarkerAt(line, k).None?)
              && (exists k :: 0 <= k <= |line| && PromptAt(line, k).Some?)
    ensures Classify(line).DecisionLine? <==>
              && (forall k :: 0 <= k <= |line| ==> MarkerAt(line, k).None?)
              && (forall k :: 0 <= k <= |line| ==> PromptAt(line, k).None?)
              && (exists k :: 0 <= k <= |line| && DecisionAt(line, k).Some?)
  {
  }

  lemma HasAtChar(s: string, p: nat, lit: string, i: nat)
    ensures HasAt(s, p, lit) && i < |lit| ==> s[p + i] == lit[i]
  {
    if HasAt(s, p, lit) && i < |lit| {
      assert s[p..p + |lit|][i] == lit[i];
    }
  }

  /** Every marker match starts with `=`, so a line without one holds no marker. */
  lemma NoMarkerWithoutEquals(s: string)
    requires '=' !in s
    ensures Search(s, 0, MarkerAt) == None
  {
    forall k | 0 <= k <= |s| ensures MarkerAt(s, k).None? {
      HasAtChar(s, k, MarkerHead, 0);
    }
  }

  /** Every prompt-start match ends with `{`, so a line without one starts no prompt. */
  lemma NoPromptWithoutBrace(s: string)
    requires '{' !in s
    ensures Search(s, 0, PromptAt) == None
  {
    forall k | 0 <= k <= |s| ensures PromptAt(s, k).None? {
      if HasAt(s, k, PromptHead) && AgentEnd(s, k + |PromptHead|).Some? {
        var e := AgentEnd(s, k + |PromptHead|).value;
        HasAtChar(s, e, PromptTail, 2);
      }
    }
  }

  /** A hand-start marker line as the log prints it starts hand 3. */
  lemma MarkerExample()
    ensures Classify("=== STARTING NEW HAND #3 ===\n") == Marker(3)
  {
    var s := "=== STARTING NEW HAND #3 ===\n";
    assert HasAt(s, 0, MarkerHead);
    assert Span(s, 23, |s|, IsDigit) == 1;
    assert HasAt(s, 24, MarkerTail);
    assert MarkerAt(s, 0) == Some(3);
  }

  /** A prompt-start line as the log prints it opens a block for `Agent1`. */
  lemma PromptExample()
    ensures Classify("LLM Prompt for Agent1: {\n") == PromptStart("Agent1")
  {
    NoMarkerWithoutEquals("LLM Prompt for Agent1: {\n");
    PromptAtExample();
  }

  /** The prompt pattern matches that line at its start and captures `Agent1`. */
  lemma PromptAtExample()
    ensures PromptAt("LLM Prompt for Agent1: {\n", 0) == Some("Agent1")
  {
    var s := "LLM Prompt for Agent1: {\n";
    assert HasAt(s, 0, PromptHead);
    assert Span(s, 20, |s|, IsDigit) == 1;
    assert AgentEnd(s, 15) == Some(21);
    assert HasAt(s, 21, PromptTail);
    assert s[15..21] == "Agent1";
  }
}
