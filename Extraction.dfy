/** The analyzer's outer loop (analyzer/analyzer.py:31-141) as a function on
    values: a scan state holds the cursor, the current hand number, the prompt
    cache and the records emitted so far, and one step dispatches the line
    under the cursor. `parse` stands for `json.loads` followed by the reading of
    the prompt fields; `None` is a decoding error. */
module Extraction {
  import opened Prompts
  import opened LineClassifier
  import opened BraceScanner

  datatype ScanState = ScanState(cursor: nat, hand: nat, cache: map<string, Entry>, records: seq<Record>)

  /** Before the first line: hand 0, nothing cached, nothing emitted. */
  const Initial := ScanState(0, 0, map[], [])

  /** The classification of every line. */
  function Kinds(lines: seq<string>): (kinds: seq<LineKind>)
    ensures |kinds| == |lines|
    decreases |lines|
  {
    if lines == [] then [] else Kinds(lines[..|lines| - 1]) + [Classify(lines[|lines| - 1])]
  }

  lemma {:induction false} KindsAt(lines: seq<string>, k: nat)
    requires k < |lines|
    ensures Kinds(lines)[k] == Classify(lines[k])
    decreases |lines|
  {
    if k < |lines| - 1 {
      KindsAt(lines[..|lines| - 1], k);
    }
  }

  /** The cache after a block for `agent` closed with `text`: the parsed prompt
      is stored, or on a decoding error the agent's entry is removed. */
  function Remember(cache: map<string, Entry>, agent: string, text: string, parsed: Option<Prompt>): (m: map<string, Entry>)
    ensures agent in m <==> parsed.Some?
    ensures parsed.Some? ==> m[agent] == Entry(parsed.value, text)
    ensures forall a :: a != agent ==> (a in m <==> a in cache)
    ensures forall a :: a != agent && a in cache ==> m[a] == cache[a]
  {
    match parsed
    case Some(p) => cache[agent := Entry(p, text)]
    case None => cache - {agent}
  }

  /** The line on which the reading of the block opened at line `c` stops:
      its closing or mismatching line, or `|lines|` at the end of the input. */
  function BlockStop(lines: seq<string>, c: nat): (j: nat)
    requires c < |lines|
    ensures c < j <= |lines|
  {
    match Capture(lines, c + 1)
    case Truncated => |lines|
    case Mismatched(j) => j
    case Closed(_, j) => j
  }

  /** The state after the prompt-start line at the cursor, for `agent`: the
      scan resumes on the line after the block reading stopped. */
  function AfterPrompt(lines: seq<string>, parse: string -> Option<Prompt>, st: ScanState, agent: string): ScanState
    requires st.cursor < |lines|
  {
    var resume := BlockStop(lines, st.cursor) + 1;
    match Capture(lines, st.cursor + 1)
    case Closed(text, _) => st.(cursor := resume, cache := Remember(st.cache, agent, text, parse(text)))
    case _ => st.(cursor := resume)
  }

  /** The state after the decision line at the cursor; `None` is the exception
      raised while building the record. */
  function AfterDecision(st: ScanState, d: Decision): Option<ScanState> {
    if d.agent in st.cache then
      match MakeRecord(st.hand, d, st.cache[d.agent])
      case None => None
      case Some(r) => Some(st.(cursor := st.cursor + 1, records := st.records + [r]))
    else Some(st.(cursor := st.cursor + 1))
  }

  /** One iteration of the outer loop on the line under the cursor. */
  function Step(lines: seq<string>, kinds: seq<LineKind>, parse: string -> Option<Prompt>, st: ScanState): (r: Option<ScanState>)
    requires |kinds| == |lines| && st.cursor < |lines|
    ensures r.Some? ==> r.value.cursor > st.cursor
    ensures r.Some? ==> st.records <= r.value.records && |r.value.records| <= |st.records| + 1
    ensures r.None? ==> kinds[st.cursor].DecisionLine?
  {
    match kinds[st.cursor]
    case Marker(n) => Some(st.(cursor := st.cursor + 1, hand := n, cache := map[]))
    case PromptStart(agent) => Some(AfterPrompt(lines, parse, st, agent))
    case DecisionLine(d) => AfterDecision(st, d)
    case Other => Some(st.(cursor := st.cursor + 1))
  }

  /** The records emitted from `st` to the end of the input, or `None` when an
      exception ends the scan. */
  function Run(lines: seq<string>, kinds: seq<LineKind>, parse: string -> Option<Prompt>, st: ScanState): Option<seq<Record>>
    requires |kinds| == |lines|
    decreases |lines| - st.cursor
  {
    if st.cursor >= |lines| then Some(st.records)
    else
      match Step(lines, kinds, parse, st)
      case None => None
      case Some(next) => Run(lines, kinds, parse, next)
  }

  /** What `load_log_data` returns for the lines of a log: the records, or
      nothing at all when an exception was raised. */
  function Extract(lines: seq<string>, parse: string -> Option<Prompt>): seq<Record> {
    match Run(lines, Kinds(lines), parse, Initial)
    case None => []
    case Some(rs) => rs
  }

  /** A hand marker sets the hand number, empties the whole prompt cache and
      moves to the next line; the records are unchanged. */
  lemma MarkerStartsHand(lines: seq<string>, kinds: seq<LineKind>, parse: string -> Option<Prompt>, st: ScanState, n: nat)
    requires |kinds| == |lines| && st.cursor < |lines| && kinds[st.cursor] == Marker(n)
    ensures Step(lines, kinds, parse, st) == Some(ScanState(st.cursor + 1, n, map[], st.records))
  {
  }

  /** A block that is not closed (the level went below 0, or the input ended)
      is not parsed: hand, cache and records stay exactly as they were, and the
      scan resumes one line after where the block reading stopped. */
  lemma UnclosedBlockKeepsCache(lines: seq<string>, kinds: seq<LineKind>, parse: string -> Option<Prompt>, st: ScanState, agent: string)
    requires |kinds| == |lines| && st.cursor < |lines| && kinds[st.cursor] == PromptStart(agent)
    requires !Capture(lines, st.cursor + 1).Closed?
    ensures var next := Step(lines, kinds, parse, st);
            && next.Some?
            && next.value.hand == st.hand && next.value.cache == st.cache && next.value.records == st.records
            && next.value.cursor == BlockStop(lines, st.cursor) + 1
            && next.value.cursor == (if Capture(lines, st.cursor + 1).Truncated? then |lines| else Capture(lines, st.cursor + 1).last) + 1
  {
  }

  /** A closed block updates the agent's entry only: a prompt that decodes is
      stored with its text, overwriting any earlier one; one that does not
      removes the agent's entry; every other agent keeps its entry. The scan
      resumes after the closing line, so the lines of the block are never
      dispatched. */
  lemma ClosedBlockUpdatesAgent(lines: seq<string>, kinds: seq<LineKind>, parse: string -> Option<Prompt>, st: ScanState, agent: string, text: string, j: nat)
    requires |kinds| == |lines| && st.cursor < |lines| && kinds[st.cursor] == PromptStart(agent)
    requires Capture(lines, st.cursor + 1) == Closed(text, j)
    ensures var next := Step(lines, kinds, parse, st);
            && next.Some?
            && next.value.cursor == j + 1 && st.cursor < j < |lines|
            && next.value.hand == st.hand && next.value.records == st.records
            && (parse(text).Some? ==> agent in next.value.cache && next.value.cache[agent] == Entry(parse(text).value, text))
            && (parse(text).None? ==> agent !in next.value.cache)
            && (forall a :: a != agent ==> (a in next.value.cache <==> a in st.cache))
            && (forall a :: a != agent && a in st.cache ==> next.value.cache[a] == st.cache[a])
  {
  }

  /** A decision line emits one record exactly when its agent has a cached
      prompt, leaves the hand and the cache (the entry is not consumed) as they
      were and moves to the next line; the record carries the current hand and
      the captured groups. */
  lemma DecisionEmitsIffCached(lines: seq<string>, kinds: seq<LineKind>, parse: string -> Option<Prompt>, st: ScanState, d: Decision)
    requires |kinds| == |lines| && st.cursor < |lines| && kinds[st.cursor] == DecisionLine(d)
    requires Step(lines, kinds, parse, st).Some?
    ensures var next := Step(lines, kinds, parse, st).value;
            && next.cursor == st.cursor + 1 && next.hand == st.hand && next.cache == st.cache
            && (|next.records| == |st.records| + 1 <==> d.agent in st.cache)
            && (d.agent !in st.cache ==> next.records == st.records)
            && (d.agent in st.cache ==> var r := next.records[|st.records|];
                  && r.handId == st.hand && r.agentName == d.agent && r.action == d.action
                  && r.amount == d.amount && r.reasoning == d.reasoning
                  && r.inputPrompt == st.cache[d.agent].prompt && WellFormed(r))
  {
  }

  /** A prompt-start line, closed or not, leaves the hand and the records as
      they were and changes no agent's entry but its own. */
  lemma PromptKeepsHandAndRecords(lines: seq<string>, kinds: seq<LineKind>, parse: string -> Option<Prompt>, st: ScanState, agent: string)
    requires |kinds| == |lines| && st.cursor < |lines| && kinds[st.cursor] == PromptStart(agent)
    ensures var next := Step(lines, kinds, parse, st);
            && next.Some? && next.value.hand == st.hand && next.value.records == st.records
            && (forall a :: a in next.value.cache ==> a == agent || (a in st.cache && next.value.cache[a] == st.cache[a]))
            && (forall a :: a != agent && a in st.cache ==> a in next.value.cache)
  {
    var c := Capture(lines, st.cursor + 1);
    if c.Closed? {
      ClosedBlockUpdatesAgent(lines, kinds, parse, st, agent, c.text, c.last);
    } else {
      UnclosedBlockKeepsCache(lines, kinds, parse, st, agent);
    }
  }

  /** The scan fails only on a decision line whose agent's cached prompt has a
      card field that `len` or `join` cannot take. */
  lemma StepFailsIffMalformed(lines: seq<string>, kinds: seq<LineKind>, parse: string -> Option<Prompt>, st: ScanState)
    requires |kinds| == |lines| && st.cursor < |lines|
    ensures Step(lines, kinds, parse, st).None? <==>
              && kinds[st.cursor].DecisionLine?
              && kinds[st.cursor].decision.agent in st.cache
              && var p := st.cache[kinds[st.cursor].decision.agent].prompt;
                 p.yourCards.Malformed? || p.community.Malformed?
  {
  }

  /** Records are only ever appended: those emitted so far begin the result. */
  lemma {:induction false} RunExtends(lines: seq<string>, kinds: seq<LineKind>, parse: string -> Option<Prompt>, st: ScanState)
    requires |kinds| == |lines|
    ensures Run(lines, kinds, parse, st).Some? ==> st.records <= Run(lines, kinds, parse, st).value
    decreases |lines| - st.cursor
  {
    if st.cursor < |lines| {
      var next := Step(lines, kinds, parse, st);
      if next.Some? {
        RunExtends(lines, kinds, parse, next.value);
      }
    }
  }

  /** Every record the scan emits agrees with the prompt it was built from. */
  lemma {:induction false} RunWellFormed(lines: seq<string>, kinds: seq<LineKind>, parse: string -> Option<Prompt>, st: ScanState)
    requires |kinds| == |lines|
    requires forall k :: 0 <= k < |st.records| ==> WellFormed(st.records[k])
    ensures Run(lines, kinds, parse, st).Some? ==>
              forall k :: 0 <= k < |Run(lines, kinds, parse, st).value| ==> WellFormed(Run(lines, kinds, parse, st).value[k])
    decreases |lines| - st.cursor
  {
    if st.cursor < |lines| {
      var next := Step(lines, kinds, parse, st);
      if next.Some? {
        if kinds[st.cursor].DecisionLine? && kinds[st.cursor].decision.agent in st.cache {
          DecisionEmitsIffCached(lines, kinds, parse, st, kinds[st.cursor].decision);
        }
        RunWellFormed(lines, kinds, parse, next.value);
      }
    }
  }

  /** Every record `load_log_data` returns agrees with the prompt it was built from. */
  lemma ExtractWellFormed(lines: seq<string>, parse: string -> Option<Prompt>)
    ensures forall k :: 0 <= k < |Extract(lines, parse)| ==> WellFormed(Extract(lines, parse)[k])
  {
    RunWellFormed(lines, Kinds(lines), parse, Initial);
  }
}
