/** `load_log_data` (analyzer/analyzer.py:11-148) as the loop it is: an
    analyzer object holds the lines of the log and the variables the loop
    updates (the cursor `i`, `current_hand`, the `agent_prompts` cache and the
    `data` list), and each dispatch is a method proved to perform exactly one
    step of the scan in `Extraction`. */
module LogAnalyzer {
  import opened Prompts
  import opened LineClassifier
  import opened BraceScanner
  import opened Extraction

  class Analyzer {
    const lines: seq<string>
    const parse: string -> Option<Prompt>
    /** The classification of every line, which the loop computes one line at a time. */
    ghost const kinds: seq<LineKind>
    var i: nat
    var currentHand: nat
    var agentPrompts: map<string, Entry>
    var data: seq<Record>

    /** The loop variables as a scan state. */
    ghost function State(): ScanState
      reads this
    {
      ScanState(i, currentHand, agentPrompts, data)
    }

    constructor(lines: seq<string>, parse: string -> Option<Prompt>)
      ensures this.lines == lines && this.parse == parse && kinds == Kinds(lines)
      ensures State() == Initial
    {
      this.lines := lines;
      this.parse := parse;
      kinds := Kinds(lines);
      i, currentHand, agentPrompts, data := 0, 0, map[], [];
    }

    /** A hand marker: a new hand begins and every cached prompt is forgotten. */
    method HandleMarker(n: nat)
      requires |kinds| == |lines| && i < |lines| && kinds[i] == Marker(n)
      modifies this
      ensures Some(State()) == Step(lines, kinds, parse, old(State()))
    {
      currentHand := n;
      agentPrompts := map[];
      i := i + 1;
    }

    /** A prompt-start line: reads the JSON block below it and, when the block
        closes, stores the decoded prompt or evicts the agent's entry. */
    method HandlePrompt(agent: string)
      requires |kinds| == |lines| && i < |lines| && kinds[i] == PromptStart(agent)
      modifies this
      ensures Some(State()) == Step(lines, kinds, parse, old(State()))
    {
      var stop, level, json := ScanBlock(lines, i + 1);
      if level != 0 {
        i := stop + 1;
        return;
      }
      match parse(json) {
        case Some(p) =>
          agentPrompts := agentPrompts[agent := Entry(p, json)];
        case None =>
          agentPrompts := agentPrompts - {agent};
      }
      i := stop + 1;
    }

    /** A decision line: emits a record when its agent has a cached prompt.
        `ok` is false when building the record raises. */
    method HandleDecision(d: Decision) returns (ok: bool)
      requires |kinds| == |lines| && i < |lines| && kinds[i] == DecisionLine(d)
      modifies this
      ensures ok ==> Some(State()) == Step(lines, kinds, parse, old(State()))
      ensures !ok ==> Step(lines, kinds, parse, old(State())).None?
    {
      ok := true;
      if d.agent in agentPrompts {
        match MakeRecord(currentHand, d, agentPrompts[d.agent])
        case None =>
          ok := false;
          return;
        case Some(r) =>
          data := data + [r];
      }
      i := i + 1;
    }

    /** The pattern the line under the cursor matches, in the loop's priority order. */
    method ClassifyCurrent() returns (kind: LineKind)
      requires kinds == Kinds(lines) && i < |lines|
      ensures kind == kinds[i]
    {
      kind := Classify(lines[i]);
      KindsAt(lines, i);
    }

    /** The outer loop, from the current state to the end of the input; `ok`
        is false when an exception ended it. */
    method Run() returns (ok: bool)
      requires kinds == Kinds(lines)
      modifies this
      ensures ok <==> Extraction.Run(lines, kinds, parse, old(State())).Some?
      ensures ok ==> data == Extraction.Run(lines, kinds, parse, old(State())).value
    {
      ghost var result := Extraction.Run(lines, kinds, parse, State());
      while i < |lines|
        invariant Extraction.Run(lines, kinds, parse, State()) == result
        decreases |lines| - i
      {
        ghost var before := State();
        var kind := ClassifyCurrent();
        match kind {
          case Marker(n) =>
            HandleMarker(n);
          case PromptStart(agent) =>
            HandlePrompt(agent);
          case DecisionLine(d) =>
            var stepped := HandleDecision(d);
            if !stepped {
              assert Extraction.Run(lines, kinds, parse, before) == None;
              return false;
            }
          case Other =>
            i := i + 1;
        }
        assert Some(State()) == Step(lines, kinds, parse, before);
      }
      return true;
    }
  }

  /** `load_log_data` on the lines of a log: the records in the order their
      decision lines appear, or none at all when an exception was raised. */
  method LoadLogData(lines: seq<string>, parse: string -> Option<Prompt>) returns (records: seq<Record>)
    ensures records == Extract(lines, parse)
  {
    var analyzer := new Analyzer(lines, parse);
    var ok := analyzer.Run();
    if ok {
      records := analyzer.data;
    } else {
      records := [];
    }
  }
}
