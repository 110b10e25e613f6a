/** The history of one scan from the start of the log: the state after each
    iteration of the outer loop (analyzer/analyzer.py:31-141), and where each
    record of the result comes from: the decision line that emitted it, the
    prompt block its fields were read from and the hand marker that numbered it. */
module ScanHistory {
  import opened Prompts
  import opened LineClassifier
  import opened BraceScanner
  import opened Extraction

  /** The state after `n` iterations from the start, or `None` when the scan
      ended before that (the input ran out or an exception was raised). */
  ghost function Reach(lines: seq<string>, kinds: seq<LineKind>, parse: string -> Option<Prompt>, n: nat): Option<ScanState>
    requires |kinds| == |lines|
    decreases n, 0
  {
    if n == 0 then Some(Initial) else Next(lines, kinds, parse, n - 1)
  }

  /** The state iteration `j` leaves behind. */
  ghost function Next(lines: seq<string>, kinds: seq<LineKind>, parse: string -> Option<Prompt>, j: nat): Option<ScanState>
    requires |kinds| == |lines|
    decreases j, 1
  {
    match Reach(lines, kinds, parse, j)
    case None => None
    case Some(s) => if s.cursor < |lines| then Step(lines, kinds, parse, s) else None
  }

  /** Iteration `j` took place: it dispatched the line under its cursor. */
  ghost predicate Ran(lines: seq<string>, kinds: seq<LineKind>, parse: string -> Option<Prompt>, j: nat)
    requires |kinds| == |lines|
  {
    Reach(lines, kinds, parse, j).Some? && Reach(lines, kinds, parse, j).value.cursor < |lines|
  }

  /** The line iteration `j` dispatched. */
  ghost function LineOf(lines: seq<string>, kinds: seq<LineKind>, parse: string -> Option<Prompt>, j: nat): (l: nat)
    requires |kinds| == |lines| && Ran(lines, kinds, parse, j)
    ensures l < |lines|
  {
    Reach(lines, kinds, parse, j).value.cursor
  }

  /** What the line iteration `j` dispatched is. */
  ghost function KindOf(lines: seq<string>, kinds: seq<LineKind>, parse: string -> Option<Prompt>, j: nat): LineKind
    requires |kinds| == |lines| && Ran(lines, kinds, parse, j)
  {
    kinds[LineOf(lines, kinds, parse, j)]
  }

  /** What iteration `j` does, as the step lemmas of `Extraction` describe it. */
  lemma NextState(lines: seq<string>, kinds: seq<LineKind>, parse: string -> Option<Prompt>, j: nat)
    requires |kinds| == |lines| && Ran(lines, kinds, parse, j)
    ensures var s := Reach(lines, kinds, parse, j).value;
            var o := Reach(lines, kinds, parse, j + 1);
            && (o.None? ==> kinds[s.cursor].DecisionLine?)
            && (o.Some? ==> s.cursor < o.value.cursor && s.records <= o.value.records)
            && (kinds[s.cursor].Marker? ==> o == Some(ScanState(s.cursor + 1, kinds[s.cursor].hand, map[], s.records)))
            && (kinds[s.cursor].PromptStart? ==>
                  && o.Some? && o.value.hand == s.hand && o.value.records == s.records
                  && o.value.cursor == BlockStop(lines, s.cursor) + 1
                  && var c := Capture(lines, s.cursor + 1);
                     o.value.cache == if c.Closed? then Remember(s.cache, kinds[s.cursor].agent, c.text, parse(c.text)) else s.cache)
            && (kinds[s.cursor].DecisionLine? && o.Some? ==>
                  && o.value.cursor == s.cursor + 1 && o.value.hand == s.hand && o.value.cache == s.cache
                  && var d := kinds[s.cursor].decision;
                     && (d.agent !in s.cache ==> o.value.records == s.records)
                     && (d.agent in s.cache ==>
                           && |o.value.records| == |s.records| + 1
                           && var r := o.value.records[|s.records|];
                              && r.handId == s.hand && r.agentName == d.agent && r.action == d.action
                              && r.amount == d.amount && r.reasoning == d.reasoning
                              && r.inputPrompt == s.cache[d.agent].prompt && WellFormed(r)))
            && (kinds[s.cursor].Other? ==> o == Some(s.(cursor := s.cursor + 1)))
  {
    var s := Reach(lines, kinds, parse, j).value;
    match kinds[s.cursor] {
      case Marker(h) => NextMarker(lines, kinds, parse, j, h);
      case PromptStart(agent) => NextPrompt(lines, kinds, parse, j, agent);
      case DecisionLine(d) => NextDecision(lines, kinds, parse, j, d);
      case Other => NextOther(lines, kinds, parse, j);
    }
  }

  /** Iteration `j` on a hand marker. */
  lemma NextMarker(lines: seq<string>, kinds: seq<LineKind>, parse: string -> Option<Prompt>, j: nat, h: nat)
    requires |kinds| == |lines| && Ran(lines, kinds, parse, j) && KindOf(lines, kinds, parse, j) == Marker(h)
    ensures var s := Reach(lines, kinds, parse, j).value;
            Reach(lines, kinds, parse, j + 1) == Some(ScanState(s.cursor + 1, h, map[], s.records))
  {
    var s := Reach(lines, kinds, parse, j).value;
    assert Reach(lines, kinds, parse, j + 1) == Next(lines, kinds, parse, j) == Step(lines, kinds, parse, s);
    MarkerStartsHand(lines, kinds, parse, s, h);
  }

  /** Iteration `j` on a prompt-start line. */
  lemma NextPrompt(lines: seq<string>, kinds: seq<LineKind>, parse: string -> Option<Prompt>, j: nat, agent: string)
    requires |kinds| == |lines| && Ran(lines, kinds, parse, j) && KindOf(lines, kinds, parse, j) == PromptStart(agent)
    ensures var s := Reach(lines, kinds, parse, j).value;
            var o := Reach(lines, kinds, parse, j + 1);
            && o.Some? && o.value.hand == s.hand && o.value.records == s.records
            && o.value.cursor == BlockStop(lines, s.cursor) + 1
            && var c := Capture(lines, s.cursor + 1);
               o.value.cache == if c.Closed? then Remember(s.cache, agent, c.text, parse(c.text)) else s.cache
  {
    var s := Reach(lines, kinds, parse, j).value;
    assert Reach(lines, kinds, parse, j + 1) == Next(lines, kinds, parse, j) == Step(lines, kinds, parse, s);
    var c := Capture(lines, s.cursor + 1);
    if c.Closed? {
      ClosedBlockUpdatesAgent(lines, kinds, parse, s, agent, c.text, c.last);
    } else {
      UnclosedBlockKeepsCache(lines, kinds, parse, s, agent);
    }
  }

  /** Iteration `j` on a decision line. */
  lemma NextDecision(lines: seq<string>, kinds: seq<LineKind>, parse: string -> Option<Prompt>, j: nat, d: Decision)
    requires |kinds| == |lines| && Ran(lines, kinds, parse, j) && KindOf(lines, kinds, parse, j) == DecisionLine(d)
    ensures var s := Reach(lines, kinds, parse, j).value;
            var o := Reach(lines, kinds, parse, j + 1);
            o.Some? ==>
              && o.value.cursor == s.cursor + 1 && o.value.hand == s.hand && o.value.cache == s.cache
              && s.records <= o.value.records
              && (d.agent !in s.cache ==> o.value.records == s.records)
              && (d.agent in s.cache ==>
                    && |o.value.records| == |s.records| + 1
                    && var r := o.value.records[|s.records|];
                       && r.handId == s.hand && r.agentName == d.agent && r.action == d.action
                       && r.amount == d.amount && r.reasoning == d.reasoning
                       && r.inputPrompt == s.cache[d.agent].prompt && WellFormed(r))
  {
    var s := Reach(lines, kinds, parse, j).value;
    assert Reach(lines, kinds, parse, j + 1) == Next(lines, kinds, parse, j) == Step(lines, kinds, parse, s);
    if Step(lines, kinds, parse, s).Some? {
      DecisionEmitsIffCached(lines, kinds, parse, s, d);
    }
  }

  /** Iteration `j` on a line no pattern matches. */
  lemma NextOther(lines: seq<string>, kinds: seq<LineKind>, parse: string -> Option<Prompt>, j: nat)
    requires |kinds| == |lines| && Ran(lines, kinds, parse, j) && KindOf(lines, kinds, parse, j) == Other
    ensures var s := Reach(lines, kinds, parse, j).value;
            Reach(lines, kinds, parse, j + 1) == Some(s.(cursor := s.cursor + 1))
  {
    var s := Reach(lines, kinds, parse, j).value;
    assert Reach(lines, kinds, parse, j + 1) == Next(lines, kinds, parse, j) == Step(lines, kinds, parse, s);
  }

  /** Every iteration before one the scan reached took place; cursors strictly
      increase and records are only appended. */
  lemma {:induction false} ReachEarlier(lines: seq<string>, kinds: seq<LineKind>, parse: string -> Option<Prompt>, n: nat, j: nat)
    requires |kinds| == |lines| && Reach(lines, kinds, parse, n).Some? && j < n
    ensures Ran(lines, kinds, parse, j)
    ensures Reach(lines, kinds, parse, j).value.cursor < Reach(lines, kinds, parse, n).value.cursor
    ensures Reach(lines, kinds, parse, j).value.records <= Reach(lines, kinds, parse, n).value.records
  {
    var s := Reach(lines, kinds, parse, n - 1);
    assert s.Some? && s.value.cursor < |lines|;
    NextState(lines, kinds, parse, n - 1);
    if j < n - 1 {
      ReachEarlier(lines, kinds, parse, n - 1, j);
    }
  }

  /** The last iteration before `n` that dispatched a hand marker. */
  ghost function LastMarker(lines: seq<string>, kinds: seq<LineKind>, parse: string -> Option<Prompt>, n: nat): (m: Option<nat>)
    requires |kinds| == |lines|
    ensures m.Some? ==> m.value < n && Ran(lines, kinds, parse, m.value) && KindOf(lines, kinds, parse, m.value).Marker?
    ensures m.Some? ==> forall j: nat :: m.value < j < n && Ran(lines, kinds, parse, j) ==> !KindOf(lines, kinds, parse, j).Marker?
    ensures m.None? ==> forall j: nat :: j < n && Ran(lines, kinds, parse, j) ==> !KindOf(lines, kinds, parse, j).Marker?
  {
    if n == 0 then None
    else if Ran(lines, kinds, parse, n - 1) && KindOf(lines, kinds, parse, n - 1).Marker? then Some(n - 1)
    else LastMarker(lines, kinds, parse, n - 1)
  }

  /** The number of the last hand marker dispatched before iteration `n`, or 0
      when there was none. */
  ghost function HandBefore(lines: seq<string>, kinds: seq<LineKind>, parse: string -> Option<Prompt>, n: nat): nat
    requires |kinds| == |lines|
  {
    match LastMarker(lines, kinds, parse, n)
    case None => 0
    case Some(m) => KindOf(lines, kinds, parse, m).hand
  }

  /** The current hand is the number of the last marker dispatched, or 0 before the first. */
  lemma {:induction false} ReachHand(lines: seq<string>, kinds: seq<LineKind>, parse: string -> Option<Prompt>, n: nat)
    requires |kinds| == |lines| && Reach(lines, kinds, parse, n).Some?
    ensures Reach(lines, kinds, parse, n).value.hand == HandBefore(lines, kinds, parse, n)
  {
    if n > 0 {
      ReachEarlier(lines, kinds, parse, n, n - 1);
      ReachHand(lines, kinds, parse, n - 1);
      NextState(lines, kinds, parse, n - 1);
    }
  }

  /** Iteration `j` dispatched a prompt-start line for `agent` whose block closed. */
  ghost predicate ClosedPromptFor(lines: seq<string>, kinds: seq<LineKind>, parse: string -> Option<Prompt>, j: nat, agent: string)
    requires |kinds| == |lines|
  {
    && Ran(lines, kinds, parse, j)
    && KindOf(lines, kinds, parse, j) == PromptStart(agent)
    && Capture(lines, LineOf(lines, kinds, parse, j) + 1).Closed?
  }

  /** The last iteration before `n` that dispatched a closed prompt block for
      `agent` in the current hand: no marker and no later closed block for the
      agent comes after it; `None` when every closed block for the agent was
      followed by a marker. */
  ghost function LastClosedPrompt(lines: seq<string>, kinds: seq<LineKind>, parse: string -> Option<Prompt>, n: nat, agent: string): (p: Option<nat>)
    requires |kinds| == |lines|
    ensures p.Some? ==> p.value < n && ClosedPromptFor(lines, kinds, parse, p.value, agent)
    ensures p.Some? ==> forall j: nat :: p.value < j < n && Ran(lines, kinds, parse, j) ==>
                          !KindOf(lines, kinds, parse, j).Marker? && !ClosedPromptFor(lines, kinds, parse, j, agent)
    ensures p.None? ==> forall j: nat :: j < n && ClosedPromptFor(lines, kinds, parse, j, agent) ==>
                          exists m: nat :: j < m < n && Ran(lines, kinds, parse, m) && KindOf(lines, kinds, parse, m).Marker?
  {
    if n == 0 then None
    else if Ran(lines, kinds, parse, n - 1) && KindOf(lines, kinds, parse, n - 1).Marker? then None
    else if ClosedPromptFor(lines, kinds, parse, n - 1, agent) then Some(n - 1)
    else LastClosedPrompt(lines, kinds, parse, n - 1, agent)
  }

  /** The text of the closed block iteration `p` read. */
  ghost function BlockText(lines: seq<string>, kinds: seq<LineKind>, parse: string -> Option<Prompt>, p: nat, agent: string): string
    requires |kinds| == |lines| && ClosedPromptFor(lines, kinds, parse, p, agent)
  {
    Capture(lines, LineOf(lines, kinds, parse, p) + 1).text
  }

  /** The cache holds an entry for `agent` exactly when the last closed block
      for it in the current hand decoded, and then the entry is that block's
      prompt and text. */
  ghost predicate EntryFromLastPrompt(lines: seq<string>, kinds: seq<LineKind>, parse: string -> Option<Prompt>, n: nat, agent: string, cache: map<string, Entry>)
    requires |kinds| == |lines|
  {
    match LastClosedPrompt(lines, kinds, parse, n, agent)
    case None => agent !in cache
    case Some(p) =>
      var t := BlockText(lines, kinds, parse, p, agent);
      match parse(t)
      case None => agent !in cache
      case Some(q) => agent in cache && cache[agent] == Entry(q, t)
  }

  /** What the prompt cache holds after `n` iterations. */
  lemma {:induction false} ReachCache(lines: seq<string>, kinds: seq<LineKind>, parse: string -> Option<Prompt>, n: nat, agent: string)
    requires |kinds| == |lines| && Reach(lines, kinds, parse, n).Some?
    ensures EntryFromLastPrompt(lines, kinds, parse, n, agent, Reach(lines, kinds, parse, n).value.cache)
  {
    if n > 0 {
      ReachEarlier(lines, kinds, parse, n, n - 1);
      ReachCache(lines, kinds, parse, n - 1, agent);
      if KindOf(lines, kinds, parse, n - 1).PromptStart? {
        CacheAfterPrompt(lines, kinds, parse, n - 1, agent);
      } else {
        CacheAfterOther(lines, kinds, parse, n - 1, agent);
      }
    }
  }

  /** A prompt-start line updates the entry of its own agent from the block it
      reads, when that block closes, and leaves every other entry alone. */
  lemma CacheAfterPrompt(lines: seq<string>, kinds: seq<LineKind>, parse: string -> Option<Prompt>, j: nat, agent: string)
    requires |kinds| == |lines| && Ran(lines, kinds, parse, j) && KindOf(lines, kinds, parse, j).PromptStart?
    requires Reach(lines, kinds, parse, j + 1).Some?
    requires EntryFromLastPrompt(lines, kinds, parse, j, agent, Reach(lines, kinds, parse, j).value.cache)
    ensures EntryFromLastPrompt(lines, kinds, parse, j + 1, agent, Reach(lines, kinds, parse, j + 1).value.cache)
  {
    if ClosedPromptFor(lines, kinds, parse, j, agent) {
      CacheAfterOwnBlock(lines, kinds, parse, j, agent);
    } else {
      CacheAfterOtherBlock(lines, kinds, parse, j, agent);
    }
  }

  /** A closed block for `agent` decides its entry. */
  lemma CacheAfterOwnBlock(lines: seq<string>, kinds: seq<LineKind>, parse: string -> Option<Prompt>, j: nat, agent: string)
    requires |kinds| == |lines| && ClosedPromptFor(lines, kinds, parse, j, agent)
    requires Reach(lines, kinds, parse, j + 1).Some?
    ensures EntryFromLastPrompt(lines, kinds, parse, j + 1, agent, Reach(lines, kinds, parse, j + 1).value.cache)
  {
    NextState(lines, kinds, parse, j);
    assert LastClosedPrompt(lines, kinds, parse, j + 1, agent) == Some(j);
  }

  /** A block for another agent, or one that does not close, leaves the entry
      of `agent` as it was. */
  lemma CacheAfterOtherBlock(lines: seq<string>, kinds: seq<LineKind>, parse: string -> Option<Prompt>, j: nat, agent: string)
    requires |kinds| == |lines| && Ran(lines, kinds, parse, j) && KindOf(lines, kinds, parse, j).PromptStart?
    requires !ClosedPromptFor(lines, kinds, parse, j, agent) && Reach(lines, kinds, parse, j + 1).Some?
    requires EntryFromLastPrompt(lines, kinds, parse, j, agent, Reach(lines, kinds, parse, j).value.cache)
    ensures EntryFromLastPrompt(lines, kinds, parse, j + 1, agent, Reach(lines, kinds, parse, j + 1).value.cache)
  {
    NextState(lines, kinds, parse, j);
    var s := Reach(lines, kinds, parse, j).value;
    var o := Reach(lines, kinds, parse, j + 1).value;
    assert LastClosedPrompt(lines, kinds, parse, j + 1, agent) == LastClosedPrompt(lines, kinds, parse, j, agent);
    assert (agent in o.cache <==> agent in s.cache) && (agent in s.cache ==> o.cache[agent] == s.cache[agent]);
  }

  /** A marker empties the cache; a decision or unmatched line leaves it. */
  lemma CacheAfterOther(lines: seq<string>, kinds: seq<LineKind>, parse: string -> Option<Prompt>, j: nat, agent: string)
    requires |kinds| == |lines| && Ran(lines, kinds, parse, j) && !KindOf(lines, kinds, parse, j).PromptStart?
    requires Reach(lines, kinds, parse, j + 1).Some?
    requires EntryFromLastPrompt(lines, kinds, parse, j, agent, Reach(lines, kinds, parse, j).value.cache)
    ensures EntryFromLastPrompt(lines, kinds, parse, j + 1, agent, Reach(lines, kinds, parse, j + 1).value.cache)
  {
    NextState(lines, kinds, parse, j);
    if KindOf(lines, kinds, parse, j).Marker? {
      assert LastClosedPrompt(lines, kinds, parse, j + 1, agent) == None;
    } else {
      assert !ClosedPromptFor(lines, kinds, parse, j, agent);
      assert LastClosedPrompt(lines, kinds, parse, j + 1, agent) == LastClosedPrompt(lines, kinds, parse, j, agent);
    }
  }

  /** Iteration `e` dispatched a decision line that emitted the `k`-th record
      `r` from the state it found. */
  ghost predicate EmittedAt(lines: seq<string>, kinds: seq<LineKind>, parse: string -> Option<Prompt>, e: nat, k: nat, r: Record)
    requires |kinds| == |lines|
  {
    && Ran(lines, kinds, parse, e)
    && KindOf(lines, kinds, parse, e).DecisionLine?
    && var s := Reach(lines, kinds, parse, e).value;
       var d := KindOf(lines, kinds, parse, e).decision;
       && |s.records| == k && d.agent in s.cache
       && r.agentName == d.agent && r.action == d.action && r.amount == d.amount && r.reasoning == d.reasoning
       && r.handId == s.hand && r.inputPrompt == s.cache[d.agent].prompt && WellFormed(r)
  }

  /** Every record held after `n` iterations was emitted by an earlier one. */
  lemma {:induction false} ReachRecord(lines: seq<string>, kinds: seq<LineKind>, parse: string -> Option<Prompt>, n: nat, k: nat)
    requires |kinds| == |lines| && Reach(lines, kinds, parse, n).Some?
    requires k < |Reach(lines, kinds, parse, n).value.records|
    ensures exists e: nat :: e < n && EmittedAt(lines, kinds, parse, e, k, Reach(lines, kinds, parse, n).value.records[k])
  {
    assert n > 0;
    ReachEarlier(lines, kinds, parse, n, n - 1);
    NextState(lines, kinds, parse, n - 1);
    var s := Reach(lines, kinds, parse, n - 1).value;
    var next := Reach(lines, kinds, parse, n).value;
    if k < |s.records| {
      ReachRecord(lines, kinds, parse, n - 1, k);
      assert s.records[k] == next.records[k];
    } else {
      assert EmittedAt(lines, kinds, parse, n - 1, k, next.records[k]);
    }
  }

  /** Where the `k`-th record `r` comes from, in terms of the lines dispatched
      before it: iteration `e` dispatched the `k`-th emitting decision line,
      whose agent, action, amount and reasoning `r` carries; its hand is the
      number of the last marker dispatched before that line (0 if none); and
      its prompt is what the last closed block for the agent in that hand
      decoded to. */
  ghost predicate Provenance(lines: seq<string>, kinds: seq<LineKind>, parse: string -> Option<Prompt>, e: nat, k: nat, r: Record)
    requires |kinds| == |lines|
  {
    && Ran(lines, kinds, parse, e)
    && KindOf(lines, kinds, parse, e).DecisionLine?
    && |Reach(lines, kinds, parse, e).value.records| == k
    && (var d := KindOf(lines, kinds, parse, e).decision;
        && r.agentName == d.agent && r.action == d.action && r.amount == d.amount && r.reasoning == d.reasoning
        && r.handId == HandBefore(lines, kinds, parse, e)
        && LastClosedPrompt(lines, kinds, parse, e, d.agent).Some?
        && parse(BlockText(lines, kinds, parse, LastClosedPrompt(lines, kinds, parse, e, d.agent).value, d.agent)) == Some(r.inputPrompt))
    && WellFormed(r)
  }

  /** Every record held after `n` iterations has its provenance. */
  lemma ReachProvenance(lines: seq<string>, kinds: seq<LineKind>, parse: string -> Option<Prompt>, n: nat, k: nat)
    requires |kinds| == |lines| && Reach(lines, kinds, parse, n).Some?
    requires k < |Reach(lines, kinds, parse, n).value.records|
    ensures exists e: nat :: e < n && Provenance(lines, kinds, parse, e, k, Reach(lines, kinds, parse, n).value.records[k])
  {
    var r := Reach(lines, kinds, parse, n).value.records[k];
    ReachRecord(lines, kinds, parse, n, k);
    var e: nat :| e < n && EmittedAt(lines, kinds, parse, e, k, r);
    ReachHand(lines, kinds, parse, e);
    ReachCache(lines, kinds, parse, e, r.agentName);
    assert Provenance(lines, kinds, parse, e, k, r);
  }

  /** A scan that ends without an exception reaches its result after some
      number of iterations. */
  lemma {:induction false} RunReached(lines: seq<string>, kinds: seq<LineKind>, parse: string -> Option<Prompt>, n: nat)
    requires |kinds| == |lines| && Reach(lines, kinds, parse, n).Some?
    requires Run(lines, kinds, parse, Reach(lines, kinds, parse, n).value).Some?
    ensures exists m: nat :: Reach(lines, kinds, parse, m).Some?
                        && Reach(lines, kinds, parse, m).value.records == Run(lines, kinds, parse, Reach(lines, kinds, parse, n).value).value
    decreases |lines| - Reach(lines, kinds, parse, n).value.cursor
  {
    var s := Reach(lines, kinds, parse, n).value;
    if s.cursor < |lines| {
      var next := Step(lines, kinds, parse, s);
      assert Reach(lines, kinds, parse, n + 1) == Next(lines, kinds, parse, n) == next;
      assert Run(lines, kinds, parse, s) == Run(lines, kinds, parse, next.value);
      RunReached(lines, kinds, parse, n + 1);
    } else {
      assert Reach(lines, kinds, parse, n).value.records == Run(lines, kinds, parse, s).value;
    }
  }

  /** Record `r`, the `k`-th emitted, was emitted by some dispatched line. */
  ghost predicate Traced(lines: seq<string>, kinds: seq<LineKind>, parse: string -> Option<Prompt>, k: nat, r: Record)
    requires |kinds| == |lines|
  {
    exists e: nat :: Provenance(lines, kinds, parse, e, k, r)
  }

  /** Every record of `rs` has its provenance. */
  ghost predicate AllTraced(lines: seq<string>, kinds: seq<LineKind>, parse: string -> Option<Prompt>, rs: seq<Record>)
    requires |kinds| == |lines|
  {
    forall k: nat :: k < |rs| ==> Traced(lines, kinds, parse, k, rs[k])
  }

  /** Every record emitted on the way to a reached state has its provenance. */
  lemma ReachAllTraced(lines: seq<string>, kinds: seq<LineKind>, parse: string -> Option<Prompt>, m: nat)
    requires |kinds| == |lines| && Reach(lines, kinds, parse, m).Some?
    ensures AllTraced(lines, kinds, parse, Reach(lines, kinds, parse, m).value.records)
  {
    var rs := Reach(lines, kinds, parse, m).value.records;
    forall k: nat | k < |rs|
      ensures Traced(lines, kinds, parse, k, rs[k])
    {
      ReachProvenance(lines, kinds, parse, m, k);
    }
  }

  /** Every record of a scan that ends without an exception, from any
      reached state, has its provenance. */
  lemma ReachTraced(lines: seq<string>, kinds: seq<LineKind>, parse: string -> Option<Prompt>, n: nat)
    requires |kinds| == |lines| && Reach(lines, kinds, parse, n).Some?
    requires Run(lines, kinds, parse, Reach(lines, kinds, parse, n).value).Some?
    ensures AllTraced(lines, kinds, parse, Run(lines, kinds, parse, Reach(lines, kinds, parse, n).value).value)
  {
    RunReached(lines, kinds, parse, n);
    var m: nat :| Reach(lines, kinds, parse, m).Some?
             && Reach(lines, kinds, parse, m).value.records == Run(lines, kinds, parse, Reach(lines, kinds, parse, n).value).value;
    ReachAllTraced(lines, kinds, parse, m);
  }

  /** Every row `load_log_data` returns has its provenance: each was emitted
      by a decision line for an agent whose last closed prompt block in the
      same hand, dispatched before that line, decoded to the row's prompt. */
  lemma ExtractProvenance(lines: seq<string>, parse: string -> Option<Prompt>)
    ensures AllTraced(lines, Kinds(lines), parse, Extract(lines, parse))
  {
    var kinds := Kinds(lines);
    assert Reach(lines, kinds, parse, 0) == Some(Initial);
    if Run(lines, kinds, parse, Initial).Some? {
      ReachTraced(lines, kinds, parse, 0);
    }
  }

  /** Records come in the order of the decision lines that emitted them. */
  lemma EmissionOrder(lines: seq<string>, kinds: seq<LineKind>, parse: string -> Option<Prompt>, e1: nat, k1: nat, r1: Record, e2: nat, k2: nat, r2: Record)
    requires |kinds| == |lines|
    requires Provenance(lines, kinds, parse, e1, k1, r1) && Provenance(lines, kinds, parse, e2, k2, r2)
    requires k1 < k2
    ensures e1 < e2 && LineOf(lines, kinds, parse, e1) < LineOf(lines, kinds, parse, e2)
  {
    if e2 < e1 {
      ReachEarlier(lines, kinds, parse, e1, e2);
    }
    assert e2 != e1;
    ReachEarlier(lines, kinds, parse, e2, e1);
  }

  /** The dispatched lines strictly increase: the scan never goes back and
      never dispatches a line twice. */
  lemma DispatchIncreasing(lines: seq<string>, kinds: seq<LineKind>, parse: string -> Option<Prompt>, i: nat, j: nat)
    requires |kinds| == |lines| && Ran(lines, kinds, parse, i) && Ran(lines, kinds, parse, j) && i < j
    ensures LineOf(lines, kinds, parse, i) < LineOf(lines, kinds, parse, j)
  {
    ReachEarlier(lines, kinds, parse, j, i);
  }

  /** No line read as part of a prompt's JSON block is ever dispatched: every
      other iteration dispatches a line before the prompt-start line or after
      the line where the block reading stopped. */
  lemma BlockLinesSkipped(lines: seq<string>, kinds: seq<LineKind>, parse: string -> Option<Prompt>, i: nat, j: nat)
    requires |kinds| == |lines| && Ran(lines, kinds, parse, i) && Ran(lines, kinds, parse, j) && i != j
    requires KindOf(lines, kinds, parse, i).PromptStart?
    ensures LineOf(lines, kinds, parse, j) < LineOf(lines, kinds, parse, i)
            || LineOf(lines, kinds, parse, j) > BlockStop(lines, LineOf(lines, kinds, parse, i))
  {
    if j < i {
      ReachEarlier(lines, kinds, parse, i, j);
    } else {
      ReachEarlier(lines, kinds, parse, j, i);
      NextState(lines, kinds, parse, i);
      if i + 1 < j {
        ReachEarlier(lines, kinds, parse, j, i + 1);
      }
    }
  }
}
