/** Values handled by the log analyzer: the parsed prompt an agent was shown, the
    fields of a decision line, the cache entry and the output record, together with
    the phase classifier and the record builder of `load_log_data`. */
module Prompts {

  datatype Option<+T> = None | Some(value: T) {
    function GetOr(default: T): T {
      match this
      case Some(v) => v
      case None => default
    }
  }

  /** A card-list key of the parsed prompt (`your_cards` or `community`):
      missing from the object; the labels `len` and `", ".join` see (the items
      of a list of strings, the characters of a string, the keys of an object);
      or a value on which `len` or `join` raises (null, a boolean, a number, a
      list holding a non-string). */
  datatype CardField = Absent | Cards(labels: seq<string>) | Malformed

  /** What the JSON parser yields for a prompt block. Only the three keys the
      analyzer reads are given structure; every other key is kept as opaque text. */
  datatype Prompt = Prompt(yourChips: Option<int>, yourCards: CardField, community: CardField, rest: string)

  /** A prompt-cache value: the parsed prompt and the raw text it was parsed from. */
  datatype Entry = Entry(prompt: Prompt, text: string)

  /** The four groups captured from a decision line. */
  datatype Decision = Decision(agent: string, action: string, amount: nat, reasoning: string)

  /** One output row. */
  datatype Record = Record(
    handId: nat,
    agentName: string,
    phase: string,
    chipsBefore: int,
    yourCards: string,
    communityCards: string,
    action: string,
    amount: nat,
    reasoning: string,
    inputPrompt: Prompt)

  const PhaseLabels: set<string> := {"preflop", "flop", "turn", "river", "unknown"}

  /** Betting round derived from the number of community cards. */
  function Phase(count: nat): (phase: string)
    ensures phase in PhaseLabels
    ensures phase == "preflop" <==> count == 0
    ensures phase == "flop" <==> count == 3
    ensures phase == "turn" <==> count == 4
    ensures phase == "river" <==> count == 5
    ensures phase == "unknown" <==> count !in {0, 3, 4, 5}
  {
    if count == 0 then "preflop"
    else if count == 3 then "flop"
    else if count == 4 then "turn"
    else if count == 5 then "river"
    else "unknown"
  }

  /** The labels `prompt_data.get(key, [])` yields for a usable field. */
  function LabelsOf(f: CardField): seq<string>
    requires !f.Malformed?
  {
    if f.Cards? then f.labels else []
  }

  function TotalLength(xs: seq<string>): nat {
    if xs == [] then 0 else |xs[0]| + TotalLength(xs[1..])
  }

  /** `", ".join(xs)`. */
  function Join(xs: seq<string>): (s: string)
    ensures xs == [] ==> s == ""
    ensures xs != [] ==> |s| == TotalLength(xs) + 2 * (|xs| - 1)
    ensures xs != [] ==> s[..|xs[0]|] == xs[0]
  {
    if xs == [] then ""
    else if |xs| == 1 then xs[0]
    else xs[0] + ", " + Join(xs[1..])
  }

  /** Joining one more label appends it after a separator, or gives the
      label alone when there was none before. */
  lemma {:induction false} JoinSnoc(xs: seq<string>, y: string)
    ensures Join(xs + [y]) == if xs == [] then y else Join(xs) + ", " + y
    decreases |xs|
  {
    if xs == [] {
      assert xs + [y] == [y];
    } else if |xs| == 1 {
      assert (xs + [y])[1..] == [y];
    } else {
      assert (xs + [y])[1..] == xs[1..] + [y];
      JoinSnoc(xs[1..], y);
    }
  }

  /** Builds the row for a decision whose agent has a cached prompt; `None`
      stands for the exception `len` or `join` raises on a malformed card field. */
  function MakeRecord(hand: nat, d: Decision, e: Entry): (r: Option<Record>)
    ensures r.Some? <==> !e.prompt.yourCards.Malformed? && !e.prompt.community.Malformed?
    ensures r.Some? ==> WellFormed(r.value)
    ensures r.Some? ==> r.value.handId == hand && r.value.agentName == d.agent
                        && r.value.action == d.action && r.value.amount == d.amount
                        && r.value.reasoning == d.reasoning && r.value.inputPrompt == e.prompt
  {
    var p := e.prompt;
    if p.yourCards.Malformed? || p.community.Malformed? then None
    else
      var community := LabelsOf(p.community);
      Some(Record(
        hand, d.agent, Phase(|community|), p.yourChips.GetOr(0),
        Join(LabelsOf(p.yourCards)), Join(community),
        d.action, d.amount, d.reasoning, p))
  }

  /** A row whose derived columns agree with the prompt it carries: the phase
      follows the community-card count, chips default to 0, card lists are joined. */
  ghost predicate WellFormed(r: Record) {
    var p := r.inputPrompt;
    && !p.yourCards.Malformed? && !p.community.Malformed?
    && r.phase == Phase(|LabelsOf(p.community)|)
    && r.chipsBefore == p.yourChips.GetOr(0)
    && r.yourCards == Join(LabelsOf(p.yourCards))
    && r.communityCards == Join(LabelsOf(p.community))
  }
}
