# Poker log analyzer: a Dafny model of `load_log_data`

The analyzer reads the log of a poker simulation between language-model agents. From it, the analyzer builds one row per decision an agent took. `load_log_data` is the part modelled here. It walks the lines of the log with a cursor:

- a hand-start marker (`=== STARTING NEW HAND #N ===`) sets the current hand and empties the per-agent prompt cache;
- a prompt-start line (`LLM Prompt for AgentN: {`) is followed by a JSON block. The block is read by counting braces and decoded. When decoding succeeds the prompt is cached for that agent; when it fails, the agent's entry is evicted;
- a decision line (`[AgentN] Successfully parsed decision: action, amount, reasoning`) emits a row when its agent has a cached prompt. The row holds the hand, the phase derived from the number of community cards, the chips and cards from the prompt, and the decision's fields;
- an exception anywhere discards every row.

The model has six modules:

- `Prompts`: the values (parsed prompt, cache entry, decision, output record), the phase classifier and the record builder.
- `LineClassifier`: the three line patterns. Each is written as a character-level recogniser searched leftmost-first, like `re.search`. The classifier tries them in the loop's priority order.
- `BraceScanner`: the inner brace-counting loop as the method `ScanBlock`. It is proved against the recursive function `CaptureFrom`. `Depth` gives the bracket level after each line, and `CaptureSpec` characterises the capture in terms of it.
- `Extraction`: one iteration of the outer loop (`Step`) and the whole scan (`Run`, `Extract`) as functions on a scan state, with the lemmas about what one iteration does to the hand, the cache and the records, and when it raises.
- `ScanHistory`: the state after each iteration from the start of the log (`Reach`). From it the module derives where every record comes from: the decision line that emitted it, the marker that numbered its hand and the prompt block its fields were read from. It also shows that the dispatched lines strictly increase and that no line of a JSON block is dispatched.
- `LogAnalyzer`: the loop itself. The class `Analyzer` has the loop variables as fields: cursor `i`, `currentHand`, the `agentPrompts` map and the `data` sequence. There is one method per dispatch rule. Each is proved to perform exactly one `Step`. `Run` is proved equal to the functional scan, and `LoadLogData` returns `Extract` of its input.

The log is a sequence of lines, each keeping its trailing newline as `readlines` returns it. `json.loads` together with the reading of the three prompt keys is a parameter `parse: string -> Option<Prompt>`, where `None` is a decoding error.

Three behaviours of the code differ from what the log format suggests. The model follows the code:

- **Braces.** A line holding at least one `}` lowers the level by its number of `}`, and its `{` are not counted. A line without `}` raises the level by its number of `{`. A nested object opened and closed on one line therefore lowers the level. `BraceScanner.NestedObjectClosesEarly` shows a block that closes one line before its own `}` because of this rule.
- **Blocks that do not close.** A block that runs off the end of the input, or whose level drops below 0, is not decoded. It is not treated as a decoding error either: the cache is left exactly as it was, so an older entry for that agent survives.
- **Logs without markers.** Such a log is not empty: its rows carry hand 0.

## Model

| member | source | states |
|---|---|---|
| Prompts.Phase | analyzer/analyzer.py:107-119 | The label is always one of preflop/flop/turn/river/unknown. It is preflop exactly for 0 community cards, flop for 3, turn for 4, river for 5, and unknown for any other count. |
| Prompts.Join | analyzer/analyzer.py:126-127 | `", ".join`: empty for no labels. Otherwise its length is the labels' total length plus two per separator, and it starts with the first label. |
| Prompts.JoinSnoc | analyzer/analyzer.py:126-127 | Joining one more label appends a separator and that label to the earlier join, or gives the label alone when there was none. |
| Prompts.MakeRecord | analyzer/analyzer.py:100-132 | A row is built exactly when neither card field is one that `len` or `join` rejects. The row carries the hand, agent, action, amount, reasoning and the parsed prompt verbatim. Its phase, chips (default 0) and joined card lists agree with the prompt. |
| LineClassifier.Search | analyzer/analyzer.py:35 | `re.search`: no result exactly when the pattern matches at no position. Otherwise the result is the match at the leftmost position where it matches. |
| LineClassifier.ClassifyPriority | analyzer/analyzer.py:35-141 | Each line is dispatched by exactly one rule, the first whose pattern occurs in it. A marker wins over a prompt start, which wins over a decision. |
| LineClassifier.SpanIsLongest | analyzer/analyzer.py:35 | A greedy `\d+` / `\w+` / `.*` run has length n exactly when the n characters are in the class and the next one is not. |
| LineClassifier.Numeral | analyzer/analyzer.py:100 | Every amount has a decimal numeral of digits only, which `int` reads back as that amount. |
| LineClassifier.StripBoundsSpec | analyzer/analyzer.py:101 | `strip` removes white space at both ends only. The kept reasoning neither starts nor ends with white space. |
| LineClassifier.NoMarkerWithoutEquals | analyzer/analyzer.py:35 | A line without `=` never starts a hand. |
| LineClassifier.NoPromptWithoutBrace | analyzer/analyzer.py:43 | A line without `{` never starts a prompt. |
| LineClassifier.MarkerExample | analyzer/analyzer.py:35-37 | The line `=== STARTING NEW HAND #3 ===` is a marker for hand 3. |
| LineClassifier.PromptExample | analyzer/analyzer.py:35-45 | The line `LLM Prompt for Agent1: {` is no marker and starts a prompt block for `Agent1`. |
| BraceScanner.LastIndexOf | analyzer/analyzer.py:61 | `rfind`: the result is -1 or a position of the character, and no later position holds it. |
| BraceScanner.Delta | analyzer/analyzer.py:55-73 | A line with only one kind of brace, or none, moves the level by its net count of `{` minus `}`. A line with both kinds moves it by that net count minus its `{`, which are ignored. The level drops exactly when the line holds a `}`. |
| BraceScanner.CaptureSpec | analyzer/analyzer.py:46-77 | The capture ends on the first line after which the level, starting at 1, is no longer positive. It is closed when the level is 0, with text `{` + newline + the lines in between + the closing line cut after its last `}`. It is abandoned when the level is below 0, and cut off only when the level stays positive to the end. |
| BraceScanner.NestedObjectClosesEarly | analyzer/analyzer.py:55-73 | A line holding a nested `{}` closes the block although the block's own `}` is still to come. |
| BraceScanner.ScanBlock | analyzer/analyzer.py:46-77 | The inner loop stops where the capture ends. It returns that line, level 0 and the captured text on a close, a negative level on a mismatch, and the end of input with a positive level on a cut-off. |
| Extraction.Remember | analyzer/analyzer.py:84-90 | After a closed block the agent has an entry exactly when decoding succeeded, and then it holds the decoded prompt and its text. Every other agent's entry is unchanged. |
| Extraction.Step | analyzer/analyzer.py:31-141 | Each iteration moves the cursor forward and appends at most one record to those already emitted. It fails only on a decision line. |
| Extraction.MarkerStartsHand | analyzer/analyzer.py:35-40 | A marker sets the hand to its number and empties the whole cache. It advances exactly one line and leaves the records unchanged. |
| Extraction.UnclosedBlockKeepsCache | analyzer/analyzer.py:79-82 | A block not closed is not decoded. Hand, cache and records are unchanged, and the scan resumes one line after where the block reading stopped. |
| Extraction.ClosedBlockUpdatesAgent | analyzer/analyzer.py:84-93 | A closed block stores the decoded prompt with its text, overwriting any earlier entry, or evicts the agent on a decoding error. It leaves other agents, the hand and the records alone, and resumes after the closing line. |
| Extraction.PromptKeepsHandAndRecords | analyzer/analyzer.py:43-93 | A prompt-start line, closed or not, emits nothing and keeps the hand. It changes no agent's entry but its own, and removes no other agent's entry. |
| Extraction.DecisionEmitsIffCached | analyzer/analyzer.py:96-139 | A decision line emits one record exactly when its agent has a cached entry, which is not consumed. The hand and cache are unchanged and the cursor advances by one. The record carries the current hand, the captured groups and the cached prompt. |
| Extraction.StepFailsIffMalformed | analyzer/analyzer.py:103-146 | An iteration raises exactly on a decision line whose agent's cached prompt has a card field that `len` or `join` rejects. |
| Extraction.RunExtends | analyzer/analyzer.py:121-132 | Records are only appended: those already emitted begin the result. |
| Extraction.RunWellFormed | analyzer/analyzer.py:106-132 | Every emitted record agrees with the prompt it was built from. |
| Extraction.ExtractWellFormed | analyzer/analyzer.py:11-148 | Every row `load_log_data` returns agrees with the prompt it was built from. |
| ScanHistory.NextState | analyzer/analyzer.py:31-141 | What iteration j does to the state it finds, for each kind of line under the cursor. Only a decision line can end the scan. |
| ScanHistory.ReachEarlier | analyzer/analyzer.py:31-141 | Every iteration before one the scan reached took place. The cursor was strictly smaller then, and the records were a prefix of the later ones. |
| ScanHistory.LastMarker | analyzer/analyzer.py:35-40 | The last iteration before n that dispatched a marker: no marker was dispatched after it, and none at all when there is no such iteration. |
| ScanHistory.ReachHand | analyzer/analyzer.py:20-40 | The current hand is the number of the last marker dispatched, or 0 before the first. |
| ScanHistory.LastClosedPrompt | analyzer/analyzer.py:35-93 | The last closed prompt block for an agent in the current hand: no marker and no later closed block for that agent follows it. When there is none, every earlier closed block for the agent is followed by a marker. |
| ScanHistory.ReachCache | analyzer/analyzer.py:21-93 | An agent has a cached entry exactly when its last closed block in the current hand decoded, and the entry is that block's prompt and text. |
| ScanHistory.ReachRecord | analyzer/analyzer.py:96-132 | The k-th record was emitted by an earlier iteration that dispatched a decision line. That iteration found k records, the agent cached, and the current hand. The record carries the line's groups and the cached prompt. |
| ScanHistory.ReachProvenance | analyzer/analyzer.py:31-141 | The k-th record was emitted by a decision line for its agent. Its hand is the number of the last marker before that line, or 0. Its prompt is the decoding of the agent's last closed block before that line in the same hand. |
| ScanHistory.ExtractProvenance | analyzer/analyzer.py:11-148 | Every row `load_log_data` returns has the provenance `ReachProvenance` describes. |
| ScanHistory.EmissionOrder | analyzer/analyzer.py:121-132 | Records come in the order of the decision lines that emitted them. |
| ScanHistory.DispatchIncreasing | analyzer/analyzer.py:31-141 | The dispatched lines strictly increase, so no line is dispatched twice. |
| ScanHistory.BlockLinesSkipped | analyzer/analyzer.py:46-93 | No line read as part of a prompt's JSON block is dispatched as a marker, prompt or decision. |
| LogAnalyzer.Analyzer.HandleMarker | analyzer/analyzer.py:35-40 | The marker branch updates the fields exactly as one scan step does. |
| LogAnalyzer.Analyzer.HandlePrompt | analyzer/analyzer.py:43-93 | The prompt branch, with its inner loop and cache set/pop, updates the fields exactly as one scan step does. |
| LogAnalyzer.Analyzer.HandleDecision | analyzer/analyzer.py:96-139 | The decision branch updates the fields exactly as one scan step does, and reports failure exactly when that step raises. |
| LogAnalyzer.Analyzer.Run | analyzer/analyzer.py:31-146 | The outer loop succeeds exactly when the functional scan does, and then its `data` holds the scan's records. |
| LogAnalyzer.LoadLogData | analyzer/analyzer.py:11-148 | Returns the records of the scan, or nothing when an exception was raised. |

## Left out

- Reading the file and the existence check (analyzer/analyzer.py:15-17, 27-29) are I/O. The model takes the lines as its input.
- The `@st.cache_data` memoisation, the `st.error` message and the `pd.DataFrame` wrapping are framework code. The model returns the sequence of records, or the empty sequence.
- `main()` and everything after `load_log_data` is presentation and is not part of this model.
- `json.loads` is a parameter. No JSON syntax is checked, and `Prompt` gives structure only to `your_chips`, `your_cards` and `community`. The text handed to it always starts with `{`, so a successful decoding is a JSON object and `.get` cannot fail.
- `LineClassifier.Classify`: `\d` and `\w` are taken over ASCII, while Python's `re` on `str` also accepts other Unicode digits and letters. `int` of non-ASCII digits is likewise not modelled.
- `LineClassifier.DigitsValue`: reads a numeral of any length. Python's `int` raises `ValueError` on a decimal string of more than 4300 digits, its default limit on integer string conversion.
- `Extraction.StepFailsIffMalformed`: does not cover exceptions that `parse` and `int` can raise beyond those the model gives them. `json.loads` (analyzer/analyzer.py:85) can raise exceptions other than `JSONDecodeError` on a block whose braces balance, and `except json.JSONDecodeError` (analyzer/analyzer.py:87) does not catch them. Two examples: a `RecursionError` on a block line nested some hundred thousand `[` deep, and a `ValueError` on an integer literal of more than 4300 digits. They reach `except Exception` (analyzer/analyzer.py:143-146), so the source returns no rows. `parse` here can only decode or fail to decode, so the model evicts the agent's entry and goes on scanning. Likewise, Python's `int` raises `ValueError` on a decimal string of more than 4300 digits. So the source's scan also aborts on a marker whose number is that long (analyzer/analyzer.py:37). It aborts too on a decision line whose amount is that long (analyzer/analyzer.py:100), even when the agent has no cached prompt, because the conversion runs before the cache check. The model reads such numerals as their value and does not raise.
- `Extraction.Step`: for the same reason, its "fails only on a decision line" and `ScanHistory.NextState`'s "only a decision line can end the scan" hold only for the exceptions modelled. In the source, a prompt line or a marker line can also end the scan through the exceptions above.
- `parse` gives a card field that is a JSON string as `Cards` of its characters, and a JSON object as `Cards` of its keys. That is what `len` counts and `join` joins in the source. `Malformed` is exactly a value `len` or `join` rejects. The `inputPrompt` of a record therefore does not tell such a field from a list.
- `Prompts.MakeRecord`: non-integer `your_chips` values are not modelled; chips are an `int`.
- The exceptions modelled are `len`/`join` rejecting a card field. Those listed under `Extraction.StepFailsIffMalformed` are left out, and so are I/O errors and memory exhaustion.
- On a level below 0 the source appends the offending line to the text, but never decodes that text. The model does not keep it.
- Round trips between generated log lines and the classifier are proved only for the two example lines of `LineClassifier.MarkerExample` and `LineClassifier.PromptExample`, not for every hand number or agent name.
