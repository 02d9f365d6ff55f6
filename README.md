# Desktop agent core, modelled in Dafny

The agent drives a desktop in a loop. It takes a screenshot and sends it to an
element detector. The detector answers with one text line per element:
`<label>: <python dict literal>`. A vision-language model is then asked for the
next action as JSON. The agent performs that action with simulated mouse and
keyboard input and keeps the last five action records as context for the next
request.

This project models the deterministic core of that loop and proves its
behaviour:

- `omni_parser.dfy`, module `OmniParser`: `parse_omni_parser_output`. The text
  is stripped and split into lines. Each line is split at its first colon and
  both halves are trimmed. The right half is literal-evaluated, and the result
  is kept only if it is a dict with the four required keys. The trimmed label
  becomes the dict's `id`. A per-line `SyntaxError`/`ValueError` skips only
  that line. Any other exception empties the whole result.
- `element_lookup.dfy`, module `ElementLookup`: `get_element_center`. It returns
  the first element whose `id` is `"icon " + str(box_id)`, or "not found". A
  missing `id` or `bbox` key raises.
- `braces.dfy`, module `Braces`: the scan `re.findall(r"\{[^{}]*\}", s)`.
  Matches are reported left to right, and every flat `{...}` object is found.
- `actions.dfy`, module `Actions`: `execute_action`. It decodes the whole reply
  first. Failing that, it uses the first decodable flat object in it. It then
  dispatches on `Next Action`. Every `pyautogui` call, `time.sleep` and
  `take_screenshot` becomes an `Event` appended to the `trace` of a `Desktop`
  object. The function `Execute` states the whole outcome: either the returned
  record or an escaping exception, together with the events.
- `agent.dfy`, module `Agent`: one iteration of the `while True` loop in
  `main`. It covers the three early `continue`s and the list of prompt
  messages. It then calls `execute_action`, appends the record and keeps the
  last five. The class `AgentLoop` holds `history`, and its invariant ties
  `history` to the ghost log of every record ever appended.
- `values.dfy` and `text.dfy` hold the Python values, truthiness, `dict.get`,
  `str()` of ints, `str.strip`, `str.split` and `str.split(sep, 1)` that these
  routines use.

Library behaviour outside the core is passed in as function-valued parameters:

- `ast.literal_eval` is a `LiteralEval` that returns a value, a
  syntax/value error or another exception.
- `json.loads` is a `JsonLoads`.
- The bounding-box centre arithmetic together with `pyautogui.size()` is a
  `Centre` plus a `Screen`.
- `str()` of floats, lists and dicts is the `other` parameter of `Str`.
- The screenshot, detector and model calls of one iteration are a `World`.

Exceptions that escape these routines become explicit outcomes: `Raised`,
`ActionRaised` and `PromptKeyError`.

Behaviour of the code that the model makes explicit:

- `hover` without a Box ID performs nothing, reports `Success` and sets no
  `message` at all.
- Only `mouse_move` reads `coordinate`.
- `execute_action` can raise instead of returning a record. This happens when
  the decoded JSON is not a dict, when the loop reaches an element without `id`
  before any element carrying the label, whether or not one follows
  (`KeyError` at utils.py:49), when the matched element lacks
  `bbox`, when the bbox does not unpack or its centre arithmetic fails (utils.py:50-52),
  or when `coordinate` does not unpack into two values.
- A record without a message makes the next iteration's prompt list raise
  `KeyError` at main.py:38. This ends the loop. `UnsetMessageStopsNextIteration`
  states it.

## Model

| member | source | states |
|---|---|---|
| Values.FalsyValues | utils.py:216-273 | `Truthy`, the truth tests `elif coordinates`, `if text` and `if key_name`, fails exactly for None, False, 0, 0.0 and the empty string, list and dict |
| Values.StrOfScalars | utils.py:211-307 | the f-string rendering of a value: a string as itself, None and booleans by name, an int as its sign and decimal digits that read back as its magnitude |
| Values.NatToDecimal | utils.py:49 | `str()` of a non-negative int is a non-empty run of decimal digits without a leading zero |
| Values.DecimalRoundTrip | utils.py:49 | reading the decimal text of `n` back gives `n` |
| Values.NatToDecimalInjective | utils.py:49 | different naturals have different decimal texts |
| Values.IntToDecimalInjective | utils.py:49 | `str()` of two different ints gives two different strings, sign included |
| Text.StripStartSpec | utils.py:93 | `lstrip` removes exactly the leading whitespace: the rest is a suffix whose first character is not whitespace |
| Text.StripEndSpec | utils.py:93 | `rstrip` removes exactly the trailing whitespace |
| Text.StripSpec | utils.py:93 | `strip()` is the slice of `s` between its leading and trailing whitespace, and it is empty exactly when `s` is all whitespace |
| Text.IndexOf | utils.py:99 | the first position of the character: it is there, and not before |
| Text.Split | utils.py:93 | `split('\n')` gives at least one piece, no piece holds a newline, and joining the pieces with newlines gives back the text |
| Text.SplitAfter | utils.py:93 | splitting `head + sep + tail`, with no separator in `head`, gives `head` followed by the pieces of `tail` |
| Text.SplitJoin | utils.py:93 | splitting the join of newline-free pieces gives back exactly those pieces |
| Text.IndexOfAfter | utils.py:99 | in `a + sep + b` with no `sep` in `a`, the first separator is right after `a` |
| Text.SplitAtFirst | utils.py:99 | `split(':', 1)`: the head has no colon, and head + ':' + tail is the line |
| OmniParser.Judge | utils.py:96-122 | one line's fate: no colon skips it; a SyntaxError/ValueError skips it; another exception aborts; a dict with the four keys is kept, carrying the trimmed label as `id` and every other key of the literal unchanged; anything else is skipped |
| OmniParser.Kept | utils.py:113-123 | no more kept elements than verdicts |
| OmniParser.Parse | utils.py:80-128 | never more elements than lines after strip and split |
| OmniParser.KeptSnoc | utils.py:121-123 | one more line appends its element exactly when its verdict keeps one |
| OmniParser.AbortsSnoc | utils.py:125-127 | one more line aborts exactly when an earlier line did or this one raises another exception |
| OmniParser.ParseOmniParserOutput | utils.py:91-128 | the loop with `continue` skips and the early `return []` returns exactly `Parse` |
| OmniParser.KeptIndices | utils.py:94-123 | the positions of the kept lines are in range, strictly increasing, and include every kept line |
| OmniParser.KeptIsSubsequence | utils.py:113-123 | the kept elements match the kept lines one for one and in order, so the result is an order-preserving subsequence of the lines |
| OmniParser.ParsedAreElements | utils.py:113-123 | every emitted dict has `type`, `bbox`, `interactivity`, `content` and `id`, and the k-th is the k-th kept line's literal with `id` replaced by that line's trimmed label |
| OmniParser.BlankTextParsesEmpty | utils.py:93-98 | empty or whitespace-only text gives `[]` |
| OmniParser.ParseKeepsEveryGoodLine | utils.py:103-123 | without an abort, every good line's element is in the result, so a bad line costs only itself |
| OmniParser.DuplicateLabelsKept | utils.py:121-123 | without an abort, the elements of any two good lines `i < j` both appear in the result, at two positions in the same order, even with the same label (no de-duplication) |
| OmniParser.OtherErrorDiscardsAll | utils.py:125-127 | any other exception from the literal evaluator, on any line with a colon, empties the whole result |
| ElementLookup.FirstStop | utils.py:48-49 | where the loop stops: every earlier element has an `id` that is not the label, and the element there lacks `id` or matches |
| ElementLookup.CenterOf | utils.py:34-54 | "not found" exactly when every element has an `id` and none is `"icon " + str(box_id)`; a found centre is the centre of the first matching element's `bbox` |
| ElementLookup.GetElementCenter | utils.py:48-54 | the loop with early return computes `CenterOf`, and a found centre comes from an element with the label |
| ElementLookup.FirstStopIs | utils.py:48-49 | the loop stops at the one position meeting the two stop conditions |
| ElementLookup.FirstMatchWins | utils.py:48-53 | the first element with the label decides the result, whatever the later ones hold |
| ElementLookup.IntLabelsDistinct | utils.py:49 | distinct int Box IDs never select each other's element |
| Braces.NextBrace | utils.py:182 | `[^{}]*` stops at the first brace at or after the position, or at the end |
| Braces.MatchStarts | utils.py:182 | every reported start is a match, and the starts strictly increase |
| Braces.MatchText | utils.py:182 | each match is a flat object: `{`, brace-free text, `}` |
| Braces.FindAll | utils.py:182 | one text per reported start, each a flat object |
| Braces.NextBraceIs | utils.py:182 | the stop is the first brace |
| Braces.ScanFindsFlat | utils.py:182 | the scan never steps over the start of a flat object |
| Braces.FindAllExact | utils.py:182 | the k-th match is the slice of the text at the k-th start, the starts increase, and every flat object's start is reported |
| Braces.WrappedObjectFound | utils.py:182 | a flat object with prose around it is among the matches |
| Actions.FirstDecodable | utils.py:184-190 | the first candidate that decodes, and every earlier one failed; none only when all fail |
| Actions.Decode | utils.py:178-193 | the whole reply is used when it decodes; otherwise the first decodable candidate, left to right; nothing exactly when every candidate fails |
| Actions.DecodeResponse | utils.py:178-193 | the direct attempt plus the loop with the `parsed` flag computes `Decode` |
| Actions.FirstDecodableIs | utils.py:184-190 | the loop's break position is the first decodable candidate |
| Actions.Unpack2 | utils.py:217 | `x, y = coordinates` succeeds exactly for a two-element list or a two-character string, and gives its two parts in order; anything else raises |
| Actions.KindOf | utils.py:203-306 | an action value selects a known branch only when it is exactly that branch's `Next Action` string; anything else falls to the final `else` |
| Actions.KindOfName | utils.py:203-306 | each known string selects its own branch, so no branch shadows another |
| Actions.MoveEffect | utils.py:203-223 | the `mouse_move` branch keeps every record property below and always sets the message; it raises exactly when the Box ID lookup raises or, without Box ID, a truthy `coordinate` does not unpack; without Box ID an unpacked coordinate is moved to with `Success`, and a falsy one gives "Error: No coordinates or Box ID provided." with no event |
| Actions.OnElement | utils.py:229-243 | a pointer action on a found element performs one event, succeeds and sets a message |
| Actions.InPlace | utils.py:248-259 | a pointer action without Box ID always returns `Success`; it clicks, right-clicks or double-clicks at the current position, performs nothing for `hover`, and leaves the message unset exactly for `hover` |
| Actions.PointerEffect | utils.py:226-259 | the pointer branch keeps every record property below, leaves the message unset exactly for `hover` without Box ID, and raises exactly when the Box ID lookup raises |
| Actions.Act | utils.py:226-309 | every branch but `mouse_move` keeps the record properties and raises exactly when a pointer action's Box ID lookup raises; `type` and `key` with a truthy `value` write or press it and succeed |
| Actions.Dispatch | utils.py:195-311 | at most one event; an exception performs nothing, and it escapes exactly when a Box ID lookup of `mouse_move` or a pointer action raises, or when `mouse_move` without Box ID has a truthy `coordinate` that does not unpack; a record's `action` is `Next Action` and `previous_actions` is `[]`; its result is `Success`, `Task completed.` or an `Error: ` text; any event implies `Success`; the message is unset exactly for `hover` without Box ID |
| Actions.Execute | utils.py:167-311 | at most one event; with nothing decodable, exactly the "Error: Invalid JSON" record and no event; a decoded non-dict raises |
| Actions.DirectDecodeWins | utils.py:178-179 | a reply that decodes to a dict as a whole is dispatched as it is |
| Actions.FirstMatchAfterProse | utils.py:182 | with no brace before a match, it is the first one reported |
| Actions.ObjectAfterProseDecoded | utils.py:180-188 | prose without braces, then a JSON object, then anything: the object is the value used when the whole reply does not decode |
| Actions.BoxNotFoundNoInput | utils.py:203-247 | a Box ID that no element carries: no event, result = message = "Error: Could not find element with Box ID '<id>'." |
| Actions.ClickAtCentre | utils.py:205-243 | a found element is clicked, right-clicked, double-clicked or moved to at its centre, as the action says |
| Actions.FoundElementMessage | utils.py:203-245 | with a Box ID whose element is found at pixel `p`, every lookup action reports `Success` and a message naming the Box ID and `p`: "Moved mouse to element with Box ID <id> at coordinates (x, y).", "Left-clicked on", "Right-clicked on", "Double-clicked on" or "Hovered over element with Box ID <id> at (x, y)." |
| Actions.CoordinateOnlyForMouseMove | utils.py:203-222 | unless the request is `mouse_move` without Box ID, changing `coordinate` changes nothing |
| Actions.EmptyValueRefused | utils.py:261-279 | `type` or `key` without a truthy `value` is an error with no event, with message equal to result |
| Actions.FixedActions | utils.py:281-299 | `scroll_up` scrolls +20, `scroll_down` scrolls -20, `wait` sleeps 2, `screenshot` takes one |
| Actions.NoneCompletes | utils.py:301-304 | the string "None" gives "Task completed." and no event |
| Actions.MissingActionUnknown | utils.py:306-309 | without `Next Action` the record's action is None and its result and message are "Error: Unknown action 'None'.", with no event |
| Actions.HoverWithoutBox | utils.py:248-259 | `hover` without Box ID: "Success", no message, no event |
| Actions.MoveToCoordinate | utils.py:216-220 | `mouse_move` without Box ID moves to the unpacked `(x, y)`, succeeds and reports the coordinate |
| Actions.MoveWithoutTarget | utils.py:221-223 | `mouse_move` with neither Box ID nor truthy `coordinate`: "Error: No coordinates or Box ID provided." as result and message, no event |
| Actions.ClickInPlace | utils.py:248-259 | `left_click`, `right_click` and `double_click` without Box ID perform their call at the current position and succeed with a message |
| Actions.TypeWrites | utils.py:261-266 | `type` with a truthy `value` writes exactly that value, succeeds, and the message quotes the text |
| Actions.KeyPresses | utils.py:271-276 | `key` with a truthy `value` presses exactly that key, succeeds, and the message quotes the key |
| Actions.Desktop.Perform | utils.py:209 | each input call appends its event to the trace |
| Actions.ExecuteAction | utils.py:167-311 | the imperative `execute_action` returns `Execute`'s outcome and appends exactly `Execute`'s events to the trace |
| Actions.DispatchAction | utils.py:195-311 | the branch-by-branch filling of the record returns `Dispatch`'s outcome and appends its events |
| Actions.MoveMouse | utils.py:203-223 | the imperative `mouse_move` branch returns `MoveEffect`'s outcome and appends its events |
| Actions.PointerAction | utils.py:226-259 | the imperative pointer branch returns `PointerEffect`'s outcome and appends its events |
| Actions.ActOnElement | utils.py:229-243 | the click, right-click, double-click or hover on a found element matches `OnElement` |
| Actions.ActInPlace | utils.py:248-259 | the call at the current position matches `InPlace` |
| Agent.LastN | main.py:48 | `[-5:]` keeps min(n, 5) elements, and they are the list's suffix |
| Agent.PromptMessages | main.py:38 | the prompt list is the records' messages one for one and in the same order; it fails exactly when some record has no message |
| Agent.Prepare | main.py:25-42 | the iteration ends with no screenshot exactly when the path is falsy, with no detection exactly when the detector returns nothing, past those with `KeyError` exactly when a record lacks its message, and past that with no reply exactly when the model's reply to the request is falsy; it never ends in an executed or raised action; it reaches `execute_action` exactly when the reply is non-empty, with the fixed query, the parsed elements, the history's messages and the path |
| Agent.Iterate | main.py:22-48 | an executed iteration asked the model with the history's messages and returns a record with empty `previous_actions` |
| Agent.IterationEvents | main.py:44 | at most one input event per iteration, and none unless the iteration executes an action |
| Agent.AgentLoop.constructor | main.py:20 | the history starts empty |
| Agent.AgentLoop.Step | main.py:23-48 | one loop body: its outcome is `Iterate`, the history becomes the last five of everything appended, exactly one record is appended when an action executes and none otherwise, and the desktop receives the iteration's events |
| Agent.LastNSnoc | main.py:47-48 | appending and then keeping the last five equals keeping the last five of the whole log |
| Agent.HistoryBounded | main.py:47-48 | an executed iteration grows the history by one up to 5 with the new record last; at 5 the oldest is dropped |
| Agent.EarlyEndKeepsHistory | main.py:25-42 | an iteration whose screenshot is falsy, whose detector call returns nothing, whose prompt list raises `KeyError`, or whose model reply is falsy leaves the history unchanged and performs nothing |
| Agent.RequestCarriesMessages | main.py:38-40 | the model is asked with the fixed query and with the kept records' messages, oldest first |
| Agent.UnsetMessageStopsNextIteration | main.py:38 | once a record without a message is appended, the next iteration that gets past the detector stops with `KeyError` |
| Agent.HoverWithoutBoxLeavesNoMessage | utils.py:248-259 | a reply that decodes, directly or through the brace fallback, to a `hover` without Box ID returns a record with no message |

## Left out

- config.py: constant strings only (endpoints, credentials, the system prompt). The prompt text is not modelled.
- `take_screenshot`, `call_omni_parser`, `call_vlm`, `convert_to_base64` and the client construction: these are file I/O and network calls. They are the `World` of one iteration, and the image is stood for by the screenshot path in `Request`.
- The detector's tuple unpack at main.py:32: `World.detect` hands over the raw text directly.
- The start-up settings and the sleep at main.py:14-18, and the printed log lines: these are OS settings and console output.
- The `while True` loop itself: it never terminates. `AgentLoop.Step` is one pass of it, and repeated calls keep `Valid()`.
- Failures inside `pyautogui` calls (for example `write` given a non-string): an `Event` records the call but not what the OS does with it.
- The float arithmetic of the bbox centre and `pyautogui.size()`: these are the opaque `Centre` and `Screen`.
- The internals of `ast.literal_eval` and `json.loads`, including a `RecursionError` from deeply nested JSON: they are the opaque `LiteralEval` and `JsonLoads`.
- `str()` of floats, lists and dicts: this is the `other` parameter.
- Dictionary key order and non-string keys: `Dict` is a map from strings.
- Actions.Unpack2: a `coordinate` that is a two-key dict would unpack into its keys in insertion order. The model has no key order and treats it as raising.
- Actions.MoveEffect: for the same reason, a two-key dict `coordinate` makes `mouse_move` raise instead of moving to the dict's keys.
- OmniParser.Kept and OmniParser.Parse: their own contracts state only the length bound. The full content is stated by OmniParser.KeptIsSubsequence, OmniParser.ParsedAreElements and the other lemmas.
