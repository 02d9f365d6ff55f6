/** `execute_action`: decode the model's reply (whole text first, then the
    first decodable flat `{...}` in it), dispatch on `Next Action`, perform
    at most one input event and return one action record. Input calls
    (`pyautogui`, `time.sleep`, `take_screenshot`) are events appended to
    a recorded trace. */
module Actions {
  import opened Values
  import opened Braces
  import opened ElementLookup

  /** What `json.loads` does with one text. */
  datatype Json = Decoded(value: Value) | DecodeError

  type JsonLoads = string -> Json

  /** The library behaviour `execute_action` depends on: the JSON decoder,
      the bounding-box centre computation, the screen size, and `str()` of
      floats, lists and dicts. */
  datatype Host = Host(loads: JsonLoads, centre: Centre, screen: Screen, other: Value -> string)

  /** One simulated input call. */
  datatype Event =
    | MoveTo(x: Value, y: Value)        // pyautogui.moveTo(x, y, duration=0.5)
    | ClickAt(at: Option<Pixel>)        // pyautogui.click(x, y) or click()
    | RightClickAt(at: Option<Pixel>)   // pyautogui.rightClick
    | DoubleClickAt(at: Option<Pixel>)  // pyautogui.doubleClick
    | Write(text: Value)                // pyautogui.write
    | Press(key: Value)                 // pyautogui.press
    | Scroll(clicks: int)               // pyautogui.scroll
    | Sleep(seconds: int)               // time.sleep
    | Capture                           // take_screenshot()

  /** The dictionary `execute_action` returns. `message` is `None` when the
      key was never assigned; `previous_actions` is always `[]`. */
  datatype ActionRecord = ActionRecord(action: Value, result: string, message: Option<string>,
                                       previousActions: seq<Value>)

  /** A returned record, or an exception escaping `execute_action`. */
  datatype Outcome = Returned(record: ActionRecord) | Raised

  /** The outcome together with the input events performed. */
  datatype Effect = Effect(outcome: Outcome, events: seq<Event>)

  /** The record for a reply in which nothing decodes. */
  const InvalidJson: ActionRecord :=
    ActionRecord(VStr("None"), "Error: Invalid JSON", Some("Failed to parse VLM response."), [])

  // ---------------------------------------------------------------- decoding

  /** The index of the first text that decodes. */
  function FirstDecodable(ms: seq<string>, loads: JsonLoads): (r: Option<nat>)
    ensures r.Some? ==> r.value < |ms| && loads(ms[r.value]).Decoded?
                        && forall j :: 0 <= j < r.value ==> loads(ms[j]).DecodeError?
    ensures r.None? ==> forall j :: 0 <= j < |ms| ==> loads(ms[j]).DecodeError?
    decreases |ms|
  {
    if ms == [] then None
    else if loads(ms[0]).Decoded? then Some(0)
    else
      match FirstDecodable(ms[1..], loads)
      case None => None
      case Some(k) => Some(k + 1)
  }

  /** The decoding policy: the whole reply if it decodes, otherwise the
      first flat object in it, left to right, that decodes; `None` if none
      does. */
  function Decode(response: string, loads: JsonLoads): (r: Option<Value>)
    ensures loads(response).Decoded? ==> r == Some(loads(response).value)
    ensures loads(response).DecodeError? ==>
      (r.None? <==> forall k :: 0 <= k < |FindAll(response)| ==> loads(FindAll(response)[k]).DecodeError?)
    ensures loads(response).DecodeError? && r.Some? ==>
      exists k :: 0 <= k < |FindAll(response)| && loads(FindAll(response)[k]) == Decoded(r.value)
                  && forall j :: 0 <= j < k ==> loads(FindAll(response)[j]).DecodeError?
  {
    match loads(response)
    case Decoded(v) => Some(v)
    case DecodeError =>
      var ms := FindAll(response);
      match FirstDecodable(ms, loads)
      case None => None
      case Some(k) => Some(loads(ms[k]).value)
  }

  /** The decoding step of `execute_action`: a direct attempt, then the
      loop over candidate substrings with its `parsed` flag. */
  method DecodeResponse(response: string, loads: JsonLoads) returns (r: Option<Value>)
    ensures r == Decode(response, loads)
  {
    var direct := loads(response);
    if direct.Decoded? {
      return Some(direct.value);
    }
    var potentialJsons := FindAll(response);
    var parsed := false;
    var i := 0;
    r := None;
    while i < |potentialJsons| && !parsed
      invariant 0 <= i <= |potentialJsons|
      invariant !parsed ==> r.None? && forall j :: 0 <= j < i ==> loads(potentialJsons[j]).DecodeError?
      invariant parsed ==> 0 < i && Some(i - 1) == FirstDecodable(potentialJsons, loads)
                           && r == Some(loads(potentialJsons[i - 1]).value)
    {
      var attempt := loads(potentialJsons[i]);
      if attempt.Decoded? {
        FirstDecodableIs(potentialJsons, loads, i);
        r := Some(attempt.value);
        parsed := true;
      }
      i := i + 1;
    }
  }

  /** The first decodable index is the one before which nothing decodes. */
  lemma {:induction false} FirstDecodableIs(ms: seq<string>, loads: JsonLoads, i: nat)
    requires i < |ms| && loads(ms[i]).Decoded?
    requires forall j :: 0 <= j < i ==> loads(ms[j]).DecodeError?
    ensures FirstDecodable(ms, loads) == Some(i)
    decreases i
  {
    if i > 0 {
      assert forall j :: 0 <= j < i - 1 ==> ms[1..][j] == ms[j + 1];
      FirstDecodableIs(ms[1..], loads, i - 1);
    }
  }

  // ---------------------------------------------------------------- dispatch

  /** The branches of the `if`/`elif` chain on `Next Action`, one per known
      string, and `Unknown` for the final `else`. */
  datatype ActionKind =
    | MouseMove | LeftClick | RightClick | DoubleClick | Hover
    | TypeText | PressKey | Screenshot | ScrollUp | ScrollDown | Wait | Complete
    | Unknown

  /** The `Next Action` string that selects each known branch. */
  function ActionName(k: ActionKind): string
    requires k != Unknown
  {
    match k
    case MouseMove => "mouse_move"
    case LeftClick => "left_click"
    case RightClick => "right_click"
    case DoubleClick => "double_click"
    case Hover => "hover"
    case TypeText => "type"
    case PressKey => "key"
    case Screenshot => "screenshot"
    case ScrollUp => "scroll_up"
    case ScrollDown => "scroll_down"
    case Wait => "wait"
    case Complete => "None"
  }

  /** The branch an action value takes: the comparisons of the chain, in
      the source's order. */
  function KindOf(action: Value): (k: ActionKind)
    ensures k != Unknown ==> action == VStr(ActionName(k))
  {
    if action == VStr("mouse_move") then MouseMove
    else if action == VStr("left_click") then LeftClick
    else if action == VStr("right_click") then RightClick
    else if action == VStr("double_click") then DoubleClick
    else if action == VStr("hover") then Hover
    else if action == VStr("type") then TypeText
    else if action == VStr("key") then PressKey
    else if action == VStr("screenshot") then Screenshot
    else if action == VStr("scroll_up") then ScrollUp
    else if action == VStr("scroll_down") then ScrollDown
    else if action == VStr("wait") then Wait
    else if action == VStr("None") then Complete
    else Unknown
  }

  /** Each known string selects its own branch, so no branch shadows
      another. */
  lemma KindOfName(k: ActionKind)
    requires k != Unknown
    ensures KindOf(VStr(ActionName(k))) == k
  {
  }

  /** The four actions of the shared pointer branch. */
  predicate IsPointerAction(k: ActionKind) {
    k == LeftClick || k == RightClick || k == DoubleClick || k == Hover
  }

  /** The actions that look up a Box ID when one is given. */
  predicate LooksUpBox(k: ActionKind) {
    k == MouseMove || IsPointerAction(k)
  }

  /** `x, y = v`: a two-element list, or a two-character string; every
      other value raises. */
  function Unpack2(v: Value): (r: Option<(Value, Value)>)
    ensures r.Some? <==> (v.VList? && |v.items| == 2) || (v.VStr? && |v.s| == 2)
    ensures r.Some? && v.VList? ==> v.items == [r.value.0, r.value.1]
    ensures r.Some? && v.VStr? ==>
      r.value.0.VStr? && r.value.1.VStr? && |r.value.0.s| == 1 && v.s == r.value.0.s + r.value.1.s
  {
    match v
    case VList(items) => if |items| == 2 then Some((items[0], items[1])) else None
    case VStr(s) => if |s| == 2 then Some((VStr([s[0]]), VStr([s[1]]))) else None
    case _ => None
  }

  /** `(x, y)` for a pixel. */
  function PixelText(p: Pixel): string {
    "(" + IntToDecimal(p.x) + ", " + IntToDecimal(p.y) + ")"
  }

  /** An error result: `Error: ` and the description. */
  function ErrorText(detail: string): (r: string)
    ensures |r| >= 7 && r[..7] == "Error: " && r[7..] == detail
  {
    "Error: " + detail
  }

  function NotFoundError(boxId: Value, other: Value -> string): string {
    ErrorText("Could not find element with Box ID '" + Str(boxId, other) + "'.")
  }

  function UnknownActionError(action: Value, other: Value -> string): string {
    ErrorText("Unknown action '" + Str(action, other) + "'.")
  }

  /** A record with the given result and message, after `events`. */
  function Done(action: Value, result: string, message: Option<string>, events: seq<Event>): Effect {
    Effect(Returned(ActionRecord(action, result, message, [])), events)
  }

  /** A record whose message repeats its result, as the error branches do. */
  function Fail(action: Value, error: string): Effect {
    Done(action, error, Some(error), [])
  }

  /** A result string as the source writes them: a success marker, the
      completion marker, or an `Error: ` description. */
  predicate IsResultText(result: string) {
    result == "Success" || result == "Task completed."
    || (|result| >= 7 && result[..7] == "Error: ")
  }

  /** The properties every branch keeps: at most one event, and an event
      only on success; an exception performs nothing; a record carries the
      action and an empty `previous_actions`; and the message is unset
      exactly when `unset` says so. */
  predicate Sound(e: Effect, action: Value, unset: bool) {
    |e.events| <= 1
    && (e.outcome.Raised? ==> e.events == [])
    && (e.outcome.Returned? ==>
          e.outcome.record.action == action && e.outcome.record.previousActions == []
          && IsResultText(e.outcome.record.result)
          && (e.outcome.record.message.None? <==> unset)
          && (e.events != [] ==> e.outcome.record.result == "Success"))
  }

  /** The `mouse_move` branch. */
  function MoveEffect(action: Value, boxId: Value, coordinates: Value, elements: seq<Dict>, host: Host): (e: Effect)
    ensures Sound(e, action, false)
    ensures e.outcome.Raised? <==>
      if boxId != VNone then CenterOf(boxId, elements, host.centre, host.screen, host.other).LookupRaised?
      else Truthy(coordinates) && Unpack2(coordinates).None?
    ensures boxId == VNone && Unpack2(coordinates).Some? ==>
      e.events == [MoveTo(Unpack2(coordinates).value.0, Unpack2(coordinates).value.1)]
      && e.outcome.Returned? && e.outcome.record.result == "Success"
    ensures boxId == VNone && !Truthy(coordinates) ==>
      e == Fail(action, ErrorText("No coordinates or Box ID provided."))
  {
    if boxId != VNone then
      match CenterOf(boxId, elements, host.centre, host.screen, host.other)
      case LookupRaised => Effect(Raised, [])
      case NotFound => Fail(action, NotFoundError(boxId, host.other))
      case Found(p) =>
        Done(action, "Success",
             Some("Moved mouse to element with Box ID " + Str(boxId, host.other)
                  + " at coordinates " + PixelText(p) + "."),
             [MoveTo(VInt(p.x), VInt(p.y))])
    else if Truthy(coordinates) then
      match Unpack2(coordinates)
      case None => Effect(Raised, [])
      case Some((x, y)) =>
        Done(action, "Success",
             Some("Moved mouse to coordinates (" + Str(x, host.other) + ", " + Str(y, host.other) + ")."),
             [MoveTo(x, y)])
    else
      Fail(action, ErrorText("No coordinates or Box ID provided."))
  }

  /** A pointer action on the element found at `p`. */
  function OnElement(kind: ActionKind, action: Value, box: string, p: Pixel): (e: Effect)
    requires IsPointerAction(kind)
    ensures Sound(e, action, false) && e.events != []
  {
    if kind == LeftClick then
      Done(action, "Success", Some("Left-clicked on element with Box ID " + box + " at " + PixelText(p) + "."),
           [ClickAt(Some(p))])
    else if kind == RightClick then
      Done(action, "Success", Some("Right-clicked on element with Box ID " + box + " at " + PixelText(p) + "."),
           [RightClickAt(Some(p))])
    else if kind == DoubleClick then
      Done(action, "Success", Some("Double-clicked on element with Box ID " + box + " at " + PixelText(p) + "."),
           [DoubleClickAt(Some(p))])
    else
      Done(action, "Success", Some("Hovered over element with Box ID " + box + " at " + PixelText(p) + "."),
           [MoveTo(VInt(p.x), VInt(p.y))])
  }

  /** A pointer action without a Box ID: at the current position, and
      nothing at all for `hover`. */
  function InPlace(kind: ActionKind, action: Value): (e: Effect)
    requires IsPointerAction(kind)
    ensures Sound(e, action, kind == Hover)
    ensures e.outcome.Returned? && e.outcome.record.result == "Success"
    ensures e.events == if kind == LeftClick then [ClickAt(None)]
                        else if kind == RightClick then [RightClickAt(None)]
                        else if kind == DoubleClick then [DoubleClickAt(None)]
                        else []
  {
    if kind == LeftClick then
      Done(action, "Success", Some("Left-clicked at the current mouse position."), [ClickAt(None)])
    else if kind == RightClick then
      Done(action, "Success", Some("Right-clicked at the current mouse position."), [RightClickAt(None)])
    else if kind == DoubleClick then
      Done(action, "Success", Some("Double-clicked at the current mouse position."), [DoubleClickAt(None)])
    else
      Done(action, "Success", None, [])
  }

  /** The shared branch of the four pointer actions. */
  function PointerEffect(kind: ActionKind, action: Value, boxId: Value, elements: seq<Dict>, host: Host): (e: Effect)
    requires IsPointerAction(kind)
    ensures Sound(e, action, kind == Hover && boxId == VNone)
    ensures e.outcome.Raised? <==>
      boxId != VNone && CenterOf(boxId, elements, host.centre, host.screen, host.other).LookupRaised?
  {
    if boxId != VNone then
      match CenterOf(boxId, elements, host.centre, host.screen, host.other)
      case LookupRaised => Effect(Raised, [])
      case NotFound => Fail(action, NotFoundError(boxId, host.other))
      case Found(p) => OnElement(kind, action, Str(boxId, host.other), p)
    else
      InPlace(kind, action)
  }

  /** Every branch but `mouse_move`: none of them reads `coordinate`. */
  function Act(kind: ActionKind, action: Value, boxId: Value, value: Value, elements: seq<Dict>, host: Host)
    : (e: Effect)
    requires kind != MouseMove
    ensures Sound(e, action, kind == Hover && boxId == VNone)
    ensures e.outcome.Raised? <==>
      IsPointerAction(kind) && boxId != VNone
      && CenterOf(boxId, elements, host.centre, host.screen, host.other).LookupRaised?
    ensures (kind == TypeText || kind == PressKey) && Truthy(value) ==>
      e.events == [if kind == TypeText then Write(value) else Press(value)]
      && e.outcome.Returned? && e.outcome.record.result == "Success"
  {
    if IsPointerAction(kind) then
      PointerEffect(kind, action, boxId, elements, host)
    else if kind == TypeText then
      if Truthy(value) then
        Done(action, "Success", Some("Typed the text: '" + Str(value, host.other) + "'."), [Write(value)])
      else
        Fail(action, ErrorText("No text to type."))
    else if kind == PressKey then
      if Truthy(value) then
        Done(action, "Success", Some("Pressed the key: '" + Str(value, host.other) + "'."), [Press(value)])
      else
        Fail(action, ErrorText("No key specified."))
    else if kind == Screenshot then
      Done(action, "Success", Some("Took a screenshot."), [Capture])
    else if kind == ScrollUp then
      Done(action, "Success", Some("Scrolled up."), [Scroll(20)])
    else if kind == ScrollDown then
      Done(action, "Success", Some("Scrolled down."), [Scroll(-20)])
    else if kind == Wait then
      Done(action, "Success", Some("Waited for 2 seconds."), [Sleep(2)])
    else if kind == Complete then
      Done(action, "Task completed.", Some("The task was marked as completed."), [])
    else
      Fail(action, UnknownActionError(action, host.other))
  }

  /** The branch of `execute_action` for a decoded dictionary. */
  function Dispatch(d: Dict, elements: seq<Dict>, host: Host): (e: Effect)
    ensures Sound(e, Get(d, "Next Action"),
                  KindOf(Get(d, "Next Action")) == Hover && Get(d, "Box ID") == VNone)
    ensures var kind, boxId, xy := KindOf(Get(d, "Next Action")), Get(d, "Box ID"), Get(d, "coordinate");
      e.outcome.Raised? <==>
        (LooksUpBox(kind) && boxId != VNone
         && CenterOf(boxId, elements, host.centre, host.screen, host.other).LookupRaised?)
        || (kind == MouseMove && boxId == VNone && Truthy(xy) && Unpack2(xy).None?)
  {
    var action := Get(d, "Next Action");
    var kind := KindOf(action);
    if kind == MouseMove then
      MoveEffect(action, Get(d, "Box ID"), Get(d, "coordinate"), elements, host)
    else
      Act(kind, action, Get(d, "Box ID"), Get(d, "value"), elements, host)
  }

  /** What `execute_action` does with a reply: decode, then dispatch.
      A decoded value that is not a dictionary has no `.get`, so the call
      raises. */
  function Execute(response: string, elements: seq<Dict>, host: Host): (e: Effect)
    ensures |e.events| <= 1
    ensures Decode(response, host.loads).None? ==> e == Effect(Returned(InvalidJson), [])
    ensures Decode(response, host.loads).Some? && !Decode(response, host.loads).value.VDict? ==>
      e == Effect(Raised, [])
  {
    match Decode(response, host.loads)
    case None => Effect(Returned(InvalidJson), [])
    case Some(v) => if v.VDict? then Dispatch(v.m, elements, host) else Effect(Raised, [])
  }

  // -------------------------------------------------------------- properties

  /** A reply that decodes as a whole is used as it is; the brace fallback
      is never consulted. */
  lemma DirectDecodeWins(response: string, d: Dict, elements: seq<Dict>, host: Host)
    requires host.loads(response) == Decoded(VDict(d))
    ensures Execute(response, elements, host) == Dispatch(d, elements, host)
  {
  }

  /** The scan from `i` reports `a` first when `a` starts a match and no
      brace lies between. */
  lemma {:induction false} FirstMatchAfterProse(s: string, i: nat, a: nat)
    requires i <= a && MatchesAt(s, a)
    requires forall k :: i <= k < a ==> !IsBrace(s[k])
    ensures MatchStarts(s, i) != [] && MatchStarts(s, i)[0] == a
    decreases a - i
  {
    if i < a {
      FirstMatchAfterProse(s, i + 1, a);
    }
  }

  /** Prose without braces before a flat object, with anything after it: if
      the whole reply does not decode, the object is the first candidate, so
      it is the value used whenever it decodes. */
  lemma ObjectAfterProseDecoded(prose: string, obj: string, tail: string, loads: JsonLoads)
    requires forall k :: 0 <= k < |prose| ==> !IsBrace(prose[k])
    requires IsFlat(obj)
    requires loads(prose + obj + tail).DecodeError? && loads(obj).Decoded?
    ensures Decode(prose + obj + tail, loads) == Some(loads(obj).value)
  {
    var s := prose + obj + tail;
    var a, b := |prose|, |prose| + |obj| - 1;
    assert forall j :: a <= j <= b ==> s[j] == obj[j - a];
    NextBraceIs(s, a + 1, b);
    forall k | 0 <= k < a ensures !IsBrace(s[k]) {
      assert s[k] == prose[k];
    }
    FirstMatchAfterProse(s, 0, a);
    assert s[a..b + 1] == obj;
    assert FindAll(s)[0] == obj;
  }

  /** With a Box ID that no element carries, the pointer actions perform
      nothing and report the missing id as both result and message. */
  lemma BoxNotFoundNoInput(d: Dict, elements: seq<Dict>, host: Host)
    requires LooksUpBox(KindOf(Get(d, "Next Action"))) && Get(d, "Box ID") != VNone
    requires CenterOf(Get(d, "Box ID"), elements, host.centre, host.screen, host.other).NotFound?
    ensures var e := Dispatch(d, elements, host);
      e.events == [] && e.outcome.Returned?
      && e.outcome.record.result == NotFoundError(Get(d, "Box ID"), host.other)
      && e.outcome.record.message == Some(e.outcome.record.result)
  {
  }

  /** A found element is acted on at its centre. */
  lemma ClickAtCentre(d: Dict, elements: seq<Dict>, host: Host, p: Pixel)
    requires Get(d, "Box ID") != VNone
    requires CenterOf(Get(d, "Box ID"), elements, host.centre, host.screen, host.other) == Found(p)
    ensures var e, kind := Dispatch(d, elements, host), KindOf(Get(d, "Next Action"));
      (kind == LeftClick ==> e.events == [ClickAt(Some(p))])
      && (kind == RightClick ==> e.events == [RightClickAt(Some(p))])
      && (kind == DoubleClick ==> e.events == [DoubleClickAt(Some(p))])
      && (kind == Hover || kind == MouseMove ==> e.events == [MoveTo(VInt(p.x), VInt(p.y))])
  {
  }

  /** A found element is reported with a success message naming the Box ID
      and the pixel it was acted on. */
  lemma FoundElementMessage(d: Dict, elements: seq<Dict>, host: Host, p: Pixel)
    requires Get(d, "Box ID") != VNone
    requires CenterOf(Get(d, "Box ID"), elements, host.centre, host.screen, host.other) == Found(p)
    requires LooksUpBox(KindOf(Get(d, "Next Action")))
    ensures var e, kind := Dispatch(d, elements, host), KindOf(Get(d, "Next Action"));
      var m, box, at := e.outcome.record.message, Str(Get(d, "Box ID"), host.other), PixelText(p);
      e.outcome.Returned? && e.outcome.record.result == "Success"
      && (kind == MouseMove ==> m == Some("Moved mouse to element with Box ID " + box + " at coordinates " + at + "."))
      && (kind == LeftClick ==> m == Some("Left-clicked on element with Box ID " + box + " at " + at + "."))
      && (kind == RightClick ==> m == Some("Right-clicked on element with Box ID " + box + " at " + at + "."))
      && (kind == DoubleClick ==> m == Some("Double-clicked on element with Box ID " + box + " at " + at + "."))
      && (kind == Hover ==> m == Some("Hovered over element with Box ID " + box + " at " + at + "."))
  {
  }

  /** Only `mouse_move` without a Box ID reads `coordinate`: for every other
      request its value makes no difference. */
  lemma CoordinateOnlyForMouseMove(d: Dict, elements: seq<Dict>, host: Host, v: Value)
    requires !(Get(d, "Next Action") == VStr("mouse_move") && Get(d, "Box ID") == VNone)
    ensures Dispatch(d["coordinate" := v], elements, host) == Dispatch(d, elements, host)
  {
    var d' := d["coordinate" := v];
    var action, boxId := Get(d, "Next Action"), Get(d, "Box ID");
    assert Get(d', "Next Action") == action && Get(d', "Box ID") == boxId;
    assert Get(d', "value") == Get(d, "value");
    if KindOf(action) == MouseMove {
      assert boxId != VNone;
      assert MoveEffect(action, boxId, v, elements, host) == MoveEffect(action, boxId, Get(d, "coordinate"), elements, host);
    }
  }

  /** `type` and `key` with a missing or empty value are errors that
      perform nothing. */
  lemma EmptyValueRefused(d: Dict, elements: seq<Dict>, host: Host)
    requires Get(d, "Next Action") == VStr("type") || Get(d, "Next Action") == VStr("key")
    requires !Truthy(Get(d, "value"))
    ensures var e := Dispatch(d, elements, host);
      e.events == [] && e.outcome.Returned? && e.outcome.record.result[..7] == "Error: "
      && e.outcome.record.message == Some(e.outcome.record.result)
  {
  }

  /** The fixed-size actions perform exactly their one call. */
  lemma FixedActions(d: Dict, elements: seq<Dict>, host: Host)
    ensures var e, kind := Dispatch(d, elements, host), KindOf(Get(d, "Next Action"));
      (kind == ScrollUp ==> e.events == [Scroll(20)])
      && (kind == ScrollDown ==> e.events == [Scroll(-20)])
      && (kind == Wait ==> e.events == [Sleep(2)])
      && (kind == Screenshot ==> e.events == [Capture])
  {
  }

  /** The string "None" completes the task without input. */
  lemma NoneCompletes(d: Dict, elements: seq<Dict>, host: Host)
    requires Get(d, "Next Action") == VStr("None")
    ensures Dispatch(d, elements, host)
      == Done(VStr("None"), "Task completed.", Some("The task was marked as completed."), [])
  {
  }

  /** A request without `Next Action` is an unknown action named "None". */
  lemma MissingActionUnknown(d: Dict, elements: seq<Dict>, host: Host)
    requires "Next Action" !in d
    ensures var e := Dispatch(d, elements, host);
      e.events == [] && e.outcome.Returned? && e.outcome.record.action == VNone
      && e.outcome.record.result == "Error: " + ("Unknown action '" + "None" + "'.")
      && e.outcome.record.message == Some(e.outcome.record.result)
  {
    assert KindOf(VNone) == Unknown;
    assert Str(VNone, host.other) == "None";
  }

  /** `hover` without a Box ID succeeds, performs nothing and leaves the
      message unset. */
  lemma HoverWithoutBox(d: Dict, elements: seq<Dict>, host: Host)
    requires Get(d, "Next Action") == VStr("hover") && Get(d, "Box ID") == VNone
    ensures Dispatch(d, elements, host) == Done(VStr("hover"), "Success", None, [])
  {
  }

  /** `mouse_move` without a Box ID moves to the unpacked coordinate. */
  lemma MoveToCoordinate(d: Dict, elements: seq<Dict>, host: Host, x: Value, y: Value)
    requires Get(d, "Next Action") == VStr("mouse_move") && Get(d, "Box ID") == VNone
    requires Unpack2(Get(d, "coordinate")) == Some((x, y))
    ensures var e := Dispatch(d, elements, host);
      e.events == [MoveTo(x, y)] && e.outcome.Returned? && e.outcome.record.result == "Success"
      && e.outcome.record.message
         == Some("Moved mouse to coordinates (" + Str(x, host.other) + ", " + Str(y, host.other) + ").")
  {
  }

  /** `mouse_move` with neither a Box ID nor a coordinate is an error that
      performs nothing. */
  lemma MoveWithoutTarget(d: Dict, elements: seq<Dict>, host: Host)
    requires Get(d, "Next Action") == VStr("mouse_move") && Get(d, "Box ID") == VNone
    requires !Truthy(Get(d, "coordinate"))
    ensures var e := Dispatch(d, elements, host);
      e.events == [] && e.outcome.Returned?
      && e.outcome.record.result == "Error: " + "No coordinates or Box ID provided."
      && e.outcome.record.message == Some(e.outcome.record.result)
  {
  }

  /** The three clicks without a Box ID click at the current position and
      succeed. */
  lemma ClickInPlace(d: Dict, elements: seq<Dict>, host: Host)
    requires Get(d, "Box ID") == VNone
    ensures var e, kind := Dispatch(d, elements, host), KindOf(Get(d, "Next Action"));
      (kind == LeftClick || kind == RightClick || kind == DoubleClick ==>
         e.outcome.Returned? && e.outcome.record.result == "Success" && e.outcome.record.message.Some?)
      && (kind == LeftClick ==> e.events == [ClickAt(None)])
      && (kind == RightClick ==> e.events == [RightClickAt(None)])
      && (kind == DoubleClick ==> e.events == [DoubleClickAt(None)])
  {
  }

  /** `type` with a value writes it and reports it in the message. */
  lemma TypeWrites(d: Dict, elements: seq<Dict>, host: Host)
    requires Get(d, "Next Action") == VStr("type") && Truthy(Get(d, "value"))
    ensures var e, v := Dispatch(d, elements, host), Get(d, "value");
      e.events == [Write(v)] && e.outcome.Returned? && e.outcome.record.result == "Success"
      && e.outcome.record.message == Some("Typed the text: '" + Str(v, host.other) + "'.")
  {
  }

  /** `key` with a value presses it and reports it in the message. */
  lemma KeyPresses(d: Dict, elements: seq<Dict>, host: Host)
    requires Get(d, "Next Action") == VStr("key") && Truthy(Get(d, "value"))
    ensures var e, v := Dispatch(d, elements, host), Get(d, "value");
      e.events == [Press(v)] && e.outcome.Returned? && e.outcome.record.result == "Success"
      && e.outcome.record.message == Some("Pressed the key: '" + Str(v, host.other) + "'.")
  {
  }

  // ------------------------------------------------------------- the desktop

  /** The simulated desktop: it records every input call in order. */
  class Desktop {
    var trace: seq<Event>

    constructor ()
      ensures trace == []
    {
      trace := [];
    }

    /** Perform one input call. */
    method Perform(e: Event)
      modifies this
      ensures trace == old(trace) + [e]
    {
      trace := trace + [e];
    }
  }

  /** `execute_action`, filling the record key by key across the branches
      and performing the input calls on `desktop`. */
  method ExecuteAction(response: string, elements: seq<Dict>, host: Host, desktop: Desktop)
    returns (out: Outcome)
    modifies desktop
    ensures out == Execute(response, elements, host).outcome
    ensures desktop.trace == old(desktop.trace) + Execute(response, elements, host).events
  {
    var decoded := DecodeResponse(response, host.loads);
    if decoded.None? {
      return Returned(InvalidJson);
    }
    if !decoded.value.VDict? {
      return Raised;
    }
    var responseJson := decoded.value.m;
    out := DispatchAction(responseJson, elements, host, desktop);
  }

  /** The `mouse_move` branch of `execute_action`. */
  method MoveMouse(action: Value, boxId: Value, coordinates: Value, elements: seq<Dict>, host: Host,
                   desktop: Desktop) returns (out: Outcome)
    modifies desktop
    ensures out == MoveEffect(action, boxId, coordinates, elements, host).outcome
    ensures desktop.trace == old(desktop.trace) + MoveEffect(action, boxId, coordinates, elements, host).events
  {
    var result: string;
    var message: string;
    if boxId != VNone {
      var coords := GetElementCenter(boxId, elements, host.centre, host.screen, host.other);
      if coords.LookupRaised? {
        return Raised;
      }
      if coords.Found? {
        var p := coords.at;
        desktop.Perform(MoveTo(VInt(p.x), VInt(p.y)));
        result := "Success";
        message := "Moved mouse to element with Box ID " + Str(boxId, host.other)
                   + " at coordinates " + PixelText(p) + ".";
      } else {
        result := NotFoundError(boxId, host.other);
        message := result;
      }
    } else if Truthy(coordinates) {
      var xy := Unpack2(coordinates);
      if xy.None? {
        return Raised;
      }
      var (x, y) := xy.value;
      desktop.Perform(MoveTo(x, y));
      result := "Success";
      message := "Moved mouse to coordinates (" + Str(x, host.other) + ", " + Str(y, host.other) + ").";
    } else {
      result := ErrorText("No coordinates or Box ID provided.");
      message := result;
    }
    out := Returned(ActionRecord(action, result, Some(message), []));
  }

  /** The shared branch of `left_click`, `right_click`, `double_click` and
      `hover`. */
  method PointerAction(kind: ActionKind, action: Value, boxId: Value, elements: seq<Dict>, host: Host,
                       desktop: Desktop) returns (out: Outcome)
    requires IsPointerAction(kind)
    modifies desktop
    ensures out == PointerEffect(kind, action, boxId, elements, host).outcome
    ensures desktop.trace == old(desktop.trace) + PointerEffect(kind, action, boxId, elements, host).events
  {
    if boxId != VNone {
      var coords := GetElementCenter(boxId, elements, host.centre, host.screen, host.other);
      if coords.LookupRaised? {
        return Raised;
      }
      if coords.Found? {
        out := ActOnElement(kind, action, Str(boxId, host.other), coords.at, desktop);
      } else {
        var result := NotFoundError(boxId, host.other);
        out := Returned(ActionRecord(action, result, Some(result), []));
      }
    } else {
      out := ActInPlace(kind, action, desktop);
    }
  }

  /** The pointer call on a found element, and its message. */
  method ActOnElement(kind: ActionKind, action: Value, box: string, p: Pixel, desktop: Desktop)
    returns (out: Outcome)
    requires IsPointerAction(kind)
    modifies desktop
    ensures out == OnElement(kind, action, box, p).outcome
    ensures desktop.trace == old(desktop.trace) + OnElement(kind, action, box, p).events
  {
    var message: string;
    if kind == LeftClick {
      desktop.Perform(ClickAt(Some(p)));
      message := "Left-clicked on element with Box ID " + box + " at " + PixelText(p) + ".";
    } else if kind == RightClick {
      desktop.Perform(RightClickAt(Some(p)));
      message := "Right-clicked on element with Box ID " + box + " at " + PixelText(p) + ".";
    } else if kind == DoubleClick {
      desktop.Perform(DoubleClickAt(Some(p)));
      message := "Double-clicked on element with Box ID " + box + " at " + PixelText(p) + ".";
    } else {
      desktop.Perform(MoveTo(VInt(p.x), VInt(p.y)));
      message := "Hovered over element with Box ID " + box + " at " + PixelText(p) + ".";
    }
    out := Returned(ActionRecord(action, "Success", Some(message), []));
  }

  /** The pointer call at the current position; `hover` performs none and
      sets no message. */
  method ActInPlace(kind: ActionKind, action: Value, desktop: Desktop) returns (out: Outcome)
    requires IsPointerAction(kind)
    modifies desktop
    ensures out == InPlace(kind, action).outcome
    ensures desktop.trace == old(desktop.trace) + InPlace(kind, action).events
  {
    var message: Option<string> := None;
    if kind == LeftClick {
      desktop.Perform(ClickAt(None));
      message := Some("Left-clicked at the current mouse position.");
    } else if kind == RightClick {
      desktop.Perform(RightClickAt(None));
      message := Some("Right-clicked at the current mouse position.");
    } else if kind == DoubleClick {
      desktop.Perform(DoubleClickAt(None));
      message := Some("Double-clicked at the current mouse position.");
    }
    out := Returned(ActionRecord(action, "Success", message, []));
  }

  /** The dispatch part of `execute_action` on a decoded dictionary: the
      record is filled key by key across the branches. */
  method DispatchAction(responseJson: Dict, elements: seq<Dict>, host: Host, desktop: Desktop)
    returns (out: Outcome)
    modifies desktop
    ensures out == Dispatch(responseJson, elements, host).outcome
    ensures desktop.trace == old(desktop.trace) + Dispatch(responseJson, elements, host).events
  {
    var action := Get(responseJson, "Next Action");
    var boxId := Get(responseJson, "Box ID");
    var kind := KindOf(action);
    if kind == MouseMove {
      out := MoveMouse(action, boxId, Get(responseJson, "coordinate"), elements, host, desktop);
      return;
    }
    if IsPointerAction(kind) {
      out := PointerAction(kind, action, boxId, elements, host, desktop);
      return;
    }
    var result: string;
    var message: string;
    if kind == TypeText {
      var text := Get(responseJson, "value");
      if Truthy(text) {
        desktop.Perform(Write(text));
        result := "Success";
        message := "Typed the text: '" + Str(text, host.other) + "'.";
      } else {
        result := ErrorText("No text to type.");
        message := result;
      }
    } else if kind == PressKey {
      var keyName := Get(responseJson, "value");
      if Truthy(keyName) {
        desktop.Perform(Press(keyName));
        result := "Success";
        message := "Pressed the key: '" + Str(keyName, host.other) + "'.";
      } else {
        result := ErrorText("No key specified.");
        message := result;
      }
    } else if kind == Screenshot {
      desktop.Perform(Capture);
      result := "Success";
      message := "Took a screenshot.";
    } else if kind == ScrollUp {
      desktop.Perform(Scroll(20));
      result := "Success";
      message := "Scrolled up.";
    } else if kind == ScrollDown {
      desktop.Perform(Scroll(-20));
      result := "Success";
      message := "Scrolled down.";
    } else if kind == Wait {
      desktop.Perform(Sleep(2));
      result := "Success";
      message := "Waited for 2 seconds.";
    } else if kind == Complete {
      result := "Task completed.";
      message := "The task was marked as completed.";
    } else {
      result := UnknownActionError(action, host.other);
      message := result;
    }
    out := Returned(ActionRecord(action, result, Some(message), []));
  }
}
