/** `get_element_center`: the first element, in list order, whose `id` is
    `"icon " + str(box_id)`, and the centre of its bounding box in pixels. */
module ElementLookup {
  import opened Values

  /** A pixel position on the screen. */
  datatype Pixel = Pixel(x: int, y: int)

  /** The screen resolution, as `pyautogui.size()` reports it. */
  datatype Screen = Screen(width: int, height: int)

  /** The centre computation: unpack `bbox` into four numbers, take the
      midpoints, scale by the screen size and truncate to int. `None` means
      the unpacking or the arithmetic raised. */
  type Centre = (Value, Screen) -> Option<Pixel>

  /** The outcome of a lookup: the centre, "not found" (None in the source),
      or an exception (a missing `id` or `bbox` key, a malformed bbox). */
  datatype Lookup = Found(at: Pixel) | NotFound | LookupRaised

  /** The `id` that `box_id` names. */
  function IconLabel(boxId: Value, other: Value -> string): string {
    "icon " + Str(boxId, other)
  }

  /** The element's `id` is exactly `target`. */
  predicate HasId(e: Dict, target: string) {
    "id" in e && e["id"] == VStr(target)
  }

  /** Where the loop stops: the first element that lacks `id` or whose `id`
      is `target`, or the length of the list when there is none. */
  function FirstStop(elements: seq<Dict>, target: string): (k: nat)
    ensures k <= |elements|
    ensures forall j :: 0 <= j < k ==> "id" in elements[j] && !HasId(elements[j], target)
    ensures k < |elements| ==> "id" !in elements[k] || HasId(elements[k], target)
    decreases |elements|
  {
    if elements == [] then 0
    else if "id" !in elements[0] || HasId(elements[0], target) then 0
    else 1 + FirstStop(elements[1..], target)
  }

  /** What `get_element_center` returns, as a function. It finds an element
      only at the first element whose `id` is the label, and reports "not
      found" exactly when every element has an `id` and none is the label. */
  function CenterOf(boxId: Value, elements: seq<Dict>, centre: Centre, screen: Screen,
                    other: Value -> string): (r: Lookup)
    ensures var target := IconLabel(boxId, other);
      r.NotFound? <==> forall j :: 0 <= j < |elements| ==> "id" in elements[j] && !HasId(elements[j], target)
    ensures var target, k := IconLabel(boxId, other), FirstStop(elements, IconLabel(boxId, other));
      r.Found? ==> k < |elements| && HasId(elements[k], target) && "bbox" in elements[k]
                   && centre(elements[k]["bbox"], screen) == Some(r.at)
  {
    var target := IconLabel(boxId, other);
    var k := FirstStop(elements, target);
    if k == |elements| then NotFound
    else if "id" !in elements[k] || "bbox" !in elements[k] then LookupRaised
    else
      match centre(elements[k]["bbox"], screen)
      case None => LookupRaised
      case Some(p) => Found(p)
  }

  /** The loop of `get_element_center`, returning at the first match. */
  method GetElementCenter(boxId: Value, elements: seq<Dict>, centre: Centre, screen: Screen,
                          other: Value -> string) returns (r: Lookup)
    ensures r == CenterOf(boxId, elements, centre, screen, other)
    ensures r.Found? ==> exists k :: 0 <= k < |elements| && HasId(elements[k], IconLabel(boxId, other))
  {
    var target := IconLabel(boxId, other);
    for i := 0 to |elements|
      invariant forall j :: 0 <= j < i ==> "id" in elements[j] && !HasId(elements[j], target)
    {
      var element := elements[i];
      if "id" !in element {
        assert FirstStop(elements, target) == i by { FirstStopIs(elements, target, i); }
        return LookupRaised;
      }
      if element["id"] == VStr(target) {
        assert FirstStop(elements, target) == i by { FirstStopIs(elements, target, i); }
        if "bbox" !in element {
          return LookupRaised;
        }
        var p := centre(element["bbox"], screen);
        if p.None? {
          return LookupRaised;
        }
        return Found(p.value);
      }
    }
    return NotFound;
  }

  /** The stopping point is determined by the two conditions on it. */
  lemma {:induction false} FirstStopIs(elements: seq<Dict>, target: string, i: nat)
    requires i < |elements|
    requires forall j :: 0 <= j < i ==> "id" in elements[j] && !HasId(elements[j], target)
    requires "id" !in elements[i] || HasId(elements[i], target)
    ensures FirstStop(elements, target) == i
    decreases i
  {
    if i > 0 {
      assert forall j :: 0 <= j < i - 1 ==> elements[1..][j] == elements[j + 1];
      FirstStopIs(elements[1..], target, i - 1);
    }
  }

  /** An element earlier in the list wins over every later one with the
      same label. */
  lemma FirstMatchWins(boxId: Value, elements: seq<Dict>, centre: Centre, screen: Screen,
                       other: Value -> string, i: nat)
    requires i < |elements| && HasId(elements[i], IconLabel(boxId, other)) && "bbox" in elements[i]
    requires forall j :: 0 <= j < i ==> "id" in elements[j] && !HasId(elements[j], IconLabel(boxId, other))
    ensures CenterOf(boxId, elements, centre, screen, other) ==
      match centre(elements[i]["bbox"], screen)
      case None => LookupRaised
      case Some(p) => Found(p)
  {
    FirstStopIs(elements, IconLabel(boxId, other), i);
  }

  /** Box ids 3 and 13 never select each other's element: distinct ints
      give distinct labels. */
  lemma IntLabelsDistinct(a: int, b: int, other: Value -> string)
    requires a != b
    ensures IconLabel(VInt(a), other) != IconLabel(VInt(b), other)
  {
    IntToDecimalInjective(a, b);
    var la, lb := IconLabel(VInt(a), other), IconLabel(VInt(b), other);
    assert la[5..] == IntToDecimal(a);
    assert lb[5..] == IntToDecimal(b);
  }
}
