/** One iteration of the agent's main loop: take a screenshot, detect the
    screen's elements, ask the vision-language model for the next action
    with the messages of the recent actions, perform it, and keep the last
    five action records. */
module Agent {
  import opened Values
  import opened OmniParser
  import opened Actions

  /** The fixed request the loop sends every time. */
  const UserQuery: string := "Open Chrome and search google stock price"

  /** How many action records the loop keeps. */
  const HistoryCap: nat := 5

  /** What the model is asked: the query, the detected elements, the
      messages of the kept records (oldest first) and the screenshot (the
      image is the encoded file at that path). */
  datatype Request = Request(query: string, elements: seq<Dict>, previous: seq<string>, screenshot: string)

  /** The outside world during one iteration: the screenshot call, the
      detector call on the screenshot's path, and the model call. `None`
      stands for a falsy return. */
  datatype World = World(shot: Option<string>, detect: string -> Option<string>,
                         vlm: Request -> Option<string>)

  /** How an iteration ends: one of the three `continue`s, an exception
      escaping the loop, or a performed action. */
  datatype Step =
    | NoScreenshot
    | NoDetection
    | PromptKeyError            // a kept record has no 'message'; the loop ends
    | NoReply(request: Request)
    | ActionRaised(request: Request)
    | Executed(request: Request, record: ActionRecord)

  /** The last `n` elements (`s[-n:]` for `n > 0`), or all of them when
      there are fewer. */
  function LastN<T>(s: seq<T>, n: nat): (r: seq<T>)
    ensures |r| == if |s| < n then |s| else n
    ensures r == s[|s| - |r|..]
  {
    if |s| <= n then s else s[|s| - n..]
  }

  /** `[r['message'] for r in history]`: `None` when some record has no
      message (the comprehension raises `KeyError`), otherwise the messages
      one for one and in order. */
  function PromptMessages(history: seq<ActionRecord>): (r: Option<seq<string>>)
    ensures r.Some? <==> forall k :: 0 <= k < |history| ==> history[k].message.Some?
    ensures r.Some? ==> |r.value| == |history|
                        && forall k :: 0 <= k < |history| ==> r.value[k] == history[k].message.value
    decreases |history|
  {
    if history == [] then Some([])
    else
      match history[|history| - 1].message
      case None => None
      case Some(m) =>
        match PromptMessages(history[..|history| - 1])
        case None => None
        case Some(ms) => Some(ms + [m])
  }

  /** An iteration up to the call of `execute_action`: either it has
      already ended, or it reaches the call with this request and reply. */
  datatype Stage = Ended(step: Step) | Reaches(request: Request, reply: string)

  function Prepare(history: seq<ActionRecord>, world: World, eval: LiteralEval): (r: Stage)
    ensures r == Ended(NoScreenshot) <==> world.shot.None? || world.shot == Some("")
    ensures r == Ended(NoDetection) <==>
      world.shot.Some? && world.shot.value != "" && world.detect(world.shot.value).None?
    ensures r.Ended? ==> !r.step.Executed? && !r.step.ActionRaised?
    ensures world.shot.Some? && world.shot.value != "" && world.detect(world.shot.value).Some? ==>
      (r == Ended(PromptKeyError) <==> PromptMessages(history).None?)
    ensures world.shot.Some? && world.shot.value != "" && world.detect(world.shot.value).Some?
            && PromptMessages(history).Some? ==>
      var rq := Request(UserQuery, Parse(world.detect(world.shot.value).value, eval),
                        PromptMessages(history).value, world.shot.value);
      (r == Ended(NoReply(rq)) <==> world.vlm(rq).None? || world.vlm(rq) == Some(""))
      && (r.Reaches? <==> world.vlm(rq).Some? && world.vlm(rq).value != "")
    ensures r.Reaches? ==>
      world.shot == Some(r.request.screenshot) && r.request.screenshot != ""
      && world.detect(r.request.screenshot).Some? && PromptMessages(history).Some?
      && r.request == Request(UserQuery, Parse(world.detect(r.request.screenshot).value, eval),
                              PromptMessages(history).value, r.request.screenshot)
      && world.vlm(r.request) == Some(r.reply) && r.reply != ""
  {
    match world.shot
    case None => Ended(NoScreenshot)
    case Some(path) =>
      if path == "" then Ended(NoScreenshot)
      else
        match world.detect(path)
        case None => Ended(NoDetection)
        case Some(raw) =>
          match PromptMessages(history)
          case None => Ended(PromptKeyError)
          case Some(previous) =>
            var request := Request(UserQuery, Parse(raw, eval), previous, path);
            match world.vlm(request)
            case None => Ended(NoReply(request))
            case Some(reply) => if reply == "" then Ended(NoReply(request)) else Reaches(request, reply)
  }

  /** How the iteration ends. */
  function Iterate(history: seq<ActionRecord>, world: World, eval: LiteralEval, host: Host): (s: Step)
    ensures s.Executed? ==> s.record.previousActions == []
    ensures s.Executed? ==> PromptMessages(history).Some? && s.request.previous == PromptMessages(history).value
  {
    match Prepare(history, world, eval)
    case Ended(s) => s
    case Reaches(request, reply) =>
      match Execute(reply, request.elements, host).outcome
      case Raised => ActionRaised(request)
      case Returned(record) => Executed(request, record)
  }

  /** The input events the iteration performs. */
  function IterationEvents(history: seq<ActionRecord>, world: World, eval: LiteralEval, host: Host): (es: seq<Event>)
    ensures |es| <= 1
    ensures !Iterate(history, world, eval, host).Executed? ==> es == []
  {
    match Prepare(history, world, eval)
    case Ended(_) => []
    case Reaches(request, reply) => Execute(reply, request.elements, host).events
  }

  /** The history after an iteration that ended with `step`. */
  function NextHistory(history: seq<ActionRecord>, step: Step): seq<ActionRecord> {
    if step.Executed? then LastN(history + [step.record], HistoryCap) else history
  }

  /** The agent's loop state. `log` is every record ever appended; the
      history is always its last five. */
  class AgentLoop {
    var history: seq<ActionRecord>
    ghost var log: seq<ActionRecord>

    ghost predicate Valid()
      reads this
    {
      history == LastN(log, HistoryCap)
    }

    constructor ()
      ensures Valid() && history == [] && log == []
    {
      history := [];
      log := [];
    }

    /** One pass of the loop body; each `continue` is an early return. */
    method Step(world: World, eval: LiteralEval, host: Host, desktop: Desktop) returns (step: Step)
      requires Valid()
      modifies this, desktop
      ensures Valid()
      ensures step == Iterate(old(history), world, eval, host)
      ensures history == NextHistory(old(history), step)
      ensures log == if step.Executed? then old(log) + [step.record] else old(log)
      ensures desktop.trace == old(desktop.trace) + IterationEvents(old(history), world, eval, host)
    {
      var userQuery := UserQuery;
      var screenshotPath := world.shot;
      if screenshotPath.None? || screenshotPath.value == "" {
        return NoScreenshot;
      }
      var omniResult := world.detect(screenshotPath.value);
      if omniResult.None? {
        return NoDetection;
      }
      var parsedOmniOutput := ParseOmniParserOutput(omniResult.value, eval);
      var previousActionsForPrompt := PromptMessages(history);
      if previousActionsForPrompt.None? {
        return PromptKeyError;
      }
      var request := Request(userQuery, parsedOmniOutput, previousActionsForPrompt.value, screenshotPath.value);
      var vlmResponse := world.vlm(request);
      if vlmResponse.None? || vlmResponse.value == "" {
        return NoReply(request);
      }
      var actionResult := ExecuteAction(vlmResponse.value, parsedOmniOutput, host, desktop);
      if actionResult.Raised? {
        return ActionRaised(request);
      }
      LastNSnoc(log, actionResult.record, HistoryCap);
      history := history + [actionResult.record];
      history := LastN(history, HistoryCap);
      log := log + [actionResult.record];
      step := Executed(request, actionResult.record);
    }
  }

  /** Keeping the last `n` after each append is keeping the last `n` of
      everything appended. */
  lemma LastNSnoc<T>(s: seq<T>, x: T, n: nat)
    ensures LastN(LastN(s, n) + [x], n) == LastN(s + [x], n)
  {
    var t := LastN(s, n);
    var a, b := LastN(t + [x], n), LastN(s + [x], n);
    assert |a| == |b|;
    forall k | 0 <= k < |a| ensures a[k] == b[k] {
      if k < |a| - 1 {
        assert a[k] == t[|t| + 1 - |a| + k];
        assert b[k] == s[|s| + 1 - |b| + k];
      }
    }
  }

  /** An executed iteration grows the history by one up to the cap, puts
      the new record last and, at the cap, evicts the oldest. */
  lemma HistoryBounded(history: seq<ActionRecord>, record: ActionRecord)
    requires |history| <= HistoryCap
    ensures var h := LastN(history + [record], HistoryCap);
      |h| == (if |history| < HistoryCap then |history| + 1 else HistoryCap)
      && h[|h| - 1] == record
      && (|history| < HistoryCap ==> h == history + [record])
      && (|history| == HistoryCap ==> h == history[1..] + [record])
  {
    var h := LastN(history + [record], HistoryCap);
    if |history| == HistoryCap {
      assert h == (history + [record])[1..];
    }
  }

  /** An iteration whose screenshot, detector call or model call returns
      nothing (or whose prompt list raises) appends nothing and performs
      nothing. */
  lemma EarlyEndKeepsHistory(history: seq<ActionRecord>, world: World, eval: LiteralEval, host: Host)
    requires world.shot.None? || world.shot == Some("")
      || world.detect(world.shot.value).None?
      || PromptMessages(history).None?
      || var rq := Request(UserQuery, Parse(world.detect(world.shot.value).value, eval),
                           PromptMessages(history).value, world.shot.value);
         world.vlm(rq).None? || world.vlm(rq) == Some("")
    ensures NextHistory(history, Iterate(history, world, eval, host)) == history
    ensures IterationEvents(history, world, eval, host) == []
  {
  }

  /** The model is asked with the messages of the kept records, oldest first. */
  lemma RequestCarriesMessages(history: seq<ActionRecord>, world: World, eval: LiteralEval, host: Host)
    requires Iterate(history, world, eval, host).Executed?
    ensures var rq := Iterate(history, world, eval, host).request;
      |rq.previous| == |history| && rq.query == UserQuery
      && forall k :: 0 <= k < |history| ==> history[k].message == Some(rq.previous[k])
  {
  }

  /** After a record without a message (a `hover` without Box ID) is
      appended, the next iteration that gets past the detector stops with
      `KeyError`, which ends the loop. */
  lemma UnsetMessageStopsNextIteration(history: seq<ActionRecord>, record: ActionRecord, world: World,
                                         eval: LiteralEval, host: Host)
    requires record.message.None?
    requires world.shot.Some? && world.shot.value != "" && world.detect(world.shot.value).Some?
    ensures Iterate(LastN(history + [record], HistoryCap), world, eval, host) == PromptKeyError
  {
    var h := LastN(history + [record], HistoryCap);
    assert h[|h| - 1] == record;
  }

  /** `hover` without a Box ID produces exactly such a record. */
  lemma HoverWithoutBoxLeavesNoMessage(reply: string, d: Dict, elements: seq<Dict>, host: Host)
    requires Decode(reply, host.loads) == Some(VDict(d))
    requires Get(d, "Next Action") == VStr("hover") && Get(d, "Box ID") == VNone
    ensures Execute(reply, elements, host).outcome.Returned?
    ensures Execute(reply, elements, host).outcome.record.message.None?
  {
    HoverWithoutBox(d, elements, host);
  }
}
