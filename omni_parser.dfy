/** `parse_omni_parser_output`: turns the detector's text, one element per
    line in the form `<label>: <python dict literal>`, into element
    dictionaries. A bad line is skipped; any other failure of the literal
    evaluator empties the whole result. */
module OmniParser {
  import opened Values
  import opened Text

  /** What `ast.literal_eval` does with one fragment: a value, a
      SyntaxError/ValueError (caught per line), or any other exception
      (caught by the outer handler, which discards everything). */
  datatype Eval = Evaluated(value: Value) | SyntaxOrValueError | OtherError

  type LiteralEval = string -> Eval

  /** The keys every kept element must carry. */
  const RequiredKeys: set<string> := {"type", "bbox", "interactivity", "content"}

  /** The fate of one line, one constructor per branch of the loop body. */
  datatype Verdict =
    | NoColon
    | InvalidSyntax
    | NotADict
    | MissingKeys
    | Keep(element: Dict)
    | Abort

  /** The trimmed text before the first colon. */
  function Label(line: string): string
    requires ':' in line
  {
    Strip(SplitAtFirst(line, ':').0)
  }

  /** The trimmed text after the first colon. */
  function Fragment(line: string): string
    requires ':' in line
  {
    Strip(SplitAtFirst(line, ':').1)
  }

  /** A dictionary with every required key. */
  predicate IsElement(d: Dict) {
    RequiredKeys <= d.Keys && "id" in d
  }

  /** One pass of the loop body on `line`. */
  function Judge(line: string, eval: LiteralEval): (v: Verdict)
    ensures v.NoColon? <==> ':' !in line
    ensures v.Abort? <==> ':' in line && eval(Fragment(line)).OtherError?
    ensures v.InvalidSyntax? <==> ':' in line && eval(Fragment(line)).SyntaxOrValueError?
    ensures v.Keep? <==>
      ':' in line && eval(Fragment(line)).Evaluated? && eval(Fragment(line)).value.VDict?
      && RequiredKeys <= eval(Fragment(line)).value.m.Keys
    ensures v.Keep? ==>
      ':' in line && IsElement(v.element) && v.element["id"] == VStr(Label(line))
      && forall k :: k in eval(Fragment(line)).value.m && k != "id" ==>
           k in v.element && v.element[k] == eval(Fragment(line)).value.m[k]
  {
    if ':' !in line then NoColon
    else
      match eval(Fragment(line))
      case OtherError => Abort
      case SyntaxOrValueError => InvalidSyntax
      case Evaluated(value) =>
        if !value.VDict? then NotADict
        else if !(RequiredKeys <= value.m.Keys) then MissingKeys
        else Keep(value.m["id" := VStr(Label(line))])
  }

  /** `text.strip().split('\n')`. */
  function Lines(text: string): seq<string> {
    Split(Strip(text), '\n')
  }

  /** The verdict of every line, in order. */
  function Verdicts(lines: seq<string>, eval: LiteralEval): (vs: seq<Verdict>)
    ensures |vs| == |lines|
    ensures forall k :: 0 <= k < |lines| ==> vs[k] == Judge(lines[k], eval)
  {
    seq(|lines|, k requires 0 <= k < |lines| => Judge(lines[k], eval))
  }

  /** The elements of the `Keep` verdicts, in order. */
  function Kept(vs: seq<Verdict>): (r: seq<Dict>)
    ensures |r| <= |vs|
    decreases |vs|
  {
    if vs == [] then []
    else
      var init := Kept(vs[..|vs| - 1]);
      match vs[|vs| - 1]
      case Keep(d) => init + [d]
      case _ => init
  }

  /** Some line reaches the outer exception handler. */
  predicate Aborts(vs: seq<Verdict>) {
    exists k :: 0 <= k < |vs| && vs[k].Abort?
  }

  /** What `parse_omni_parser_output` returns: nothing if a line aborts,
      otherwise the kept elements. */
  function Parse(text: string, eval: LiteralEval): (r: seq<Dict>)
    ensures |r| <= |Lines(text)|
  {
    var vs := Verdicts(Lines(text), eval);
    if Aborts(vs) then [] else Kept(vs)
  }

  /** One more verdict extends the kept elements by its element, if any. */
  lemma KeptSnoc(vs: seq<Verdict>, i: nat)
    requires i < |vs|
    ensures Kept(vs[..i + 1]) == if vs[i].Keep? then Kept(vs[..i]) + [vs[i].element] else Kept(vs[..i])
  {
    assert vs[..i + 1][..i] == vs[..i];
  }

  /** One more verdict aborts when the shorter prefix did or the new one does. */
  lemma AbortsSnoc(vs: seq<Verdict>, i: nat)
    requires i < |vs|
    ensures Aborts(vs[..i + 1]) <==> Aborts(vs[..i]) || vs[i].Abort?
  {
    var pre, ext := vs[..i], vs[..i + 1];
    if Aborts(ext) && !vs[i].Abort? {
      var k :| 0 <= k < |ext| && ext[k].Abort?;
      assert k < i && ext[k] == pre[k];
    }
    if Aborts(pre) {
      var k :| 0 <= k < |pre| && pre[k].Abort?;
      assert ext[k] == pre[k];
    }
    if vs[i].Abort? {
      assert ext[i] == vs[i];
    }
  }

  /** The loop of `parse_omni_parser_output`, with `continue` for each
      skipped line and an early return for the outer handler. */
  method ParseOmniParserOutput(text: string, eval: LiteralEval) returns (parsed: seq<Dict>)
    ensures parsed == Parse(text, eval)
  {
    parsed := [];
    var lines := Split(Strip(text), '\n');
    ghost var vs := Verdicts(lines, eval);
    for i := 0 to |lines|
      invariant parsed == Kept(vs[..i])
      invariant !Aborts(vs[..i])
    {
      var line := lines[i];
      KeptSnoc(vs, i);
      AbortsSnoc(vs, i);
      assert vs[i] == Judge(line, eval);
      if ':' !in line {
        continue;
      }
      var (prefix, fragment) := SplitAtFirst(line, ':');
      prefix, fragment := Strip(prefix), Strip(fragment);
      assert prefix == Label(line) && fragment == Fragment(line);
      var content := eval(fragment);
      if content.OtherError? {
        assert Aborts(vs) by { assert vs[i].Abort?; }
        return [];
      }
      if content.SyntaxOrValueError? || !content.value.VDict? {
        continue;
      }
      var dict := content.value.m;
      if !(RequiredKeys <= dict.Keys) {
        continue;
      }
      dict := dict["id" := VStr(prefix)];
      parsed := parsed + [dict];
    }
    assert vs[..|lines|] == vs;
  }

  /** The positions of the `Keep` verdicts: increasing, and containing every
      one of them. */
  function KeptIndices(vs: seq<Verdict>): (ix: seq<nat>)
    ensures forall k :: 0 <= k < |ix| ==> ix[k] < |vs| && vs[ix[k]].Keep?
    ensures forall k, l :: 0 <= k < l < |ix| ==> ix[k] < ix[l]
    ensures forall i :: 0 <= i < |vs| && vs[i].Keep? ==> i in ix
    decreases |vs|
  {
    if vs == [] then []
    else
      var init := vs[..|vs| - 1];
      var ix0 := KeptIndices(init);
      assert forall k :: 0 <= k < |ix0| ==> vs[ix0[k]] == init[ix0[k]];
      assert forall i :: 0 <= i < |init| ==> vs[i] == init[i];
      if vs[|vs| - 1].Keep? then ix0 + [|vs| - 1] else ix0
  }

  /** The kept elements are the elements of the `Keep` verdicts, one for one
      and in line order: an order-preserving subsequence that drops only the
      other verdicts, duplicates included. */
  lemma {:induction false} KeptIsSubsequence(vs: seq<Verdict>)
    ensures |KeptIndices(vs)| == |Kept(vs)|
    ensures forall k :: 0 <= k < |Kept(vs)| ==> vs[KeptIndices(vs)[k]] == Keep(Kept(vs)[k])
    decreases |vs|
  {
    if vs != [] {
      var init := vs[..|vs| - 1];
      KeptIsSubsequence(init);
      var ix0 := KeptIndices(init);
      assert forall k :: 0 <= k < |ix0| ==> vs[ix0[k]] == init[ix0[k]];
    }
  }

  /** `d` is the literal of `line` with `id` set to the line's label,
      replacing any `id` the literal had. */
  predicate StampedFrom(d: Dict, line: string, eval: LiteralEval) {
    ':' in line && eval(Fragment(line)).Evaluated? && eval(Fragment(line)).value.VDict?
    && d == eval(Fragment(line)).value.m["id" := VStr(Label(line))]
  }

  /** Every emitted element carries the four required keys and `id`; the
      k-th one is the stamped literal of the k-th kept line. */
  lemma ParsedAreElements(text: string, eval: LiteralEval)
    ensures forall k :: 0 <= k < |Parse(text, eval)| ==> IsElement(Parse(text, eval)[k])
    ensures Parse(text, eval) != [] ==>
      |KeptIndices(Verdicts(Lines(text), eval))| == |Parse(text, eval)|
    ensures Parse(text, eval) != [] ==>
      forall k :: 0 <= k < |Parse(text, eval)| ==>
        KeptIndices(Verdicts(Lines(text), eval))[k] < |Lines(text)|
        && StampedFrom(Parse(text, eval)[k], Lines(text)[KeptIndices(Verdicts(Lines(text), eval))[k]], eval)
  {
    var lines := Lines(text);
    var vs := Verdicts(lines, eval);
    KeptIsSubsequence(vs);
    var r := Parse(text, eval);
    if r != [] {
      assert r == Kept(vs);
      forall k | 0 <= k < |r|
        ensures IsElement(r[k])
        ensures StampedFrom(r[k], lines[KeptIndices(vs)[k]], eval)
      {
        var line := lines[KeptIndices(vs)[k]];
        assert Judge(line, eval) == Keep(r[k]);
      }
    }
  }

  /** Whitespace-only text (the empty string included) parses to no
      elements: strip leaves one empty line, and it has no colon. */
  lemma BlankTextParsesEmpty(text: string, eval: LiteralEval)
    requires forall k :: 0 <= k < |text| ==> IsSpace(text[k])
    ensures Parse(text, eval) == []
  {
    StripSpec(text);
    assert Lines(text) == [""];
    var vs := Verdicts([""], eval);
    assert vs == [NoColon];
    assert Kept(vs) == Kept(vs[..0]);
  }

  /** Without an abort, the element of every line whose verdict is `Keep`
      is in the result: a bad line costs only itself. */
  lemma ParseKeepsEveryGoodLine(text: string, eval: LiteralEval, i: nat)
    requires !Aborts(Verdicts(Lines(text), eval))
    requires i < |Lines(text)| && Judge(Lines(text)[i], eval).Keep?
    ensures Judge(Lines(text)[i], eval).element in Parse(text, eval)
  {
    var vs := Verdicts(Lines(text), eval);
    KeptIsSubsequence(vs);
    var ix := KeptIndices(vs);
    assert vs[i].Keep?;
    var k :| 0 <= k < |ix| && ix[k] == i;
    assert vs[i] == Keep(Kept(vs)[k]);
  }

  /** Two good lines both survive, even with the same label: labels are not
      de-duplicated. */
  lemma DuplicateLabelsKept(text: string, eval: LiteralEval, i: nat, j: nat)
    requires !Aborts(Verdicts(Lines(text), eval))
    requires i < j < |Lines(text)|
    requires Judge(Lines(text)[i], eval).Keep? && Judge(Lines(text)[j], eval).Keep?
    ensures exists a, b :: 0 <= a < b < |Parse(text, eval)|
              && Parse(text, eval)[a] == Judge(Lines(text)[i], eval).element
              && Parse(text, eval)[b] == Judge(Lines(text)[j], eval).element
  {
    var vs := Verdicts(Lines(text), eval);
    KeptIsSubsequence(vs);
    var ix := KeptIndices(vs);
    assert vs[i].Keep? && vs[j].Keep?;
    var a :| 0 <= a < |ix| && ix[a] == i;
    var b :| 0 <= b < |ix| && ix[b] == j;
    assert Parse(text, eval) == Kept(vs);
    assert a < b;
  }

  /** Any other exception from the literal evaluator, on any line with a
      colon, empties the whole result: never a partial list. */
  lemma OtherErrorDiscardsAll(text: string, eval: LiteralEval, i: nat)
    requires i < |Lines(text)| && ':' in Lines(text)[i]
    requires eval(Fragment(Lines(text)[i])).OtherError?
    ensures Parse(text, eval) == []
  {
    var vs := Verdicts(Lines(text), eval);
    assert vs[i].Abort?;
  }
}
