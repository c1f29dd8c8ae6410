/** The first ReAct agent: every decoded step is appended to the history
    whole, and the history goes back into the prompt as one JSON encoding per
    line. There are no tools; the model is asked to answer in the end. */
module BasicAgent {
  import opened Common
  import opened Text
  import opened Json
  import ReAct

  // ---------------------------------------------------------------------
  // History text
  // ---------------------------------------------------------------------

  /** `_format_thought_history`: each step's `json.dumps(step,
      ensure_ascii=False)` followed by a line break. */
  function FormatSteps(h: seq<Json>): string {
    if |h| == 0 then "" else Dumps(h[0], false) + "\n" + FormatSteps(h[1..])
  }

  /** The encodings of the steps, in order. */
  function Encodings(h: seq<Json>): (e: seq<string>)
    ensures |e| == |h|
    ensures forall i :: 0 <= i < |h| ==> e[i] == Dumps(h[i], false)
  {
    seq(|h|, i requires 0 <= i < |h| => Dumps(h[i], false))
  }

  /** The history text is the encodings joined by line breaks, with one more
      line break at the end (an empty history gives `""`). */
  lemma {:induction false} FormatStepsIsJoin(h: seq<Json>)
    ensures FormatSteps(h) == Join(Encodings(h) + [""], "\n")
  {
    if |h| > 0 {
      FormatStepsIsJoin(h[1..]);
      var parts := Encodings(h) + [""];
      assert parts[1..] == Encodings(h[1..]) + [""];
    }
  }

  /** Splitting the history text at line breaks gives back one encoding per
      step, in order, then the empty text after the last line break: no
      encoding spills over a line. */
  lemma StepLines(h: seq<Json>)
    ensures Split(FormatSteps(h), '\n') == Encodings(h) + [""]
  {
    FormatStepsIsJoin(h);
    var parts := Encodings(h) + [""];
    forall k | 0 <= k < |parts| ensures '\n' !in parts[k] {
      if k < |h| {
        DumpsSingleLine(h[k], false);
      }
    }
    SplitJoin(parts, '\n');
  }

  /** `json.loads` reads back whatever `json.dumps` wrote for a value with
      distinct keys and integers within the digit limit. */
  ghost predicate InvertsDumps(loads: Loads) {
    forall j :: Canonical(j) ==> loads(Dumps(j, false)) == Parsed(j)
  }

  /** With a decoder that inverts the encoder, every line of the history
      text decodes back to the step it came from, when every step has
      distinct keys and integers within the digit limit. */
  lemma LinesDecodeBack(loads: Loads, h: seq<Json>)
    requires InvertsDumps(loads)
    requires forall i :: 0 <= i < |h| ==> Canonical(h[i])
    ensures var lines := Split(FormatSteps(h), '\n');
            |lines| == |h| + 1 && forall i :: 0 <= i < |h| ==> loads(lines[i]) == Parsed(h[i])
  {
    StepLines(h);
  }

  /** The system prompt of one iteration: the template, a line break, and
      the history text when there is history. */
  function Prompt(template: string, history: seq<Json>): string {
    if |history| > 0 then template + "\n" + FormatSteps(history) else template + "\n"
  }

  /** The `if thought_process` guard changes nothing: an empty history
      formats to `""`, so every prompt is the template, a line break and the
      history text. */
  lemma PromptGuardRedundant(template: string, history: seq<Json>)
    ensures Prompt(template, history) == template + "\n" + FormatSteps(history)
    ensures StartsWith(Prompt(template, history), template + "\n")
  {
    if |history| == 0 {
      assert template + "\n" + "" == template + "\n";
    }
    assert (template + "\n" + FormatSteps(history))[..|template + "\n"|] == template + "\n";
  }

  // ---------------------------------------------------------------------
  // One step
  // ---------------------------------------------------------------------

  /** The body of the loop after the model call: decode, return
      `step["final_answer"]` when `"final_answer" in step`, otherwise append
      the step as it is. Only the membership test and the subscript can
      raise, so a string or list step without `"final_answer"` is appended
      like an object. */
  function ProcessReply(loads: Loads, text: string, history: seq<Json>): (r: ReAct.StepResult)
    ensures loads(text).DecodeError? ==> r == ReAct.Unparsable(ReAct.ParseFailure(loads(text).message, text))
    ensures loads(text).Parsed? && HasKey(loads(text).value, "final_answer") ==>
              r == ReAct.Finished(Get(loads(text).value, "final_answer").value)
    ensures r.Continued? <==> loads(text).Parsed? && NotFinal(loads(text).value)
    ensures r.Continued? ==> r.history == history + [loads(text).value]
    ensures r.StepRaised? ==> loads(text).Parsed? && !loads(text).value.JObject?
  {
    match loads(text)
    case DecodeError(e) => ReAct.Unparsable(ReAct.ParseFailure(e, text))
    case Parsed(step) =>
      match step
      case JObject(_) =>
        if HasKey(step, "final_answer") then ReAct.Finished(Get(step, "final_answer").value)
        else ReAct.Continued(history + [step])
      case JString(s) =>
        if Contains(s, "final_answer") then ReAct.StepRaised(ReAct.StrIndexError)
        else ReAct.Continued(history + [step])
      case JArray(xs) =>
        if JString("final_answer") in xs then ReAct.StepRaised(ReAct.ListIndexError)
        else ReAct.Continued(history + [step])
      case _ => ReAct.StepRaised(ReAct.NotIterable(step))
  }

  /** A decoded step the loop keeps: `"final_answer" in step` is a
      well-typed test and false. */
  predicate NotFinal(step: Json) {
    match step
    case JObject(_) => !HasKey(step, "final_answer")
    case JString(s) => !Contains(s, "final_answer")
    case JArray(xs) => JString("final_answer") !in xs
    case _ => false
  }

  // ---------------------------------------------------------------------
  // The loop
  // ---------------------------------------------------------------------

  /** `while True:` with the model's replies supplied in order. Each
      iteration that goes on appends exactly the step it decoded, and every
      prompt carries exactly the steps decoded before it. */
  function Loop(template: string, loads: Loads, replies: seq<ReAct.Reply>,
                history: seq<Json>, prompts: seq<string>): (r: ReAct.RunResult)
    ensures history <= r.history && prompts <= r.prompts
    ensures |r.history| - |history| <= |r.prompts| - |prompts| <= |replies|
    ensures r.status.OutOfReplies? ==> |r.prompts| - |prompts| == |r.history| - |history| == |replies|
    ensures !r.status.OutOfReplies? ==> |r.prompts| - |prompts| == |r.history| - |history| + 1
    ensures |r.prompts| - |prompts| <= |r.history| - |history| + 1
    ensures StepsFollow(loads, replies, history, r.history)
    ensures PromptsFollow(template, history, prompts, r)
    ensures !r.status.OutOfReplies? ==>
              |r.history| - |history| < |replies|
              && StopsWith(loads, replies[|r.history| - |history|], r.history, r.status)
    decreases |replies|
  {
    if |replies| == 0 then ReAct.RunResult(ReAct.OutOfReplies, history, prompts)
    else
      var p := Prompt(template, history);
      var step := ProcessReply(loads, ReAct.ReplyText(replies[0]), history);
      if !step.Continued? then
        assert history[..|history|] == history;
        ReAct.RunResult(Stopped(step), history, prompts + [p])
      else
        var h := step.history;
        var r := Loop(template, loads, replies[1..], h, prompts + [p]);
        LoopFacts(template, loads, replies, history, prompts, h, r);
        assert !r.status.OutOfReplies? ==> replies[1..][|r.history| - |h|] == replies[|r.history| - |history|];
        r
  }

  /** The records after `history` in `h` are the steps decoded from the
      replies, one per reply, in order. */
  ghost predicate StepsFollow(loads: Loads, replies: seq<ReAct.Reply>, history: seq<Json>, h: seq<Json>)
    requires |history| <= |h| <= |history| + |replies|
  {
    forall k :: 0 <= k < |h| - |history| ==> StepOf(loads, replies[k], h[|history| + k])
  }

  /** Every prompt sent after `prompts` carries exactly the steps recorded
      before it was sent. */
  ghost predicate PromptsFollow(template: string, history: seq<Json>, prompts: seq<string>, r: ReAct.RunResult)
    requires |history| <= |r.history| && |prompts| <= |r.prompts|
    requires |r.prompts| - |prompts| <= |r.history| - |history| + 1
  {
    forall k :: |prompts| <= k < |r.prompts| ==> r.prompts[k] == Prompt(template, r.history[..|history| + k - |prompts|])
  }

  /** How the run ends after a step that does not go on. */
  function Stopped(step: ReAct.StepResult): (s: ReAct.Status)
    requires !step.Continued?
    ensures !s.OutOfReplies?
  {
    match step
    case Finished(a) => ReAct.Answered(a)
    case Unparsable(m) => ReAct.ParseFailed(m)
    case StepRaised(e) => ReAct.Escaped(e)
  }

  /** The run ended with status `s` because the step decoded from `reply`,
      with history `h` reached, did not go on. */
  predicate StopsWith(loads: Loads, reply: ReAct.Reply, h: seq<Json>, s: ReAct.Status) {
    var step := ProcessReply(loads, ReAct.ReplyText(reply), h);
    !step.Continued? && s == Stopped(step)
  }

  /** The step an iteration that goes on appends for reply `reply`. */
  predicate StepOf(loads: Loads, reply: ReAct.Reply, step: Json) {
    loads(ReAct.ReplyText(reply)) == Parsed(step) && NotFinal(step)
  }

  /** One unrolling of `Loop`'s contract: what the recursive call promises,
      shifted by the step and prompt of the current iteration. */
  lemma LoopFacts(template: string, loads: Loads, replies: seq<ReAct.Reply>, history: seq<Json>, prompts: seq<string>,
                  h: seq<Json>, r: ReAct.RunResult)
    requires |replies| > 0
    requires ProcessReply(loads, ReAct.ReplyText(replies[0]), history) == ReAct.Continued(h)
    requires var p := Prompt(template, history);
             && h <= r.history && prompts + [p] <= r.prompts
             && |r.history| - |h| <= |r.prompts| - |prompts| - 1 <= |replies| - 1
             && |r.prompts| - |prompts| - 1 <= |r.history| - |h| + 1
             && StepsFollow(loads, replies[1..], h, r.history)
             && PromptsFollow(template, h, prompts + [p], r)
    ensures history <= r.history && prompts <= r.prompts
    ensures StepsFollow(loads, replies, history, r.history)
    ensures PromptsFollow(template, history, prompts, r)
  {
    var p := Prompt(template, history);
    assert h == history + [loads(ReAct.ReplyText(replies[0])).value];
    assert r.history[..|history|] == h[..|history|] == history;
    assert r.prompts[..|prompts|] == (prompts + [p])[..|prompts|] == prompts;
    StepsShift(loads, replies, history, h, r.history);
    PromptsShift(template, history, prompts, h, r);
  }

  lemma StepsShift(loads: Loads, replies: seq<ReAct.Reply>, history: seq<Json>, h: seq<Json>, rh: seq<Json>)
    requires |replies| > 0
    requires |h| == |history| + 1 && history <= h && StepOf(loads, replies[0], h[|history|])
    requires h <= rh && |rh| - |h| <= |replies| - 1
    requires StepsFollow(loads, replies[1..], h, rh)
    ensures StepsFollow(loads, replies, history, rh)
  {
    forall k | 0 <= k < |rh| - |history| ensures StepOf(loads, replies[k], rh[|history| + k]) {
      if k == 0 {
        assert rh[|history|] == h[|history|];
      } else {
        assert replies[k] == replies[1..][k - 1];
        assert |history| + k == |h| + (k - 1);
      }
    }
  }

  lemma PromptsShift(template: string, history: seq<Json>, prompts: seq<string>, h: seq<Json>, r: ReAct.RunResult)
    requires |h| == |history| + 1 && history <= h && h <= r.history
    requires var p := Prompt(template, history);
             && prompts + [p] <= r.prompts
             && |r.prompts| - |prompts| - 1 <= |r.history| - |h| + 1
             && PromptsFollow(template, h, prompts + [p], r)
    ensures PromptsFollow(template, history, prompts, r)
  {
    var p := Prompt(template, history);
    forall k | |prompts| <= k < |r.prompts| ensures r.prompts[k] == Prompt(template, r.history[..|history| + k - |prompts|]) {
      if k == |prompts| {
        assert r.prompts[k] == (prompts + [p])[k];
        assert r.history[..|history|] == history;
      }
    }
  }

  /** `run(query)`: an empty history and no prompts sent yet. */
  function Run(template: string, loads: Loads, replies: seq<ReAct.Reply>): (r: ReAct.RunResult)
    ensures |r.history| <= |r.prompts| <= |replies|
    ensures |r.prompts| <= |r.history| + 1
    ensures forall k :: 0 <= k < |r.history| ==> StepOf(loads, replies[k], r.history[k])
    ensures forall k :: 0 <= k < |r.prompts| ==> r.prompts[k] == Prompt(template, r.history[..k])
    ensures !r.status.OutOfReplies? ==>
              |r.history| < |replies| && StopsWith(loads, replies[|r.history|], r.history, r.status)
  {
    var r := Loop(template, loads, replies, [], []);
    FromStart(template, loads, replies, r);
    r
  }

  /** `Loop`'s contract read from an empty start. */
  lemma FromStart(template: string, loads: Loads, replies: seq<ReAct.Reply>, r: ReAct.RunResult)
    requires r == Loop(template, loads, replies, [], [])
    ensures forall k :: 0 <= k < |r.history| ==> StepOf(loads, replies[k], r.history[k])
    ensures forall k :: 0 <= k < |r.prompts| ==> r.prompts[k] == Prompt(template, r.history[..k])
  {
    var h0: seq<Json> := [];
    var p0: seq<string> := [];
    assert StepsFollow(loads, replies, h0, r.history);
    assert PromptsFollow(template, h0, p0, r);
    forall k | 0 <= k < |r.history| ensures StepOf(loads, replies[k], r.history[k]) {
      assert |h0| + k == k;
    }
    forall k | 0 <= k < |r.prompts| ensures r.prompts[k] == Prompt(template, r.history[..k]) {
      assert |h0| + k - |p0| == k;
    }
  }

  /** What a run that stops returns, read off the reply that stopped it:
      `step["final_answer"]` of a decoded object holding it, the
      parse-failure text of an undecodable reply, or the error of a decoded
      value that is not an object. */
  lemma StatusFromStoppingReply(template: string, loads: Loads, replies: seq<ReAct.Reply>)
    ensures var r := Run(template, loads, replies);
            !r.status.OutOfReplies? ==>
              && |r.history| < |replies|
              && var text := ReAct.ReplyText(replies[|r.history|]);
              && (r.status.Answered? <==>
                    loads(text).Parsed? && HasKey(loads(text).value, "final_answer"))
              && (r.status.Answered? ==> Get(loads(text).value, "final_answer") == Some(r.status.answer))
              && (r.status.ParseFailed? <==> loads(text).DecodeError?)
              && (r.status.ParseFailed? ==> r.status.message == ReAct.ParseFailure(loads(text).message, text))
              && (r.status.Escaped? ==> loads(text).Parsed? && !loads(text).value.JObject?)
  {
  }

  /** A failed model call ends the run at once with the parse-failure text:
      its error text is never JSON. */
  lemma ModelFailureIsFatal(template: string, loads: Loads, replies: seq<ReAct.Reply>)
    requires RejectsNonValueStart(loads)
    requires |replies| >= 1 && replies[0].CallFailed?
    ensures loads("Error generating response: " + replies[0].message).DecodeError?
    ensures var text := "Error generating response: " + replies[0].message;
            Run(template, loads, replies)
              == ReAct.RunResult(ReAct.ParseFailed(ReAct.ParseFailure(loads(text).message, text)), [], [template + "\n"])
  {
    var m := replies[0].message;
    var text := "Error generating response: " + m;
    assert replies[0] == ReAct.CallFailed(m) && ReAct.ReplyText(replies[0]) == text;
    ReAct.CallFailureUndecodable(loads, m);
    var step := ProcessReply(loads, text, []);
    assert step == ReAct.Unparsable(ReAct.ParseFailure(loads(text).message, text));
    assert Prompt(template, []) == template + "\n";
    assert Loop(template, loads, replies, [], []) == ReAct.RunResult(Stopped(step), [], [template + "\n"]);
  }

  /** A `final_answer` ends the run with its value and leaves the history as
      it was. */
  lemma FinalAnswerKeepsHistory(template: string, loads: Loads, replies: seq<ReAct.Reply>, history: seq<Json>, prompts: seq<string>)
    requires |replies| >= 1
    requires loads(ReAct.ReplyText(replies[0])).Parsed?
    requires HasKey(loads(ReAct.ReplyText(replies[0])).value, "final_answer")
    ensures var r := Loop(template, loads, replies, history, prompts);
            && r.status == ReAct.Answered(Get(loads(ReAct.ReplyText(replies[0])).value, "final_answer").value)
            && r.history == history
            && r.prompts == prompts + [Prompt(template, history)]
  {
  }
}
