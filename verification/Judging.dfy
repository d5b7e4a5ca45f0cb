/** One attempt: call the agent, ask the case's judges in order, and later show which trace
    step each verdict is about. What the agent and the judges answer is an input. */
module Judging {
  import opened AttemptResults
  import opened Suite

  /** How `adapter.invoke` ends. */
  datatype Invocation = Replied(response: Response) | NoReply(message: string) | Raised(message: string)

  /** How one judge ends: with a verdict, or with the budget or quota spent. */
  datatype JudgeAnswer = Judged(status: Verdict, score: real, reason: string) | BudgetSpent(message: string)

  datatype Question = Question(spec: JudgeSpec, answer: JudgeAnswer)

  /** What is measured beside the outcome. */
  datatype Accounting = Accounting(tokens: Option<int>, costUsd: Option<real>, judgeCostUsd: real, startedAt: int)

  /** The specs that are asked about one attempt; consistency is judged over a whole case. */
  function AttemptSpecs(specs: seq<JudgeSpec>): (kept: seq<JudgeSpec>)
    ensures |kept| <= |specs|
  {
    if specs == [] then []
    else
      var last := specs[|specs| - 1];
      AttemptSpecs(specs[..|specs| - 1]) + if last.judge == CONSISTENCY then [] else [last]
  }

  function SpecsOf(questions: seq<Question>): seq<JudgeSpec> {
    seq(|questions|, i requires 0 <= i < |questions| => questions[i].spec)
  }

  function Asked(questions: seq<Question>): seq<Question> {
    if questions == [] then []
    else
      var last := questions[|questions| - 1];
      Asked(questions[..|questions| - 1]) + if last.spec.judge == CONSISTENCY then [] else [last]
  }

  lemma {:induction false} AskedSpecs(questions: seq<Question>)
    ensures SpecsOf(Asked(questions)) == AttemptSpecs(SpecsOf(questions))
  {
    if questions != [] {
      var n := |questions| - 1;
      AskedSpecs(questions[..n]);
      assert SpecsOf(questions)[..n] == SpecsOf(questions[..n]);
    }
  }

  lemma {:induction false} AskedPrefix(questions: seq<Question>, i: nat)
    requires i <= |questions|
    ensures Asked(questions[..i]) <= Asked(questions)
    ensures i < |questions| && questions[i].spec.judge != CONSISTENCY ==>
              |Asked(questions[..i])| < |Asked(questions)| && Asked(questions)[|Asked(questions[..i])|] == questions[i]
    decreases |questions|
  {
    if i < |questions| {
      var n := |questions| - 1;
      if i < n {
        AskedPrefix(questions[..n], i);
        assert questions[..n][..i] == questions[..i];
      }
    } else {
      assert questions[..i] == questions;
    }
  }

  function ResultOf(question: Question): JudgeResult
    requires question.answer.Judged?
  {
    JudgeResult(question.spec.judge, question.answer.status, question.answer.score, question.answer.reason)
  }

  function Total(verdicts: seq<JudgeResult>): real {
    if verdicts == [] then 0.0 else Total(verdicts[..|verdicts| - 1]) + verdicts[|verdicts| - 1].score
  }

  function MeanScore(verdicts: seq<JudgeResult>): real {
    if verdicts == [] then 1.0 else Total(verdicts) / |verdicts| as real
  }

  /** What the verdicts' scores add up to. */
  function ScoresOf(verdicts: seq<JudgeResult>): real {
    if verdicts == [] then 0.0 else verdicts[0].score + ScoresOf(verdicts[1..])
  }

  lemma {:induction false} TotalIsSum(verdicts: seq<JudgeResult>)
    ensures Total(verdicts) == ScoresOf(verdicts)
    decreases |verdicts|
  {
    if |verdicts| == 1 {
      assert verdicts[..0] == [] && verdicts[1..] == [];
    } else if verdicts != [] {
      var front, middle, last := verdicts[..|verdicts| - 1], verdicts[1..|verdicts| - 1], verdicts[|verdicts| - 1];
      TotalIsSum(front);
      TotalIsSum(verdicts[1..]);
      TotalIsSum(middle);
      assert front[1..] == middle && verdicts[1..][..|verdicts| - 2] == middle;
      assert verdicts[1..][|verdicts| - 2] == last;
    }
  }

  /** The mean score times the number of verdicts is what they add up to; an attempt that no
      judge was asked about scores 1. */
  lemma MeanTimesCount(verdicts: seq<JudgeResult>)
    ensures IsMeanScore(MeanScore(verdicts), verdicts)
  {
    TotalIsSum(verdicts);
    if verdicts == [] {
      Nothing(1.0);
    } else {
      Undone(Total(verdicts), |verdicts| as real);
    }
  }

  lemma Undone(sum: real, n: real)
    requires n > 0.0
    ensures sum / n * n == sum
  {
  }

  lemma Nothing(x: real)
    ensures x * 0.0 == 0.0
  {
  }

  ghost predicate IsMeanScore(score: real, verdicts: seq<JudgeResult>) {
    score * |verdicts| as real == ScoresOf(verdicts) && (verdicts == [] ==> score == 1.0)
  }

  /** The judgments are the answers of the first judges asked, one each, in order. */
  ghost predicate AnswersInOrder(judgments: seq<JudgeResult>, asked: seq<Question>) {
    && |judgments| <= |asked|
    && (forall i :: 0 <= i < |judgments| ==> asked[i].answer.Judged? && judgments[i] == ResultOf(asked[i]))
  }

  /** The error of an attempt that some judge couldn't evaluate: it quotes the first. */
  ghost predicate IsJudgeError(error: AttemptError, judgments: seq<JudgeResult>) {
    exists i :: 0 <= i < |judgments|
      && judgments[i].status == CannotJudge && !HasVerdict(judgments[..i], CannotJudge)
      && error == AttemptError(Judge, judgments[i].judge + ": " + judgments[i].reason)
  }

  predicate HasVerdict(judgments: seq<JudgeResult>, status: Verdict) {
    exists i :: 0 <= i < |judgments| && judgments[i].status == status
  }

  /** Nothing of the response, no verdict. */
  function WithoutReply(c: Case, attempt: int, error: AttemptError, a: Accounting): AttemptResult {
    AttemptResult(c.id, attempt, AttemptErrored, None, [], Some(error), None, None, None, None, a.judgeCostUsd,
        a.startedAt)
  }

  function WithReply(
      c: Case, attempt: int, status: AttemptStatus, response: Response, judgments: seq<JudgeResult>,
      error: Option<AttemptError>, score: Option<real>, a: Accounting): AttemptResult
  {
    AttemptResult(
      c.id, attempt, status, Some(response), judgments, error, score,
      Some(response.latencyMs), a.tokens, a.costUsd, a.judgeCostUsd, a.startedAt)
  }

  /** `execute_attempt`. Every judge but consistency is asked, in order, until one finds the
      budget spent; an attempt without an error was judged by all of them. */
  method ExecuteAttempt(c: Case, attempt: int, invocation: Invocation, questions: seq<Question>, a: Accounting)
    returns (result: AttemptResult)
    requires SpecsOf(questions) == c.specs
    ensures result.caseId == c.id && result.attempt == attempt
    ensures result.status == AttemptErrored <==> result.error.Some?
    ensures result.score.Some? <==> result.error.None?
    ensures AnswersInOrder(result.judgments, Asked(questions))
    ensures result.judgeCostUsd == a.judgeCostUsd && result.startedAt == a.startedAt
    ensures invocation.NoReply? ==> result.error == Some(AttemptError(Timeout, invocation.message))
    ensures invocation.Raised? ==> result.error == Some(AttemptError(Internal, invocation.message))
    ensures !invocation.Replied? ==>
              && result.response.None? && result.judgments == [] && result.latencyMs.None?
              && result.tokens.None? && result.costUsd.None?
    ensures invocation.Replied? ==>
              && result.response == Some(invocation.response) && result.latencyMs == Some(invocation.response.latencyMs)
              && result.tokens == a.tokens && result.costUsd == a.costUsd
    ensures invocation.Replied? && invocation.response.error.Some? ==>
              && result.judgments == []
              && result.error == Some(AttemptError(if invocation.response.retryable then Unreachable else Agent,
                  invocation.response.error.value))
    ensures invocation.Replied? && invocation.response.error.None? ==>
              var asked, n := Asked(questions), |result.judgments|;
              && (n < |asked| ==> asked[n].answer.BudgetSpent?)
              && (n < |asked| ==> result.error == Some(AttemptError(Budget, asked[n].answer.message)))
              && (n == |asked| ==>
                    && (result.error.Some? <==> HasVerdict(result.judgments, CannotJudge))
                    && (result.error.Some? ==> IsJudgeError(result.error.value, result.judgments))
                    && (result.status == AttemptFailed <==> result.error.None? && HasVerdict(result.judgments, Fail))
                    && (result.error.None? ==> result.score.Some? && IsMeanScore(result.score.value, result.judgments)))
  {
    match invocation
    case NoReply(message) =>
      return WithoutReply(c, attempt, AttemptError(Timeout, message), a);
    case Raised(message) =>
      return WithoutReply(c, attempt, AttemptError(Internal, message), a);
    case Replied(response) =>
      if response.error.Some? {
        var kind := if response.retryable then Unreachable else Agent;
        return WithReply(c, attempt, AttemptErrored, response, [], Some(AttemptError(kind, response.error.value)),
            None, a);
      }
      var verdicts: seq<JudgeResult> := [];
      for i := 0 to |questions|
        invariant |verdicts| == |Asked(questions[..i])| && AnswersInOrder(verdicts, Asked(questions[..i]))
      {
        AskedPrefix(questions, i);
        assert questions[..i + 1][..i] == questions[..i];
        if questions[i].spec.judge != CONSISTENCY {
          var answer := questions[i].answer;
          if answer.BudgetSpent? {
            return WithReply(c, attempt, AttemptErrored, response, verdicts,
                Some(AttemptError(Budget, answer.message)), None, a);
          }
          verdicts := verdicts + [ResultOf(questions[i])];
        }
      }
      assert questions[..|questions|] == questions;
      var errored := FirstWith(verdicts, CannotJudge);
      if errored.Some? {
        var first := verdicts[errored.value];
        var message := first.judge + ": " + first.reason;
        return WithReply(c, attempt, AttemptErrored, response, verdicts, Some(AttemptError(Judge, message)), None, a);
      }
      var failed := FirstWith(verdicts, Fail);
      MeanTimesCount(verdicts);
      var status := if failed.Some? then AttemptFailed else AttemptPassed;
      return WithReply(c, attempt, status, response, verdicts, None, Some(MeanScore(verdicts)), a);
  }

  method FirstWith(verdicts: seq<JudgeResult>, status: Verdict) returns (first: Option<nat>)
    ensures first.Some? <==> HasVerdict(verdicts, status)
    ensures first.Some? ==> first.value < |verdicts| && verdicts[first.value].status == status
    ensures first.Some? ==> !HasVerdict(verdicts[..first.value], status)
  {
    for i := 0 to |verdicts|
      invariant !HasVerdict(verdicts[..i], status)
    {
      if verdicts[i].status == status {
        return Some(i);
      }
    }
    assert verdicts[..|verdicts|] == verdicts;
    return None;
  }

  // --- the trace view -------------------------------------------------------------------

  predicate CarriesOutput(step: TraceStep) {
    step.ToolResultStep? || (step.MessageStep? && step.role == "assistant")
  }

  predicate CallsTool(step: TraceStep, tool: string) {
    step.ToolCallStep? && step.tool == tool
  }

  /** The step a spec's verdict is about. */
  ghost predicate IsAnchor(anchor: Option<nat>, spec: JudgeSpec, steps: seq<TraceStep>) {
    if spec.tool.Some? then
      match anchor
      case Some(i) => i < |steps| && steps[i] == ToolCallStep(spec.tool.value)
                      && ToolCallStep(spec.tool.value) !in steps[..i]
      case None => ToolCallStep(spec.tool.value) !in steps
    else if spec.judge == LATENCY_UNDER then anchor.None?
    else IsLastOutput(anchor, steps)
  }

  /** The places of what an agent puts out: its tool results and its own messages. */
  function Outputs(steps: seq<TraceStep>): set<int> {
    (set i | 0 <= i < |steps| && steps[i].ToolResultStep?)
    + (set i | 0 <= i < |steps| && steps[i].MessageStep? && steps[i].role == "assistant")
  }

  ghost predicate IsLastOutput(anchor: Option<nat>, steps: seq<TraceStep>) {
    match anchor
    case Some(i) => i in Outputs(steps) && forall j :: j in Outputs(steps) ==> j <= i
    case None => Outputs(steps) == {}
  }

  lemma OutputsSnoc(steps: seq<TraceStep>, i: nat)
    requires i < |steps|
    ensures Outputs(steps[..i + 1]) == Outputs(steps[..i]) + (if CarriesOutput(steps[i]) then {i as int} else {})
  {
  }

  /** Without a response there is nothing to point at. */
  ghost predicate Anchors(anchor: Option<nat>, spec: JudgeSpec, response: Option<Response>) {
    match response
    case Some(r) => IsAnchor(anchor, spec, r.steps)
    case None => anchor.None?
  }

  function StepsOf(result: AttemptResult): seq<TraceStep> {
    if result.response.Some? then result.response.value.steps else []
  }

  method FirstCall(steps: seq<TraceStep>, tool: string) returns (first: Option<nat>)
    ensures IsAnchor(first, JudgeSpec("", Some(tool)), steps)
  {
    for i := 0 to |steps|
      invariant ToolCallStep(tool) !in steps[..i]
    {
      if CallsTool(steps[i], tool) {
        return Some(i);
      }
    }
    return None;
  }

  /** `judgment_steps`: one anchor for each judgment that has a spec. */
  method JudgmentSteps(c: Case, result: AttemptResult) returns (anchors: seq<Option<nat>>)
    ensures var specs := AttemptSpecs(c.specs);
            && |anchors| == (if |result.judgments| < |specs| then |result.judgments| else |specs|)
            && forall i :: 0 <= i < |anchors| ==> Anchors(anchors[i], specs[i], result.response)
  {
    var steps := StepsOf(result);
    var output: Option<nat> := None;
    for i := 0 to |steps|
      invariant IsLastOutput(output, steps[..i])
    {
      OutputsSnoc(steps, i);
      if CarriesOutput(steps[i]) {
        output := Some(i);
      }
    }
    assert steps[..|steps|] == steps;
    var specs := AttemptSpecs(c.specs);
    var count := if |result.judgments| < |specs| then |result.judgments| else |specs|;
    anchors := [];
    for i := 0 to count
      invariant |anchors| == i
      invariant forall k :: 0 <= k < i ==> IsAnchor(anchors[k], specs[k], steps)
    {
      var anchor := output;
      if specs[i].tool.Some? {
        anchor := FirstCall(steps, specs[i].tool.value);
      } else if specs[i].judge == LATENCY_UNDER {
        anchor := None;
      }
      anchors := anchors + [anchor];
    }
  }

  predicate ZipFails(c: Option<Case>, result: AttemptResult) {
    c.Some? && |result.judgments| > |AttemptSpecs(c.value.specs)|
  }

  /** The strict zip of the trace endpoint. It fails exactly when an attempt of a known case
      has more judgments than the case has judges to ask. */
  method ShowTrace(c: Option<Case>, result: AttemptResult) returns (shown: Option<seq<(JudgeResult, Option<nat>)>>)
    ensures shown.None? <==> ZipFails(c, result)
    ensures shown.Some? ==>
              && |shown.value| == |result.judgments|
              && forall i :: 0 <= i < |shown.value| ==>
                   && shown.value[i].0 == result.judgments[i]
                   && (c.None? ==> shown.value[i].1.None?)
                   && (c.Some? ==> Anchors(shown.value[i].1, AttemptSpecs(c.value.specs)[i], result.response))
  {
    var anchors: seq<Option<nat>> := seq(|result.judgments|, _ => None);
    if c.Some? {
      anchors := JudgmentSteps(c.value, result);
    }
    if |anchors| != |result.judgments| {
      return None;
    }
    return Some(seq(|anchors|, i requires 0 <= i < |anchors| => (result.judgments[i], anchors[i])));
  }

  /** What `execute_attempt` returns can always be shown, each verdict beside the spec that
      asked for it. */
  lemma ExecutedAttemptsShow(c: Case, questions: seq<Question>, result: AttemptResult)
    requires SpecsOf(questions) == c.specs && AnswersInOrder(result.judgments, Asked(questions))
    ensures !ZipFails(Some(c), result)
    ensures forall i :: 0 <= i < |result.judgments| ==> result.judgments[i].judge == AttemptSpecs(c.specs)[i].judge
  {
    AskedSpecs(questions);
    assert |SpecsOf(Asked(questions))| == |Asked(questions)|;
    forall i | 0 <= i < |result.judgments|
      ensures result.judgments[i].judge == AttemptSpecs(c.specs)[i].judge
    {
      assert SpecsOf(Asked(questions))[i] == Asked(questions)[i].spec;
    }
  }

  /** An uploaded attempt is checked for its place in the plan, not for its judgments: one with
      a judgment too many is in the plan and cannot be shown. */
  lemma UploadedAttemptMayNotShow(caseId: string, a: Accounting, verdict: JudgeResult)
    ensures var c := Case(caseId, [JudgeSpec(CONSISTENCY, None)]);
            var result := WithoutReply(c, 0, AttemptError(Agent, ""), a).(judgments := [verdict]);
            result.Key() in PlanAttempts(CaseIds([c]), 1) && ZipFails(Some(c), result)
  {
    var c := Case(caseId, [JudgeSpec(CONSISTENCY, None)]);
    assert CaseIds([c])[0] == caseId;
    PlanMembers(CaseIds([c]), 1, AttemptKey(caseId, 0));
    assert c.specs[..0] == [];
    assert AttemptSpecs([]) == [];
  }
}
