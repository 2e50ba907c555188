/** The code-generation stage (aoai/agents/engineer_agent.py): asks the
    provider for a Manim script implementing the scene manifest, takes the
    code out of a markdown fence when there is one, and holds it to the
    engineer checks. The prompt built by `get_prompt('engineer', ...)`
    arrives as `base`. */
module EngineerAgent {
  import opened Common
  import opened JsonSchemas

  const MaxRetry: nat := 2
  const Critical := "\n\nCRITICAL: Code MUST include 'from manim import *' and 'class GeneratedScene(Scene)'. Return ONLY the Python code."

  const PythonOpen := "```python\n"
  const PlainOpen := "```\n"

  /** `_extract_code_from_markdown`: the first block opened by
      "```python\n", else the first block opened by "```\n", else the whole
      text; stripped in every case. A fenced block never contains a fence. */
  function ExtractCode(text: string): (r: string)
    ensures r == [] || (!IsSpace(r[0]) && !IsSpace(r[|r| - 1]))
    ensures FencedBlock(text, PythonOpen).Some? || FencedBlock(text, PlainOpen).Some? ==> |r| < |text|
    ensures FencedBlock(text, PythonOpen).Some? ==> r == Strip(FencedBlock(text, PythonOpen).value)
    ensures FencedBlock(text, PythonOpen).None? && FencedBlock(text, PlainOpen).Some? ==>
      r == Strip(FencedBlock(text, PlainOpen).value)
    ensures FencedBlock(text, PythonOpen).None? && FencedBlock(text, PlainOpen).None? ==> r == Strip(text)
  {
    match FencedBlock(text, PythonOpen)
    case Some(block) => Strip(block)
    case None =>
      match FencedBlock(text, PlainOpen)
      case Some(block) => Strip(block)
      case None => Strip(text)
  }

  /** Code wrapped in a python fence comes back out, stripped. */
  lemma PythonBlockRoundTrip(code: string)
    requires !Contains(code, Fence)
    ensures ExtractCode(PythonOpen + code + "\n```") == Strip(code)
  {
    FenceRoundTrip(PythonOpen, code);
    assert IsBlank("\n");
    StripPadded("", code, "\n");
    assert "" + code + "\n" == code + "\n";
  }

  /** Code in a generic fence comes back out, stripped: the block is not
      taken for a python one. */
  lemma PlainBlockRoundTrip(code: string)
    requires !Contains(code, Fence)
    ensures ExtractCode(PlainOpen + code + "\n```") == Strip(code)
  {
    var text := PlainOpen + code + "\n```";
    TaggedOpenAfterBlock(code, [], PythonOpen);
    assert text == Fence + "\n" + code + "\n```" + [];
    assert FencedBlock(text, PythonOpen).None?;
    FenceRoundTrip(PlainOpen, code);
    assert IsBlank("\n");
    StripPadded("", code, "\n");
    assert "" + code + "\n" == code + "\n";
  }

  /** The python block wins even when a generic block comes first. */
  lemma PythonBlockFirst(a: string, b: string)
    requires !Contains(a, Fence) && !Contains(b, Fence)
    ensures ExtractCode(PlainOpen + a + "\n```\n" + PythonOpen + b + "\n```") == Strip(b)
  {
    assert PlainOpen == Fence + "\n";
    TaggedBlockAfterBlock(a, PythonOpen, b);
    assert IsBlank("\n");
    StripPadded("", b, "\n");
    assert "" + b + "\n" == b + "\n";
  }

  /** Text without any fence is only stripped. */
  lemma UnfencedTextIsStripped(text: string)
    requires !Contains(text, Fence)
    ensures ExtractCode(text) == Strip(text)
  {
    OpeningFence(text, PythonOpen);
    OpeningFence(text, PlainOpen);
  }

  /** An opening that starts with a fence can only occur where a fence does. */
  lemma OpeningFence(text: string, open: string)
    requires |open| >= 3 && open[..3] == Fence
    requires !Contains(text, Fence)
    ensures FencedBlock(text, open).None?
  {
    if Contains(text, open) {
      var p := IndexOf(text, open).value;
      assert text[p..p + 3] == text[p..p + |open|][..3];
      assert OccursAt(text, Fence, p);
    }
  }

  /** What one attempt makes of the provider's reply. */
  datatype Step = Valid(code: string) | Invalid(reason: string) | Failed(exc: Exc)

  /** One pass through the body of the `try`: call the provider, extract the
      code, validate it. */
  function Judge(reply: Reply, compile: Compiler): Step
  {
    match reply
    case Fault(e) => Failed(ProviderError(e))
    case Answer(raw) =>
      var code := ExtractCode(raw);
      var (isValid, errorMsg) := ValidateEngineer(code, compile);
      if isValid then Valid(code) else Invalid(errorMsg)
  }

  /** An attempt is valid exactly when the extracted code passes the
      engineer checks; an invalid one carries the checks' message, and a
      provider exception is kept. */
  lemma JudgeVerdict(reply: Reply, compile: Compiler)
    ensures var s := Judge(reply, compile);
      && (s.Valid? <==> reply.Answer? && IsSceneScript(ExtractCode(reply.text), compile))
      && (s.Valid? ==> s.code == ExtractCode(reply.text))
      && (s.Invalid? ==> reply.Answer? && ValidateEngineer(ExtractCode(reply.text), compile) == (false, s.reason))
      && (s.Failed? <==> reply.Fault?)
      && (s.Failed? ==> s.exc == ProviderError(reply.error))
  {
  }

  /** Each attempt's outcome from its number (from 0) and its prompt. */
  type Judged = (nat, string) -> Step

  /** The provider called with the attempt's prompt, then `Judge`. */
  function Replies(llm: Provider, compile: Compiler): Judged
  {
    (n: nat, prompt: string) => Judge(llm(n, prompt), compile)
  }

  /** Attempts `attempt` to MaxRetry, the first of them sent with `prompt`:
      before the last attempt an invalid answer sends the prompt again with
      the CRITICAL note appended and a provider exception sends it again
      unchanged. */
  function Attempts(steps: Judged, attempt: nat, prompt: string): (r: StageRun<string>)
    requires 1 <= attempt <= MaxRetry
    ensures 1 <= |r.prompts| <= MaxRetry - attempt + 1
    ensures r.prompts[0] == prompt
    decreases MaxRetry - attempt
  {
    match steps(attempt - 1, prompt)
    case Valid(code) => StageRun(Returned(code), [prompt])
    case Invalid(m) =>
      if attempt < MaxRetry then Preceded([prompt], Attempts(steps, attempt + 1, prompt + Critical))
      else StageRun(Raised(ValueError("Generated code is invalid: " + m)), [prompt])
    case Failed(e) =>
      if attempt < MaxRetry then Preceded([prompt], Attempts(steps, attempt + 1, prompt))
      else StageRun(Raised(e), [prompt])
  }

  /** Every valid step carries a script that passes the engineer checks. */
  ghost predicate ValidAreScripts(steps: Judged, compile: Compiler)
  {
    forall n: nat, prompt: string :: steps(n, prompt).Valid? ==> IsSceneScript(steps(n, prompt).code, compile)
  }

  /** `Judge` accepts only scripts that pass the engineer checks. */
  lemma RepliesValidAreScripts(llm: Provider, compile: Compiler)
    ensures ValidAreScripts(Replies(llm, compile), compile)
  {
    forall n: nat, prompt: string | Replies(llm, compile)(n, prompt).Valid?
      ensures IsSceneScript(Replies(llm, compile)(n, prompt).code, compile)
    {
      JudgeVerdict(llm(n, prompt), compile);
    }
  }

  /** Whatever the attempts return is the code of a valid step, so it
      passes the engineer checks. */
  lemma {:induction false} AttemptsReturnScripts(steps: Judged, compile: Compiler, attempt: nat, prompt: string)
    requires 1 <= attempt <= MaxRetry && ValidAreScripts(steps, compile)
    ensures var r := Attempts(steps, attempt, prompt);
      r.out.Returned? ==> IsSceneScript(r.out.value, compile)
    decreases MaxRetry - attempt
  {
    var step := steps(attempt - 1, prompt);
    if attempt < MaxRetry && !step.Valid? {
      AttemptsReturnScripts(steps, compile, attempt + 1, if step.Invalid? then prompt + Critical else prompt);
    }
  }

  /** `EngineerAgent.process`: the input summary reads
      `len(scene_manifest['scenes'])`, which can raise before any provider
      call; then at most two calls, and only a script that passes the
      engineer checks is returned. */
  function Engineer(manifest: Json, base: string, llm: Provider, compile: Compiler): (r: StageRun<string>)
    ensures LenOf(manifest, "scenes").Raised? ==> r == StageRun(Raised(LenOf(manifest, "scenes").exc), [])
    ensures LenOf(manifest, "scenes").Returned? ==> 1 <= |r.prompts| <= MaxRetry && r.prompts[0] == base
    ensures r.out.Returned? ==> IsSceneScript(r.out.value, compile)
  {
    match LenOf(manifest, "scenes")
    case Raised(e) => StageRun(Raised(e), [])
    case Returned(_) =>
      RepliesValidAreScripts(llm, compile);
      AttemptsReturnScripts(Replies(llm, compile), compile, 1, base);
      Attempts(Replies(llm, compile), 1, base)
  }

  /** The two-attempt policy written out: a valid first answer is returned
      at once; otherwise the second prompt is the first plus the CRITICAL
      note after an invalid answer, or the first unchanged after a provider
      exception, and the second answer is returned if valid, raises
      ValueError if invalid, and re-raises a provider exception. */
  lemma EngineerPolicy(manifest: Json, base: string, llm: Provider, compile: Compiler)
    requires LenOf(manifest, "scenes").Returned?
    ensures var r := Engineer(manifest, base, llm, compile);
      var first := Judge(llm(0, base), compile);
      && (first.Valid? ==> r == StageRun(Returned(first.code), [base]))
      && (!first.Valid? ==>
            var retry := if first.Invalid? then base + Critical else base;
            var second := Judge(llm(1, retry), compile);
            && r.prompts == [base, retry]
            && (second.Valid? ==> r.out == Returned(second.code))
            && (second.Invalid? ==> r.out == Raised(ValueError("Generated code is invalid: " + second.reason)))
            && (second.Failed? ==> r.out == Raised(second.exc)))
  {
  }

  method Process(manifest: Json, base: string, llm: Provider, compile: Compiler) returns (r: StageRun<string>)
    ensures r == Engineer(manifest, base, llm, compile)
  {
    var count := LenOf(manifest, "scenes");
    if count.Raised? {
      return StageRun(Raised(count.exc), []);
    }
    r := RunAttempts(Replies(llm, compile), base);
  }

  /** The retry loop of `process`: attempts 1 to MaxRetry, the first with the
      base prompt. */
  method RunAttempts(steps: Judged, base: string) returns (r: StageRun<string>)
    ensures r == Attempts(steps, 1, base)
  {
    var prompt := base;
    var sent: seq<string> := [];
    var attempt := 1;
    while true
      invariant 1 <= attempt <= MaxRetry
      invariant Attempts(steps, 1, base) == Preceded(sent, Attempts(steps, attempt, prompt))
      decreases MaxRetry - attempt
    {
      var out, next := Attempt(steps, attempt, prompt);
      sent := sent + [prompt];
      if out.Some? {
        return StageRun(out.value, sent);
      }
      prompt := next;
      attempt := attempt + 1;
    }
  }

  /** One pass through the loop of `process`: either how the stage ends,
      or the prompt of the next attempt. */
  method Attempt(steps: Judged, attempt: nat, prompt: string)
    returns (out: Option<Outcome<string>>, next: string)
    requires 1 <= attempt <= MaxRetry
    ensures out.Some? ==> Attempts(steps, attempt, prompt) == StageRun(out.value, [prompt])
    ensures out.None? ==> attempt < MaxRetry
    ensures out.None? ==>
      Attempts(steps, attempt, prompt) == Preceded([prompt], Attempts(steps, attempt + 1, next))
  {
    var step := steps(attempt - 1, prompt);
    match step
    case Valid(code) =>
      return Some(Returned(code)), prompt;
    case Invalid(errorMsg) =>
      if attempt < MaxRetry {
        return None, prompt + Critical;
      }
      return Some(Raised(ValueError("Generated code is invalid: " + errorMsg))), prompt;
    case Failed(e) =>
      if attempt < MaxRetry {
        return None, prompt;
      }
      return Some(Raised(e)), prompt;
  }
}
