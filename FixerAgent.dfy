/** The repair stage (aoai/agents/fixer_agent.py): given a script that
    failed to render and its error output, asks the provider for a patched
    script. It never gives up with an exception: when nothing better comes
    back it returns the last extracted code or the original script. The
    prompt built by `get_prompt('fixer', ...)` arrives as `base`. */
module FixerAgent {
  import opened Common
  import opened JsonSchemas

  const MaxRetry: nat := 2
  const Minimal := "\n\nIMPORTANT: Make ONLY minimal changes to fix the specific error. Do not redesign."

  const PythonTag := "```python"

  /** `_extract_code_from_markdown`: the first block opened by "```python",
      else the first block opened by any fence, else the whole text; stripped
      in every case. The patterns allow whitespace on both sides of the lazy
      group, and stripping the group gives the same text as stripping the
      whole block, which is what is computed here. */
  function ExtractCode(text: string): (r: string)
    ensures r == [] || (!IsSpace(r[0]) && !IsSpace(r[|r| - 1]))
    ensures FencedBlock(text, Fence).None? ==> r == Strip(text)
    ensures FencedBlock(text, PythonTag).Some? ==> r == Strip(FencedBlock(text, PythonTag).value)
    ensures FencedBlock(text, PythonTag).None? && FencedBlock(text, Fence).Some? ==>
      r == Strip(FencedBlock(text, Fence).value)
  {
    match FencedBlock(text, PythonTag)
    case Some(block) => TaggedBlockIsFenced(text); Strip(block)
    case None =>
      match FencedBlock(text, Fence)
      case Some(block) => Strip(block)
      case None => Strip(text)
  }

  /** Whenever a fenced block is found, the extracted code holds no fence. */
  lemma ExtractedCodeFenceFree(text: string)
    requires FencedBlock(text, Fence).Some?
    ensures !Contains(ExtractCode(text), Fence)
  {
    match FencedBlock(text, PythonTag)
    case Some(block) =>
      StripFenceFree(block);
    case None =>
      StripFenceFree(FencedBlock(text, Fence).value);
  }

  /** A python-tagged block exists only where some fenced block does. */
  lemma TaggedBlockIsFenced(text: string)
    requires FencedBlock(text, PythonTag).Some?
    ensures FencedBlock(text, Fence).Some?
  {
    var p := IndexOf(text, PythonTag).value;
    var block := FencedBlock(text, PythonTag).value;
    var close := p + |PythonTag| + |block|;
    assert OccursAt(text, Fence, close);
    PrefixOccurs(text, PythonTag, Fence, p);
    OccursContains(text, Fence, p);
    var f := IndexOf(text, Fence).value;
    assert f + |Fence| <= close;
    SuffixOccurs(text, Fence, f + |Fence|, close);
    OccursContains(text[f + |Fence|..], Fence, close - f - |Fence|);
  }

  /** Code wrapped in a python fence comes back out, stripped. */
  lemma PythonBlockRoundTrip(code: string)
    requires !Contains(code, Fence)
    ensures ExtractCode(PythonTag + code + "\n```") == Strip(code)
  {
    FenceRoundTrip(PythonTag, code);
    assert IsBlank("\n");
    StripPadded("", code, "\n");
    assert "" + code + "\n" == code + "\n";
  }

  /** Code in a generic fence on its own line comes back out, stripped: the
      block is not taken for a python one. */
  lemma PlainBlockRoundTrip(code: string)
    requires !Contains(code, Fence)
    ensures ExtractCode(Fence + "\n" + code + "\n```") == Strip(code)
  {
    var text := Fence + "\n" + code + "\n```";
    TaggedOpenAfterBlock(code, [], PythonTag);
    assert text == Fence + "\n" + code + "\n```" + [];
    assert FencedBlock(text, PythonTag).None?;
    NewlineFenceFree(code);
    FenceRoundTrip(Fence, "\n" + code);
    assert text == Fence + ("\n" + code) + "\n```";
    assert IsBlank("\n");
    StripPadded("\n", code, "\n");
  }

  /** The python block wins even when a generic block comes first. */
  lemma PythonBlockFirst(a: string, b: string)
    requires !Contains(a, Fence) && !Contains(b, Fence)
    ensures ExtractCode(Fence + "\n" + a + "\n```\n" + PythonTag + b + "\n```") == Strip(b)
  {
    TaggedBlockAfterBlock(a, PythonTag, b);
    assert IsBlank("\n");
    StripPadded("", b, "\n");
    assert "" + b + "\n" == b + "\n";
  }

  /** What one attempt makes of the provider's reply. */
  datatype Step = Valid(code: string) | Invalid(code: string) | Failed

  /** One pass through the body of the `try`: call the provider, extract the
      code, validate it with `validate_fixer_output`. */
  function Judge(reply: Reply, compile: Compiler): (s: Step)
    ensures s.Failed? <==> reply.Fault?
    ensures !s.Failed? ==> s.code == ExtractCode(reply.text)
    ensures s.Valid? <==> reply.Answer? && IsSceneScript(ExtractCode(reply.text), compile)
  {
    match reply
    case Fault(_) => Failed
    case Answer(raw) =>
      var fixedCode := ExtractCode(raw);
      var (isValid, _) := ValidateFixer(fixedCode, compile);
      if isValid then Valid(fixedCode) else Invalid(fixedCode)
  }

  /** Attempts `attempt` to MaxRetry, the first of them sent with `prompt`.
      The stage always returns: valid code at once, the last invalid code
      when the attempts run out, and the original script when the final
      provider call raises. */
  function Attempts(brokenCode: string, llm: Provider, compile: Compiler, attempt: nat, prompt: string): (r: StageRun<string>)
    requires 1 <= attempt <= MaxRetry
    ensures 1 <= |r.prompts| <= MaxRetry - attempt + 1
    ensures r.prompts[0] == prompt
    ensures r.out.Returned?
    decreases MaxRetry - attempt
  {
    match Judge(llm(attempt - 1, prompt), compile)
    case Valid(code) => StageRun(Returned(code), [prompt])
    case Invalid(code) =>
      if attempt < MaxRetry then Preceded([prompt], Attempts(brokenCode, llm, compile, attempt + 1, prompt + Minimal))
      else StageRun(Returned(code), [prompt])
    case Failed =>
      if attempt < MaxRetry then Preceded([prompt], Attempts(brokenCode, llm, compile, attempt + 1, prompt))
      else StageRun(Returned(brokenCode), [prompt])
  }

  /** `FixerAgent.process`: at most two provider calls and never an
      exception; the result is a script that passes the checks, the last
      extracted code, or the original script. */
  function Fixer(brokenCode: string, base: string, llm: Provider, compile: Compiler): (r: StageRun<string>)
    ensures 1 <= |r.prompts| <= MaxRetry && r.prompts[0] == base
    ensures r.out.Returned?
  {
    Attempts(brokenCode, llm, compile, 1, base)
  }

  /** The two-attempt policy written out: valid code is returned at once,
      even when it equals the input; otherwise the second prompt is the first
      plus the minimal-changes note after invalid code, or the first
      unchanged after a provider exception, and the second answer decides. */
  lemma FixerPolicy(brokenCode: string, base: string, llm: Provider, compile: Compiler)
    ensures var r := Fixer(brokenCode, base, llm, compile);
      var first := Judge(llm(0, base), compile);
      && (first.Valid? ==> r == StageRun(Returned(first.code), [base]))
      && (!first.Valid? ==>
            var retry := if first.Invalid? then base + Minimal else base;
            var second := Judge(llm(1, retry), compile);
            && r.prompts == [base, retry]
            && r.out == Returned(if second.Failed? then brokenCode else second.code))
  {
  }

  method Process(brokenCode: string, base: string, llm: Provider, compile: Compiler) returns (r: StageRun<string>)
    ensures r == Fixer(brokenCode, base, llm, compile)
  {
    var prompt := base;
    var sent: seq<string> := [];
    var attempt := 1;
    while true
      invariant 1 <= attempt <= MaxRetry
      invariant Fixer(brokenCode, base, llm, compile) == Preceded(sent, Attempts(brokenCode, llm, compile, attempt, prompt))
      decreases MaxRetry - attempt
    {
      var fixedCode, next := Attempt(brokenCode, llm, compile, attempt, sent, prompt);
      sent := sent + [prompt];
      if fixedCode.Some? {
        return StageRun(Returned(fixedCode.value), sent);
      }
      prompt := next;
      attempt := attempt + 1;
    }
  }

  /** One pass through the loop of `process`: either the code the stage
      returns, or the prompt of the next attempt. */
  method Attempt(brokenCode: string, llm: Provider, compile: Compiler, attempt: nat, sent: seq<string>, prompt: string)
    returns (fixedCode: Option<string>, next: string)
    requires 1 <= attempt <= MaxRetry
    ensures fixedCode.Some? ==>
      Preceded(sent, Attempts(brokenCode, llm, compile, attempt, prompt)) == StageRun(Returned(fixedCode.value), sent + [prompt])
    ensures fixedCode.None? ==> attempt < MaxRetry
    ensures fixedCode.None? ==>
      Preceded(sent, Attempts(brokenCode, llm, compile, attempt, prompt))
        == Preceded(sent + [prompt], Attempts(brokenCode, llm, compile, attempt + 1, next))
  {
    var step := Judge(llm(attempt - 1, prompt), compile);
    match step
    case Valid(code) =>
      return Some(code), prompt;
    case Invalid(code) =>
      if attempt < MaxRetry {
        PrecededAssoc(sent, prompt, Attempts(brokenCode, llm, compile, attempt + 1, prompt + Minimal));
        return None, prompt + Minimal;
      }
      return Some(code), prompt;
    case Failed =>
      if attempt < MaxRetry {
        PrecededAssoc(sent, prompt, Attempts(brokenCode, llm, compile, attempt + 1, prompt));
        return None, prompt;
      }
      return Some(brokenCode), prompt;
  }
}
