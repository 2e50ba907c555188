/** The reasoning stage (aoai/agents/logician_agent.py): asks the provider
    for a JSON breakdown of the user's question and, when the answer does not
    validate, asks once more with a clarified prompt. The prompt built by
    `get_prompt('logician', ...)` arrives as `base`. */
module LogicianAgent {
  import opened Common
  import opened JsonSchemas

  const MaxRetry: nat := 2
  const Clarification := "\n\nIMPORTANT: Return ONLY valid JSON, no additional text."

  /** What one attempt makes of the provider's reply. */
  datatype Step = Valid(data: Json) | Invalid(reason: string) | Failed(exc: Exc)

  function Judge(reply: Reply, decode: Decoder): (s: Step)
    ensures s.Valid? <==> reply.Answer? && decode(reply.text).Doc? && IsReasoning(decode(reply.text).value)
    ensures s.Valid? ==> s.data == decode(reply.text).value
    ensures s.Invalid? ==> reply.Answer? && ValidateLogician(decode(reply.text)) == Rejected(s.reason)
    ensures reply.Answer? && ValidateLogician(decode(reply.text)).Rejected? ==>
      s == Invalid(ValidateLogician(decode(reply.text)).reason)
    ensures reply.Answer? && ValidateLogician(decode(reply.text)).Threw? ==>
      s == Failed(ValidateLogician(decode(reply.text)).exc)
    ensures reply.Fault? ==> s == Failed(ProviderError(reply.error))
  {
    match reply
    case Fault(e) => Failed(ProviderError(e))
    case Answer(text) =>
      match ValidateLogician(decode(text))
      case Accepted(d) => Valid(d)
      case Rejected(m) => Invalid(m)
      case Threw(e) => Failed(e)
  }

  /** A number is not a container: the `in` check of the validator raises,
      and the attempt fails with that TypeError instead of being retried. */
  lemma NumberAnswerRaises(text: string, decode: Decoder, n: int)
    requires decode(text) == Doc(JNum(n))
    ensures Judge(Answer(text), decode) == Failed(TypeError("argument of type 'int' is not iterable"))
  {
    assert "argument of type '" + TypeName(JNum(n)) + "' is not iterable" == "argument of type 'int' is not iterable";
  }

  function Exhausted(reason: string): string
  {
    "Failed to get valid JSON after " + Decimal(MaxRetry) + " attempts: " + reason
  }

  /** Attempts `attempt` to MaxRetry, the first of them sent with `prompt`:
      an invalid answer before the last attempt sends the base prompt again
      with the clarification; anything else ends the stage. */
  function Attempts(base: string, llm: Provider, decode: Decoder, attempt: nat, prompt: string): (r: StageRun<Json>)
    requires 1 <= attempt <= MaxRetry
    ensures 1 <= |r.prompts| <= MaxRetry - attempt + 1
    ensures r.prompts[0] == prompt
    decreases MaxRetry - attempt
  {
    match Judge(llm(attempt - 1, prompt), decode)
    case Valid(d) => StageRun(Returned(d), [prompt])
    case Failed(e) => StageRun(Raised(e), [prompt])
    case Invalid(m) =>
      if attempt < MaxRetry then Preceded([prompt], Attempts(base, llm, decode, attempt + 1, base + Clarification))
      else StageRun(Raised(ValueError(Exhausted(m))), [prompt])
  }

  /** Every attempt of a run but the last was invalid and was followed by
      the base prompt plus the clarification (rebuilt, not accumulated); the
      last attempt decides: a valid document is returned as parsed, an
      exception is re-raised at once, and an invalid answer on the final
      attempt raises. */
  lemma AttemptsPolicy(base: string, llm: Provider, decode: Decoder, attempt: nat, prompt: string)
    requires 1 <= attempt <= MaxRetry
    ensures var r := Attempts(base, llm, decode, attempt, prompt);
      && (forall i :: 1 <= i < |r.prompts| ==> r.prompts[i] == base + Clarification)
      && (forall i :: 0 <= i < |r.prompts| - 1 ==> Judge(llm(attempt - 1 + i, r.prompts[i]), decode).Invalid?)
      && var last := Judge(llm(attempt - 2 + |r.prompts|, r.prompts[|r.prompts| - 1]), decode);
      && (r.out.Returned? <==> last.Valid?)
      && (last.Valid? ==> r.out == Returned(last.data))
      && (last.Failed? ==> r.out == Raised(last.exc))
      && (last.Invalid? ==> attempt - 1 + |r.prompts| == MaxRetry && r.out == Raised(ValueError(Exhausted(last.reason))))
  {
    AttemptsRetried(base, llm, decode, attempt, prompt);
    AttemptsDecided(base, llm, decode, attempt, prompt);
  }

  /** The attempts before the last: invalid, each followed by the rebuilt
      prompt. */
  lemma {:induction false} AttemptsRetried(base: string, llm: Provider, decode: Decoder, attempt: nat, prompt: string)
    requires 1 <= attempt <= MaxRetry
    ensures var r := Attempts(base, llm, decode, attempt, prompt);
      && (forall i :: 1 <= i < |r.prompts| ==> r.prompts[i] == base + Clarification)
      && (forall i :: 0 <= i < |r.prompts| - 1 ==> Judge(llm(attempt - 1 + i, r.prompts[i]), decode).Invalid?)
    decreases MaxRetry - attempt
  {
    var r := Attempts(base, llm, decode, attempt, prompt);
    if Judge(llm(attempt - 1, prompt), decode).Invalid? && attempt < MaxRetry {
      var next := base + Clarification;
      AttemptsRetried(base, llm, decode, attempt + 1, next);
      var rest := Attempts(base, llm, decode, attempt + 1, next);
      assert r.prompts == [prompt] + rest.prompts;
      forall i | 1 <= i < |r.prompts|
        ensures r.prompts[i] == base + Clarification
      {
        assert r.prompts[i] == rest.prompts[i - 1];
      }
      forall i | 0 <= i < |r.prompts| - 1
        ensures Judge(llm(attempt - 1 + i, r.prompts[i]), decode).Invalid?
      {
        assert i == 0 && r.prompts[i] == prompt;
      }
    } else {
      assert r.prompts == [prompt];
    }
  }

  /** The last attempt decides the outcome of the run. */
  lemma {:induction false} AttemptsDecided(base: string, llm: Provider, decode: Decoder, attempt: nat, prompt: string)
    requires 1 <= attempt <= MaxRetry
    ensures var r := Attempts(base, llm, decode, attempt, prompt);
      var last := Judge(llm(attempt - 2 + |r.prompts|, r.prompts[|r.prompts| - 1]), decode);
      && (r.out.Returned? <==> last.Valid?)
      && (last.Valid? ==> r.out == Returned(last.data))
      && (last.Failed? ==> r.out == Raised(last.exc))
      && (last.Invalid? ==> attempt - 1 + |r.prompts| == MaxRetry && r.out == Raised(ValueError(Exhausted(last.reason))))
    decreases MaxRetry - attempt
  {
    var r := Attempts(base, llm, decode, attempt, prompt);
    if Judge(llm(attempt - 1, prompt), decode).Invalid? && attempt < MaxRetry {
      var next := base + Clarification;
      AttemptsDecided(base, llm, decode, attempt + 1, next);
      var rest := Attempts(base, llm, decode, attempt + 1, next);
      assert r.prompts == [prompt] + rest.prompts;
      assert r.prompts[|r.prompts| - 1] == rest.prompts[|rest.prompts| - 1];
    } else {
      assert r.prompts == [prompt];
    }
  }

  /** `LogicianAgent.process`: at most two provider calls, the first with
      the base prompt; what it returns is a validated reasoning document. */
  function Logician(base: string, llm: Provider, decode: Decoder): (r: StageRun<Json>)
    ensures 1 <= |r.prompts| <= MaxRetry && r.prompts[0] == base
    ensures r.out.Returned? ==> IsReasoning(r.out.value)
  {
    AttemptsPolicy(base, llm, decode, 1, base);
    Attempts(base, llm, decode, 1, base)
  }

  method Process(base: string, llm: Provider, decode: Decoder) returns (r: StageRun<Json>)
    ensures r == Logician(base, llm, decode)
  {
    var prompt := base;
    var sent: seq<string> := [];
    var attempt := 1;
    while true
      invariant 1 <= attempt <= MaxRetry
      invariant Logician(base, llm, decode) == Preceded(sent, Attempts(base, llm, decode, attempt, prompt))
      decreases MaxRetry - attempt
    {
      var out, next := Attempt(base, llm, decode, attempt, sent, prompt);
      sent := sent + [prompt];
      if out.Some? {
        return StageRun(out.value, sent);
      }
      prompt := next;
      attempt := attempt + 1;
    }
  }

  /** One pass through the loop of `process`: either how the stage ends,
      or the prompt of the next attempt. */
  method Attempt(base: string, llm: Provider, decode: Decoder, attempt: nat, sent: seq<string>, prompt: string)
    returns (out: Option<Outcome<Json>>, next: string)
    requires 1 <= attempt <= MaxRetry
    ensures out.Some? ==> Preceded(sent, Attempts(base, llm, decode, attempt, prompt)) == StageRun(out.value, sent + [prompt])
    ensures out.None? ==> attempt < MaxRetry
    ensures out.None? ==>
      Preceded(sent, Attempts(base, llm, decode, attempt, prompt))
        == Preceded(sent + [prompt], Attempts(base, llm, decode, attempt + 1, next))
  {
    var step := Judge(llm(attempt - 1, prompt), decode);
    match step
    case Valid(result) =>
      return Some(Returned(result)), prompt;
    case Failed(e) =>
      return Some(Raised(e)), prompt;
    case Invalid(reason) =>
      if attempt < MaxRetry {
        PrecededAssoc(sent, prompt, Attempts(base, llm, decode, attempt + 1, base + Clarification));
        return None, base + Clarification;
      }
      return Some(Raised(ValueError(Exhausted(reason)))), prompt;
  }
}
