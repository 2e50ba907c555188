/** The scene-planning stage (aoai/agents/director_agent.py): turns the
    logician's reasoning into a scene manifest, asking once more with a
    reminder appended to the prompt when the answer does not validate. The
    prompt built by `get_prompt('director', ...)` arrives as `base`. */
module DirectorAgent {
  import opened Common
  import opened JsonSchemas

  const MaxRetry: nat := 2
  const Reminder := "\n\nIMPORTANT: Return ONLY valid JSON with scenes array containing title, objects, and animations."

  /** The input summary printed before the prompt is built reads
      `reasoning['concept']` and `len(reasoning['steps'])`; either can raise. */
  function Precheck(reasoning: Json): (r: Outcome<nat>)
    ensures r.Returned? <==>
      reasoning.JObj? && "concept" in reasoning.fields && "steps" in reasoning.fields
      && (reasoning.fields["steps"].JStr? || reasoning.fields["steps"].JArr? || reasoning.fields["steps"].JObj?)
    ensures reasoning.JObj? && "concept" !in reasoning.fields ==> r == Raised(KeyError("concept"))
    ensures reasoning.JObj? && "concept" in reasoning.fields && "steps" !in reasoning.fields ==>
      r == Raised(KeyError("steps"))
  {
    match Subscript(reasoning, "concept")
    case Raised(e) => Raised(e)
    case Returned(_) => LenOf(reasoning, "steps")
  }

  /** Everything the logician accepts passes the director's input summary. */
  lemma ReasoningPassesPrecheck(reasoning: Json)
    requires IsReasoning(reasoning)
    ensures Precheck(reasoning) == Returned(|reasoning.fields["steps"].items|)
  {
  }

  /** What one attempt makes of the provider's reply. */
  datatype Step = Valid(data: Json) | Invalid(reason: string) | Failed(exc: Exc)

  /** One pass through the body of the `try`: call the provider, validate. */
  function Judge(reply: Reply, decode: Decoder): (s: Step)
    ensures s.Valid? <==> reply.Answer? && decode(reply.text).Doc? && IsManifest(decode(reply.text).value)
    ensures s.Valid? ==> s.data == decode(reply.text).value
    ensures s.Invalid? ==> reply.Answer? && ValidateDirector(decode(reply.text)) == Rejected(s.reason)
    ensures reply.Answer? && ValidateDirector(decode(reply.text)).Rejected? ==>
      s == Invalid(ValidateDirector(decode(reply.text)).reason)
    ensures reply.Answer? && ValidateDirector(decode(reply.text)).Threw? ==>
      s == Failed(ValidateDirector(decode(reply.text)).exc)
    ensures reply.Fault? ==> s == Failed(ProviderError(reply.error))
  {
    match reply
    case Fault(e) => Failed(ProviderError(e))
    case Answer(text) =>
      match ValidateDirector(decode(text))
      case Accepted(d) => Valid(d)
      case Rejected(m) => Invalid(m)
      case Threw(e) => Failed(e)
  }

  /** `s` written `n` times in a row. */
  function Repeat(s: string, n: nat): string
  {
    if n == 0 then "" else s + Repeat(s, n - 1)
  }

  function Exhausted(reason: string): string
  {
    "Failed to get valid scene manifest: " + reason
  }

  /** Attempts `attempt` to MaxRetry, the first of them sent with `prompt`:
      an invalid answer before the last attempt sends the prompt again with
      the reminder appended; anything else ends the stage. */
  function Attempts(llm: Provider, decode: Decoder, attempt: nat, prompt: string): (r: StageRun<Json>)
    requires 1 <= attempt <= MaxRetry
    ensures 1 <= |r.prompts| <= MaxRetry - attempt + 1
    ensures r.prompts[0] == prompt
    decreases MaxRetry - attempt
  {
    match Judge(llm(attempt - 1, prompt), decode)
    case Valid(d) => StageRun(Returned(d), [prompt])
    case Failed(e) => StageRun(Raised(e), [prompt])
    case Invalid(m) =>
      if attempt < MaxRetry then Preceded([prompt], Attempts(llm, decode, attempt + 1, prompt + Reminder))
      else StageRun(Raised(ValueError(Exhausted(m))), [prompt])
  }

  /** The `i`-th prompt of a run carries the reminder `i` times. */
  lemma {:induction false} PromptsAccumulate(llm: Provider, decode: Decoder, attempt: nat, prompt: string)
    requires 1 <= attempt <= MaxRetry
    ensures var r := Attempts(llm, decode, attempt, prompt);
      forall i :: 0 <= i < |r.prompts| ==> r.prompts[i] == prompt + Repeat(Reminder, i)
    decreases MaxRetry - attempt
  {
    var r := Attempts(llm, decode, attempt, prompt);
    assert r.prompts[0] == prompt + Repeat(Reminder, 0);
    if Judge(llm(attempt - 1, prompt), decode).Invalid? && attempt < MaxRetry {
      var next := prompt + Reminder;
      PromptsAccumulate(llm, decode, attempt + 1, next);
      var rest := Attempts(llm, decode, attempt + 1, next);
      assert r.prompts == [prompt] + rest.prompts;
      forall i | 1 <= i < |r.prompts|
        ensures r.prompts[i] == prompt + Repeat(Reminder, i)
      {
        assert r.prompts[i] == rest.prompts[i - 1] == next + Repeat(Reminder, i - 1);
        assert prompt + Repeat(Reminder, i) == next + Repeat(Reminder, i - 1);
      }
    } else {
      assert r.prompts == [prompt];
    }
  }

  /** Every attempt of a run but the last was invalid, and the last one
      decides: a valid manifest is returned as parsed, an exception is
      re-raised, and an invalid answer on the final attempt raises. */
  lemma {:induction false} AttemptsPolicy(llm: Provider, decode: Decoder, attempt: nat, prompt: string)
    requires 1 <= attempt <= MaxRetry
    ensures var r := Attempts(llm, decode, attempt, prompt);
      && (forall i :: 0 <= i < |r.prompts| - 1 ==> Judge(llm(attempt - 1 + i, r.prompts[i]), decode).Invalid?)
      && var last := Judge(llm(attempt - 2 + |r.prompts|, r.prompts[|r.prompts| - 1]), decode);
      && (r.out.Returned? <==> last.Valid?)
      && (last.Valid? ==> r.out == Returned(last.data))
      && (last.Failed? ==> r.out == Raised(last.exc))
      && (last.Invalid? ==> attempt - 1 + |r.prompts| == MaxRetry && r.out == Raised(ValueError(Exhausted(last.reason))))
    decreases MaxRetry - attempt
  {
    var r := Attempts(llm, decode, attempt, prompt);
    if Judge(llm(attempt - 1, prompt), decode).Invalid? && attempt < MaxRetry {
      var next := prompt + Reminder;
      AttemptsPolicy(llm, decode, attempt + 1, next);
      var rest := Attempts(llm, decode, attempt + 1, next);
      assert r.prompts == [prompt] + rest.prompts;
      forall i | 0 <= i < |r.prompts| - 1
        ensures Judge(llm(attempt - 1 + i, r.prompts[i]), decode).Invalid?
      {
        assert i == 0 && r.prompts[i] == prompt;
      }
    } else {
      assert r.prompts == [prompt];
    }
  }

  /** `DirectorAgent.process`: a reasoning document without `concept` or
      `steps` raises before any provider call; otherwise at most two calls,
      and what it returns is a validated manifest. */
  function Director(reasoning: Json, base: string, llm: Provider, decode: Decoder): (r: StageRun<Json>)
    ensures Precheck(reasoning).Raised? ==> r == StageRun(Raised(Precheck(reasoning).exc), [])
    ensures Precheck(reasoning).Returned? ==> 1 <= |r.prompts| <= MaxRetry && r.prompts[0] == base
    ensures r.out.Returned? ==> IsManifest(r.out.value)
  {
    match Precheck(reasoning)
    case Raised(e) => StageRun(Raised(e), [])
    case Returned(_) =>
      AttemptsPolicy(llm, decode, 1, base);
      Attempts(llm, decode, 1, base)
  }

  method Process(reasoning: Json, base: string, llm: Provider, decode: Decoder) returns (r: StageRun<Json>)
    ensures r == Director(reasoning, base, llm, decode)
  {
    var summary := Precheck(reasoning);
    if summary.Raised? {
      return StageRun(Raised(summary.exc), []);
    }
    r := RunAttempts(llm, decode, base);
  }

  /** The retry loop of `process`: attempts 1 to MaxRetry, the first with the
      base prompt. */
  method RunAttempts(llm: Provider, decode: Decoder, base: string) returns (r: StageRun<Json>)
    ensures r == Attempts(llm, decode, 1, base)
  {
    var prompt := base;
    var sent: seq<string> := [];
    var attempt := 1;
    while true
      invariant 1 <= attempt <= MaxRetry
      invariant Attempts(llm, decode, 1, base) == Preceded(sent, Attempts(llm, decode, attempt, prompt))
      decreases MaxRetry - attempt
    {
      var out, next := Attempt(llm, decode, attempt, sent, prompt);
      sent := sent + [prompt];
      if out.Some? {
        return StageRun(out.value, sent);
      }
      prompt := next;
      attempt := attempt + 1;
    }
  }

  /** One pass through the loop of `process`: either how the stage ends,
      or the prompt of the next attempt. */
  method Attempt(llm: Provider, decode: Decoder, attempt: nat, sent: seq<string>, prompt: string)
    returns (out: Option<Outcome<Json>>, next: string)
    requires 1 <= attempt <= MaxRetry
    ensures out.Some? ==> Preceded(sent, Attempts(llm, decode, attempt, prompt)) == StageRun(out.value, sent + [prompt])
    ensures out.None? ==> attempt < MaxRetry
    ensures out.None? ==>
      Preceded(sent, Attempts(llm, decode, attempt, prompt))
        == Preceded(sent + [prompt], Attempts(llm, decode, attempt + 1, next))
  {
    var step := Judge(llm(attempt - 1, prompt), decode);
    match step
    case Valid(result) =>
      return Some(Returned(result)), prompt;
    case Failed(e) =>
      return Some(Raised(e)), prompt;
    case Invalid(reason) =>
      if attempt < MaxRetry {
        PrecededAssoc(sent, prompt, Attempts(llm, decode, attempt + 1, prompt + Reminder));
        return None, prompt + Reminder;
      }
      return Some(Raised(ValueError(Exhausted(reason)))), prompt;
  }
}
