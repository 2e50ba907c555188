/** The self-healing loop (aoai/pipeline/retry_manager.py): renders the
    script in the sandbox, and after each failure but the last hands the
    script and its error output to the fixer and renders what comes back.
    The fixer is an oracle here (any repair agent, including one that
    raises); the sandbox is the `Sandbox` object of the render step. */
module RetryManager {
  import opened Common
  import opened ExecutionSandbox
  import FixerAgent

  const MaxRetries: nat := 3

  /** One entry of `execution_history`. */
  datatype HistoryEntry = HistoryEntry(attempt: nat, exitCode: int, success: bool)

  /** The returned dictionary: the last sandbox result with `attempts` and
      `execution_history` added. */
  datatype RetryResult = RetryResult(result: ExecutionResult, attempts: nat, history: seq<HistoryEntry>)

  /** A call of the fixer: the script it was given and the error output. */
  datatype FixRequest = FixRequest(code: string, stderr: string)

  /** The fixer, consulted after the failure of attempt `n` with the script
      and its error output: new code, or an exception. */
  type Fixer = (nat, string, string) -> Outcome<string>

  /** What happens from attempt `attempt` on: the scripts rendered and the
      results, in order, the fixer calls made, and the directories after
      the last render. */
  datatype Session = Session(codes: seq<string>, results: seq<ExecutionResult>, calls: seq<FixRequest>, disk: Disk)

  /** `sandbox.run` at attempt `n`: the result of rendering a script on the
      given directories, and the directories afterwards. */
  type Renderer = (nat, string, Disk) -> (ExecutionResult, Disk)

  /** The two collaborators of the loop. */
  datatype Setting = Setting(render: Renderer, fix: Fixer)

  /** The renderer of a `Sandbox` with the given directories, rendering
      `sceneName` in the world of attempt `n`. */
  function SandboxRender(tempDir: string, outputsDir: string, sceneName: string, worlds: nat -> World): Renderer
  {
    (n: nat, code: string, d: Disk) => Run(d, tempDir, outputsDir, code, sceneName, worlds(n))
  }

  /** `a` followed by `b`. */
  function Then(a: Session, b: Session): Session
  {
    Session(a.codes + b.codes, a.results + b.results, a.calls + b.calls, b.disk)
  }

  /** The attempts from `attempt` to MaxRetries, the first with `code` on
      the directories `d`: a success stops; a failure before the last
      attempt calls the fixer, whose exception stops and whose code is
      rendered next; the last failure stops. */
  function Attempts(code: string, d: Disk, s: Setting, attempt: nat): (r: Session)
    requires 1 <= attempt <= MaxRetries + 1
    ensures |r.codes| == |r.results| <= MaxRetries + 1 - attempt
    ensures attempt <= MaxRetries ==> 1 <= |r.results| && r.codes[0] == code
    decreases MaxRetries + 1 - attempt
  {
    if attempt > MaxRetries then Session([], [], [], d)
    else
      var (result, after) := s.render(attempt, code, d);
      if result.success then Session([code], [result], [], after)
      else if attempt < MaxRetries then
        match s.fix(attempt, code, result.stderr)
        case Raised(_) => Session([code], [result], [FixRequest(code, result.stderr)], after)
        case Returned(next) =>
          Then(Session([code], [result], [FixRequest(code, result.stderr)], after), Attempts(next, after, s, attempt + 1))
      else Then(Session([code], [result], [], after), Attempts(code, after, s, attempt + 1))
  }

  /** The history entries for a run of results, numbered from 1. */
  function History(results: seq<ExecutionResult>): (h: seq<HistoryEntry>)
    ensures |h| == |results|
  {
    seq(|results|, i requires 0 <= i < |results| => HistoryEntry(i + 1, results[i].exitCode, results[i].success))
  }

  /** The result record of a session: its last result, annotated. */
  function Annotate(session: Session): RetryResult
    requires session.results != []
  {
    RetryResult(session.results[|session.results| - 1], |session.results|, History(session.results))
  }

  // ---------------------------------------------------------------------
  // Properties of a session
  // ---------------------------------------------------------------------

  /** Every render but the last failed, and every failure but the last was
      followed by a fixer call with its script and error output. */
  lemma {:induction false} FailuresBeforeLast(code: string, d: Disk, s: Setting, attempt: nat)
    requires 1 <= attempt <= MaxRetries + 1
    ensures var r := Attempts(code, d, s, attempt);
      && (forall i :: 0 <= i < |r.results| - 1 ==> !r.results[i].success)
      && |r.results| - 1 <= |r.calls| <= |r.results|
      && (forall i :: 0 <= i < |r.calls| ==> r.calls[i] == FixRequest(r.codes[i], r.results[i].stderr))
    decreases MaxRetries + 1 - attempt
  {
    if attempt <= MaxRetries {
      var (result, after) := s.render(attempt, code, d);
      var r := Attempts(code, d, s, attempt);
      if !result.success && attempt < MaxRetries && s.fix(attempt, code, result.stderr).Returned? {
        var next := s.fix(attempt, code, result.stderr).value;
        FailuresBeforeLast(next, after, s, attempt + 1);
        var rest := Attempts(next, after, s, attempt + 1);
        assert r.results == [result] + rest.results;
        assert r.codes == [code] + rest.codes;
        assert r.calls == [FixRequest(code, result.stderr)] + rest.calls;
      } else if !result.success && attempt == MaxRetries {
        assert r.results == [result];
      }
    }
  }

  /** The fixer's code is what the next attempt renders, whatever it is. */
  lemma {:induction false} FixedCodeIsRenderedNext(code: string, d: Disk, s: Setting, attempt: nat)
    requires 1 <= attempt <= MaxRetries + 1
    ensures var r := Attempts(code, d, s, attempt);
      forall i :: 0 <= i < |r.codes| - 1 ==> s.fix(attempt + i, r.codes[i], r.results[i].stderr) == Returned(r.codes[i + 1])
    decreases MaxRetries + 1 - attempt
  {
    if attempt <= MaxRetries {
      var (result, after) := s.render(attempt, code, d);
      var r := Attempts(code, d, s, attempt);
      if !result.success && attempt < MaxRetries && s.fix(attempt, code, result.stderr).Returned? {
        var next := s.fix(attempt, code, result.stderr).value;
        FixedCodeIsRenderedNext(next, after, s, attempt + 1);
        var rest := Attempts(next, after, s, attempt + 1);
        assert r.results == [result] + rest.results;
        assert r.codes == [code] + rest.codes;
        forall i | 0 <= i < |r.codes| - 1
          ensures s.fix(attempt + i, r.codes[i], r.results[i].stderr) == Returned(r.codes[i + 1])
        {
          if i > 0 {
            assert r.codes[i] == rest.codes[i - 1] && r.codes[i + 1] == rest.codes[i];
            assert r.results[i] == rest.results[i - 1];
          }
        }
      } else if !result.success && attempt == MaxRetries {
        assert r.codes == [code];
      }
    }
  }

  /** How a session ends: with a success, with the fixer's exception after
      a failure before the last attempt, or with a failure on the last
      attempt. */
  lemma {:induction false} LastAttemptDecides(code: string, d: Disk, s: Setting, attempt: nat)
    requires 1 <= attempt <= MaxRetries
    ensures var r := Attempts(code, d, s, attempt);
      var n := |r.results|;
      && (r.results[n - 1].success ==> |r.calls| == n - 1)
      && (|r.calls| == n ==> attempt - 1 + n < MaxRetries && s.fix(attempt - 1 + n, r.codes[n - 1], r.results[n - 1].stderr).Raised?)
      && (!r.results[n - 1].success && |r.calls| < n ==> attempt - 1 + n == MaxRetries)
    decreases MaxRetries - attempt
  {
    var (result, after) := s.render(attempt, code, d);
    var r := Attempts(code, d, s, attempt);
    if result.success {
    } else if attempt < MaxRetries {
      if s.fix(attempt, code, result.stderr).Returned? {
        var next := s.fix(attempt, code, result.stderr).value;
        LastAttemptDecides(next, after, s, attempt + 1);
        var rest := Attempts(next, after, s, attempt + 1);
        assert r.results == [result] + rest.results;
        assert r.codes == [code] + rest.codes;
        assert r.calls == [FixRequest(code, result.stderr)] + rest.calls;
        assert r.results[|r.results| - 1] == rest.results[|rest.results| - 1];
        assert r.codes[|r.codes| - 1] == rest.codes[|rest.codes| - 1];
      }
    } else {
      assert r.results == [result];
    }
  }

  /** `execute_with_retry` as a whole: between one and three renders, the
      history numbered 1..n with the last entry's success equal to the
      result's, every earlier entry a failure, and the returned result the
      last sandbox result unchanged. */
  lemma RetryResultShape(code: string, d: Disk, s: Setting)
    ensures var session := Attempts(code, d, s, 1);
      var r := Annotate(session);
      && 1 <= r.attempts <= MaxRetries && r.attempts == |r.history|
      && r.result == session.results[|session.results| - 1]
      && (forall i :: 0 <= i < |r.history| ==> r.history[i].attempt == i + 1)
      && (forall i :: 0 <= i < |r.history| - 1 ==> !r.history[i].success)
      && r.history[|r.history| - 1].success == r.result.success
      && r.history[|r.history| - 1].exitCode == r.result.exitCode
  {
    FailuresBeforeLast(code, d, s, 1);
  }

  /** The fixer is called at most MaxRetries - 1 times, each time after a
      failure, and only a failure it raised on can follow a fixer call
      without a render. */
  lemma FixerCalls(code: string, d: Disk, s: Setting)
    ensures var r := Attempts(code, d, s, 1);
      && |r.calls| <= MaxRetries - 1
      && (forall i :: 0 <= i < |r.calls| ==> !r.results[i].success)
  {
    FailuresBeforeLast(code, d, s, 1);
    LastAttemptDecides(code, d, s, 1);
  }

  /** A fixer that never raises leaves a session that succeeded or used
      every attempt. */
  lemma {:induction false} ReliableFixerUsesAllAttempts(code: string, d: Disk, s: Setting)
    requires forall n, c, e :: s.fix(n, c, e).Returned?
    ensures var r := Annotate(Attempts(code, d, s, 1));
      r.result.success || r.attempts == MaxRetries
  {
    var r := Attempts(code, d, s, 1);
    LastAttemptDecides(code, d, s, 1);
    var n := |r.results|;
    assert !s.fix(n, r.codes[n - 1], r.results[n - 1].stderr).Raised?;
  }

  /** The repair stage as the fixer of the loop: after the failure of
      attempt `n` it is run on the script, with the prompt built from the
      script and its error output and the provider of that call. */
  function AgentFixer(prompt: (string, string) -> string, llms: nat -> Provider, compile: Compiler): Fixer
  {
    (n: nat, code: string, stderr: string) => FixerAgent.Fixer(code, prompt(code, stderr), llms(n), compile).out
  }

  /** The repair stage never raises, so with it as the fixer a session ends
      in a success or uses every attempt. */
  lemma AgentFixerUsesAllAttempts(code: string, d: Disk, render: Renderer,
                                  prompt: (string, string) -> string, llms: nat -> Provider, compile: Compiler)
    ensures var r := Annotate(Attempts(code, d, Setting(render, AgentFixer(prompt, llms, compile)), 1));
      r.result.success || r.attempts == MaxRetries
  {
    var s := Setting(render, AgentFixer(prompt, llms, compile));
    forall n: nat, c: string, e: string
      ensures s.fix(n, c, e).Returned?
    {
      assert FixerAgent.Fixer(c, prompt(c, e), llms(n), compile).out.Returned?;
    }
    ReliableFixerUsesAllAttempts(code, d, s);
  }

  class Manager {
    const sandbox: Sandbox
    const fix: Fixer
    const sceneName: string
    const worlds: nat -> World

    constructor (fixer: Fixer, sandbox: Sandbox, sceneName: string, worlds: nat -> World)
      ensures this.sandbox == sandbox && fix == fixer && this.sceneName == sceneName && this.worlds == worlds
    {
      this.sandbox := sandbox;
      fix := fixer;
      this.sceneName := sceneName;
      this.worlds := worlds;
    }

    /** The loop's collaborators: this manager's sandbox and fixer. */
    function Setup(): Setting
    {
      Setting(SandboxRender(sandbox.tempDir, sandbox.outputsDir, sceneName, worlds), fix)
    }

    /** One pass of the loop body: render `code`, and after a failure
        before the last attempt ask the fixer. `next` is the code for the
        next attempt, or None when the loop stops here (success, the fixer
        raised, or the last attempt failed). `done` is the session so far
        extended with this attempt; once the loop stops it is the whole
        session. */
    method Attempt(code: string, attempt: nat, ghost sofar: Session)
      returns (result: ExecutionResult, next: Option<string>, ghost done: Session)
      requires 1 <= attempt <= MaxRetries
      modifies sandbox
      ensures done.results == sofar.results + [result] && done.disk == Disk(sandbox.temp, sandbox.outputs)
      ensures next.Some? ==> !result.success && attempt < MaxRetries
      ensures next.None? ==>
        Then(sofar, Attempts(code, Disk(old(sandbox.temp), old(sandbox.outputs)), Setup(), attempt)) == done
      ensures next.Some? ==>
        Then(sofar, Attempts(code, Disk(old(sandbox.temp), old(sandbox.outputs)), Setup(), attempt))
        == Then(done, Attempts(next.value, done.disk, Setup(), attempt + 1))
    {
      ghost var before := Disk(sandbox.temp, sandbox.outputs);
      result := sandbox.Execute(code, sceneName, worlds(attempt));
      ghost var after := Disk(sandbox.temp, sandbox.outputs);
      AttemptsStep(code, before, Setup(), attempt, result, after);
      ghost var head := Session([code], [result], [], after);
      if result.success {
        return result, None, Then(sofar, head);
      }
      if attempt == MaxRetries {
        AttemptsExhausted(head, code, after, Setup());
        return result, None, Then(sofar, head);
      }
      var fixed := fix(attempt, code, result.stderr);
      head := head.(calls := [FixRequest(code, result.stderr)]);
      if fixed.Raised? {
        return result, None, Then(sofar, head);
      }
      ThenAssoc(sofar, head, Attempts(fixed.value, after, Setup(), attempt + 1));
      return result, Some(fixed.value), Then(sofar, head);
    }

    method ExecuteWithRetry(initialCode: string) returns (r: RetryResult)
      modifies sandbox
      ensures var session := Attempts(initialCode, Disk(old(sandbox.temp), old(sandbox.outputs)), Setup(), 1);
        r == Annotate(session) && Disk(sandbox.temp, sandbox.outputs) == session.disk
    {
      ghost var full := Attempts(initialCode, Disk(sandbox.temp, sandbox.outputs), Setup(), 1);
      ghost var done := Session([], [], [], Disk(sandbox.temp, sandbox.outputs));
      assert full == Then(done, full);
      var currentCode := initialCode;
      var history: seq<HistoryEntry> := [];
      var result: ExecutionResult;
      var attempt := 1;
      while true
        invariant 1 <= attempt <= MaxRetries
        invariant full == Then(done, Attempts(currentCode, Disk(sandbox.temp, sandbox.outputs), Setup(), attempt))
        invariant |done.results| == attempt - 1 && history == History(done.results)
        decreases MaxRetries - attempt
      {
        var next: Option<string>;
        ghost var prior := done.results;
        result, next, done := Attempt(currentCode, attempt, done);
        history := history + [HistoryEntry(attempt, result.exitCode, result.success)];
        HistorySnoc(prior, result);
        if next.None? {
          break;
        }
        currentCode := next.value;
        attempt := attempt + 1;
      }
      // The loop is over: annotate the last result.
      Annotated(done, result, history);
      r := RetryResult(result, |history|, history);
    }
  }

  /** One step of `Attempts`, given what the render of this attempt did. */
  lemma AttemptsStep(code: string, d: Disk, s: Setting, attempt: nat, result: ExecutionResult, after: Disk)
    requires 1 <= attempt <= MaxRetries
    requires s.render(attempt, code, d) == (result, after)
    ensures var r := Attempts(code, d, s, attempt);
      var call := [FixRequest(code, result.stderr)];
      && (result.success ==> r == Session([code], [result], [], after))
      && (!result.success && attempt < MaxRetries && s.fix(attempt, code, result.stderr).Raised? ==>
            r == Session([code], [result], call, after))
      && (!result.success && attempt < MaxRetries && s.fix(attempt, code, result.stderr).Returned? ==>
            r == Then(Session([code], [result], call, after), Attempts(s.fix(attempt, code, result.stderr).value, after, s, attempt + 1)))
      && (!result.success && attempt == MaxRetries ==>
            r == Then(Session([code], [result], [], after), Attempts(code, after, s, attempt + 1)))
  {
  }

  /** The returned record: the last result, the number of renders and the
      history. */
  lemma Annotated(session: Session, result: ExecutionResult, history: seq<HistoryEntry>)
    requires session.results != [] && result == session.results[|session.results| - 1]
    requires history == History(session.results)
    ensures RetryResult(result, |history|, history) == Annotate(session)
  {
  }

  /** Past the last attempt nothing more happens. */
  lemma AttemptsExhausted(done: Session, code: string, d: Disk, s: Setting)
    ensures Then(done, Attempts(code, d, s, MaxRetries + 1)) == done.(disk := d)
  {
    assert done.codes + [] == done.codes && done.results + [] == done.results && done.calls + [] == done.calls;
  }

  lemma ThenAssoc(a: Session, b: Session, c: Session)
    ensures Then(Then(a, b), c) == Then(a, Then(b, c))
  {
    assert (a.codes + b.codes) + c.codes == a.codes + (b.codes + c.codes);
    assert (a.results + b.results) + c.results == a.results + (b.results + c.results);
    assert (a.calls + b.calls) + c.calls == a.calls + (b.calls + c.calls);
  }

  lemma HistorySnoc(results: seq<ExecutionResult>, last: ExecutionResult)
    ensures History(results + [last]) == History(results) + [HistoryEntry(|results| + 1, last.exitCode, last.success)]
  {
  }
}
