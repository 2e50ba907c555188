/** The pipeline controller (aoai/pipeline/orchestrator.py): runs the
    reasoning, scene-planning and code-generation stages in order, each on
    the previous stage's output, saves the generated script, optionally
    renders it through the retry manager, and reports the outcome together
    with a session log built key by key. */
module Orchestrator {
  import opened Common
  import opened JsonSchemas
  import LogicianAgent
  import DirectorAgent
  import EngineerAgent
  import opened ExecutionSandbox
  import opened RetryManager

  /** What the three generation stages see: the prompts `get_prompt` renders
      for them (from the user's question, the reasoning and the manifest;
      the template text is not modelled), the provider behind each stage,
      `json.loads` and `compile`. */
  datatype Inputs = Inputs(
    logicianPrompt: string,
    directorPrompt: Json -> string,
    engineerPrompt: Json -> string,
    logicianLlm: Provider,
    directorLlm: Provider,
    engineerLlm: Provider,
    decode: Decoder,
    compile: Compiler)

  /** The dictionary `run` returns: on success the path of the saved script,
      the video path (None unless a render succeeded) and the session log;
      on failure the exception's message and the session log. */
  datatype PipelineResult =
    | Completed(codePath: string, videoPath: Option<string>, logs: Json)
    | Failed(error: string, logs: Json)

  /** A run as a whole: the result, the script `save_code` wrote (if any),
      and the script handed to the retry manager (if any). */
  datatype PipelineRun = PipelineRun(result: PipelineResult, saved: Option<string>, executed: Option<string>)

  const NoRetryManager := "'NoneType' object has no attribute 'execute_with_retry'"

  /** The session log of a run: the question, the stage outputs recorded so
      far, and the closing keys (timestamps and duration are not modelled). */
  function SuccessLog(userPrompt: string, stages: map<string, Json>, videoPath: Option<string>): Json
  {
    JObj(map["user_prompt" := JStr(userPrompt), "stages" := JObj(stages), "success" := JBool(true),
             "video_path" := if videoPath.Some? then JStr(videoPath.value) else JNull])
  }

  function FailureLog(userPrompt: string, stages: map<string, Json>, error: string): Json
  {
    JObj(map["user_prompt" := JStr(userPrompt), "stages" := JObj(stages), "success" := JBool(false),
             "error" := JStr(error)])
  }

  function Failure(userPrompt: string, stages: map<string, Json>, e: Exc): PipelineResult
  {
    Failed(Message(e), FailureLog(userPrompt, stages, Message(e)))
  }

  /** How far the three generation stages got: the exception of the first
      stage that raised, with the outputs of the stages before it, or all
      three outputs. */
  datatype Generation =
    | ReasoningFailed(exc: Exc)
    | PlanningFailed(reasoning: Json, exc: Exc)
    | CodingFailed(reasoning: Json, manifest: Json, exc: Exc)
    | Produced(reasoning: Json, manifest: Json, code: string)

  /** The stages in order, each on the previous stage's output; a stage
      after one that raised is not run. */
  function Generate(w: Inputs): (g: Generation)
    ensures !g.ReasoningFailed? ==> IsReasoning(g.reasoning)
    ensures g.CodingFailed? || g.Produced? ==> IsManifest(g.manifest)
    ensures g.Produced? ==> IsSceneScript(g.code, w.compile)
  {
    match LogicianAgent.Logician(w.logicianPrompt, w.logicianLlm, w.decode).out
    case Raised(e) => ReasoningFailed(e)
    case Returned(reasoning) =>
      match DirectorAgent.Director(reasoning, w.directorPrompt(reasoning), w.directorLlm, w.decode).out
      case Raised(e) => PlanningFailed(reasoning, e)
      case Returned(manifest) =>
        match EngineerAgent.Engineer(manifest, w.engineerPrompt(manifest), w.engineerLlm, w.compile).out
        case Raised(e) => CodingFailed(reasoning, manifest, e)
        case Returned(code) => Produced(reasoning, manifest, code)
  }

  /** The `stages` entry of the session log: the outputs recorded so far. */
  function Recorded(g: Generation): map<string, Json>
  {
    match g
    case ReasoningFailed(_) => map[]
    case PlanningFailed(reasoning, _) => map["reasoning" := reasoning]
    case CodingFailed(reasoning, manifest, _) => map["reasoning" := reasoning, "scene_manifest" := manifest]
    case Produced(reasoning, manifest, code) =>
      map["reasoning" := reasoning, "scene_manifest" := manifest, "code_length" := JNum(|code|)]
  }

  /** `Orchestrator.run` on the stage results `g`, given what the retry
      manager makes of a script (`retry`) and whether there is one. */
  function Pipeline(userPrompt: string, execute: bool, g: Generation, outputsDir: string,
                    hasRetryManager: bool, retry: string -> RetryResult): PipelineRun
  {
    if !g.Produced? then PipelineRun(Failure(userPrompt, Recorded(g), g.exc), None, None)
    else if !execute then
      PipelineRun(Completed(outputsDir + "/scene.py", None, SuccessLog(userPrompt, Recorded(g), None)), Some(g.code), None)
    else if !hasRetryManager then
      PipelineRun(Failure(userPrompt, Recorded(g), AttributeError(NoRetryManager)), Some(g.code), None)
    else
      var video := if retry(g.code).result.success then retry(g.code).result.videoPath else None;
      PipelineRun(Completed(outputsDir + "/scene.py", video, SuccessLog(userPrompt, Recorded(g), video)), Some(g.code), Some(g.code))
  }

  /** Stands in for the retry manager where there is none; `Pipeline`
      never consults it then. */
  function NoRetry(code: string): RetryResult
  {
    RetryResult(ExecutionResult(false, None, "", "", 0), 0, [])
  }

  // ---------------------------------------------------------------------
  // Properties of a run
  // ---------------------------------------------------------------------

  /** Overall success depends only on the three generation stages (and on
      there being a retry manager when rendering is asked for): the render's
      own outcome never turns a run into a failure. The script is saved
      exactly when the engineer returned, whatever the render does. */
  lemma SuccessIffStagesReturn(userPrompt: string, execute: bool, g: Generation, outputsDir: string,
                               hasRetryManager: bool, retry: string -> RetryResult)
    ensures var run := Pipeline(userPrompt, execute, g, outputsDir, hasRetryManager, retry);
      && (run.result.Completed? <==> g.Produced? && (execute ==> hasRetryManager))
      && (run.saved.Some? <==> g.Produced?)
      && (run.saved.Some? ==> run.saved.value == g.code)
      && (run.executed.Some? <==> g.Produced? && execute && hasRetryManager)
      && (run.executed.Some? ==> run.executed == run.saved)
  {
  }

  /** A failed run reports the first stage exception (or the missing retry
      manager), has no `video_path` key, and its log says `success: false`
      and records exactly the outputs of the stages that returned. */
  lemma FailureReport(userPrompt: string, execute: bool, g: Generation, outputsDir: string,
                      hasRetryManager: bool, retry: string -> RetryResult)
    ensures var run := Pipeline(userPrompt, execute, g, outputsDir, hasRetryManager, retry);
      run.result.Failed? ==>
        && run.result.logs.JObj?
        && run.result.logs.fields["success"] == JBool(false)
        && "video_path" !in run.result.logs.fields
        && run.result.logs.fields["error"] == JStr(run.result.error)
        && (!g.Produced? ==> run.result.error == Message(g.exc))
        && (g.Produced? ==> run.result.error == NoRetryManager)
        && ("reasoning" in run.result.logs.fields["stages"].fields <==> !g.ReasoningFailed?)
        && ("scene_manifest" in run.result.logs.fields["stages"].fields <==> g.CodingFailed? || g.Produced?)
        && ("code_length" in run.result.logs.fields["stages"].fields <==> g.Produced?)
  {
  }

  /** A completed run's log records the reasoning, the manifest and the
      script's length, says `success: true`, and carries the same video
      path as the result; the video path is set only when a render ran and
      succeeded. */
  lemma CompletedReport(userPrompt: string, execute: bool, g: Generation, outputsDir: string,
                        hasRetryManager: bool, retry: string -> RetryResult)
    ensures var run := Pipeline(userPrompt, execute, g, outputsDir, hasRetryManager, retry);
      run.result.Completed? ==>
        && g.Produced?
        && run.result.codePath == outputsDir + "/scene.py"
        && run.result.logs.fields["stages"].fields
           == map["reasoning" := g.reasoning, "scene_manifest" := g.manifest, "code_length" := JNum(|g.code|)]
        && run.result.logs.fields["success"] == JBool(true)
        && run.result.logs.fields["video_path"] == (if run.result.videoPath.Some? then JStr(run.result.videoPath.value) else JNull)
        && (run.result.videoPath.Some? <==> execute && retry(g.code).result.success && retry(g.code).result.videoPath.Some?)
        && (run.result.videoPath.Some? ==> run.result.videoPath == retry(g.code).result.videoPath)
  {
  }

  /** A stage that is not reached has no influence: when the reasoning
      stage raises, the later stages' providers do not matter, and when the
      planning stage raises, the engineer's does not. */
  lemma LaterStagesNotCalled(w: Inputs, directorLlm: Provider, engineerLlm: Provider)
    ensures Generate(w).ReasoningFailed? ==>
      Generate(w) == Generate(w.(directorLlm := directorLlm, engineerLlm := engineerLlm))
    ensures Generate(w).PlanningFailed? ==> Generate(w) == Generate(w.(engineerLlm := engineerLlm))
  {
  }

  class Pipeliner {
    const outputsDir: string
    /** The narrator is kept but no step of `run` uses it. */
    const narrator: Option<Provider>
    const retryManager: Option<Manager>
    /** The content of `outputs/scene.py` as `save_code` last wrote it. */
    var savedCode: Option<string>

    constructor (storagePath: string, narrator: Option<Provider>, retryManager: Option<Manager>, savedCode: Option<string>)
      ensures outputsDir == storagePath + "/outputs" && this.narrator == narrator && this.retryManager == retryManager
      ensures this.savedCode == savedCode
    {
      outputsDir := storagePath + "/outputs";
      this.narrator := narrator;
      this.retryManager := retryManager;
      this.savedCode := savedCode;
    }

    /** The objects `run` may change: itself and the retry manager's sandbox. */
    function Footprint(): set<object>
    {
      if retryManager.Some? then {this, retryManager.value.sandbox} else {this}
    }

    /** Phases 1 to 3 of `run`: each agent on the previous one's output,
        stopping at the first that raises, with the `stages` log filled in
        as each returns. */
    static method RunStages(w: Inputs) returns (g: Generation, stages: map<string, Json>)
      ensures g == Generate(w) && stages == Recorded(g)
    {
      stages := map[];
      // Phase 1: mathematical reasoning.
      var reasoning := LogicianAgent.Process(w.logicianPrompt, w.logicianLlm, w.decode);
      if reasoning.out.Raised? {
        return ReasoningFailed(reasoning.out.exc), stages;
      }
      stages := stages["reasoning" := reasoning.out.value];
      // Phase 2: scene planning.
      var manifest := DirectorAgent.Process(reasoning.out.value, w.directorPrompt(reasoning.out.value), w.directorLlm, w.decode);
      if manifest.out.Raised? {
        return PlanningFailed(reasoning.out.value, manifest.out.exc), stages;
      }
      stages := stages["scene_manifest" := manifest.out.value];
      // Phase 3: code generation.
      var code := EngineerAgent.Process(manifest.out.value, w.engineerPrompt(manifest.out.value), w.engineerLlm, w.compile);
      if code.out.Raised? {
        return CodingFailed(reasoning.out.value, manifest.out.value, code.out.exc), stages;
      }
      stages := stages["code_length" := JNum(|code.out.value|)];
      g := Produced(reasoning.out.value, manifest.out.value, code.out.value);
    }

    /** `Orchestrator.run`: the three generation stages, saving the script,
        and the optional render through the retry manager. */
    method Run(userPrompt: string, execute: bool, w: Inputs) returns (r: PipelineResult)
      modifies Footprint()
      ensures retryManager.None? ==>
        var run := Pipeline(userPrompt, execute, Generate(w), outputsDir, false, NoRetry);
        r == run.result && savedCode == (if run.saved.Some? then run.saved else old(savedCode))
      ensures retryManager.Some? ==>
        var m := retryManager.value;
        var d0 := Disk(old(m.sandbox.temp), old(m.sandbox.outputs));
        var run := Pipeline(userPrompt, execute, Generate(w), outputsDir, true, code => Annotate(Attempts(code, d0, m.Setup(), 1)));
        && r == run.result && savedCode == (if run.saved.Some? then run.saved else old(savedCode))
        && Disk(m.sandbox.temp, m.sandbox.outputs) == (if run.executed.Some? then Attempts(run.executed.value, d0, m.Setup(), 1).disk else d0)
    {
      var g, stages := RunStages(w);
      r := Conclude(userPrompt, execute, g, stages);
    }

    /** What `run` does once the generation stages are over: report the
        failing stage, or save the script and render it when asked to. */
    method Conclude(userPrompt: string, execute: bool, g: Generation, stages: map<string, Json>) returns (r: PipelineResult)
      requires stages == Recorded(g)
      modifies Footprint()
      ensures retryManager.None? ==>
        var run := Pipeline(userPrompt, execute, g, outputsDir, false, NoRetry);
        r == run.result && savedCode == (if run.saved.Some? then run.saved else old(savedCode))
      ensures retryManager.Some? ==>
        var m := retryManager.value;
        var d0 := Disk(old(m.sandbox.temp), old(m.sandbox.outputs));
        var run := Pipeline(userPrompt, execute, g, outputsDir, true, code => Annotate(Attempts(code, d0, m.Setup(), 1)));
        && r == run.result && savedCode == (if run.saved.Some? then run.saved else old(savedCode))
        && Disk(m.sandbox.temp, m.sandbox.outputs) == (if run.executed.Some? then Attempts(run.executed.value, d0, m.Setup(), 1).disk else d0)
    {
      if !g.Produced? {
        return Failure(userPrompt, stages, g.exc);
      }
      savedCode := Some(g.code);
      // Phase 4: optional rendering.
      var videoPath: Option<string> := None;
      if execute {
        if retryManager.None? {
          return Failure(userPrompt, stages, AttributeError(NoRetryManager));
        }
        var execution := retryManager.value.ExecuteWithRetry(g.code);
        if execution.result.success {
          videoPath := execution.result.videoPath;
        }
      }
      r := Completed(outputsDir + "/scene.py", videoPath, SuccessLog(userPrompt, stages, videoPath));
    }
  }
}
