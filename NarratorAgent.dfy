/** The narration stage (aoai/agents/narrator_agent.py): asks the provider
    for a voice-over script per scene, accepts a bare JSON answer or one
    wrapped in a ```json fence, and falls back to a narration made of the
    scene titles. Its prompt comes from `get_prompt('narrator', ...)`, which
    raises unless a narrator template exists; the template set is a
    parameter so that the rest of the stage can be stated at all. */
module NarratorAgent {
  import opened Common

  const MaxRetry: nat := 2
  const JsonOpen := "```json"

  // ---------------------------------------------------------------------
  // `str.split` on the fenced answer
  // ---------------------------------------------------------------------

  /** `s.split(sep)[0]`: the text before the first `sep`, or all of `s`. */
  function Before(s: string, sep: string): (r: string)
    requires sep != []
    ensures |r| <= |s| && r == s[..|r|]
    ensures Contains(s, sep) ==> OccursAt(s, sep, |r|) && !Contains(r, sep)
    ensures !Contains(s, sep) ==> r == s
  {
    match IndexOf(s, sep)
    case None => s
    case Some(i) =>
      assert !Contains(s[..i], sep) by {
        forall j | 0 <= j <= i ensures !OccursAt(s[..i], sep, j) {
          if j + |sep| <= i {
            assert s[..i][j..j + |sep|] == s[j..j + |sep|];
            assert !OccursAt(s, sep, j);
          }
        }
      }
      s[..i]
  }

  /** The text after the first `sep`. */
  function After(s: string, sep: string): (r: string)
    requires Contains(s, sep)
    ensures |r| + |sep| <= |s| && r == s[|s| - |r|..]
    ensures OccursAt(s, sep, |s| - |r| - |sep|)
  {
    s[IndexOf(s, sep).value + |sep|..]
  }

  /** `raw.split("```json")[1].split("```")[0]`: from the first "```json"
      up to the next "```json" or "```", whichever comes first. */
  function FencedJson(raw: string): (r: string)
    requires Contains(raw, JsonOpen)
    ensures !Contains(r, Fence)
  {
    Before(Before(After(raw, JsonOpen), JsonOpen), Fence)
  }

  /** A fence-free JSON text wrapped in a ```json fence, closed on its own
      line, is found again. */
  lemma FencedJsonRoundTrip(body: string)
    requires !Contains(body, Fence)
    ensures Contains(JsonOpen + body + "\n```", JsonOpen)
    ensures FencedJson(JsonOpen + body + "\n```") == body + "\n"
  {
    var raw := JsonOpen + body + "\n```";
    var tail := body + "\n```";
    assert OccursAt(raw, JsonOpen, 0) by { assert raw[0..7] == JsonOpen; }
    OccursContains(raw, JsonOpen, 0);
    assert After(raw, JsonOpen) == tail by {
      assert raw[7..] == tail;
    }
    ClosingFence(body);
    assert !Contains(tail, JsonOpen) by {
      if Contains(tail, JsonOpen) {
        var j := IndexOf(tail, JsonOpen).value;
        PrefixOccurs(tail, JsonOpen, Fence, j);
        assert false;
      }
    }
    assert tail[..|body| + 1] == body + "\n";
  }

  // ---------------------------------------------------------------------
  // One attempt
  // ---------------------------------------------------------------------

  /** The preview printed for one narration: `narr.get('text', '')[:50]`,
      which raises unless `narr` is a dict whose text (default "") can be
      sliced. */
  function PreviewFault(narr: Json): (r: Option<Exc>)
    ensures r.None? <==>
      narr.JObj? && ("text" in narr.fields ==> narr.fields["text"].JStr? || narr.fields["text"].JArr?)
  {
    match narr
    case JObj(f) =>
      var text := if "text" in f then f["text"] else JStr("");
      if text.JStr? || text.JArr? then None
      else if text.JObj? then Some(TypeError("unhashable type: 'slice'"))
      else Some(TypeError("'" + TypeName(text) + "' object is not subscriptable"))
    case _ => Some(AttributeError("'" + TypeName(narr) + "' object has no attribute 'get'"))
  }

  /** The first preview, at or after `from`, that raises. */
  function FirstPreviewFault(narrations: seq<Json>, from: nat): (r: Option<Exc>)
    requires from <= |narrations|
    ensures r.None? <==> forall i :: from <= i < |narrations| ==> PreviewFault(narrations[i]).None?
    decreases |narrations| - from
  {
    if from == |narrations| then None
    else if PreviewFault(narrations[from]).Some? then PreviewFault(narrations[from])
    else FirstPreviewFault(narrations, from + 1)
  }

  /** A parsed answer the stage accepts straight away: an object whose
      `narrations` is a list of dicts, each with a sliceable `text`. */
  predicate IsNarration(d: Json)
  {
    d.JObj? && "narrations" in d.fields && d.fields["narrations"].JArr?
    && forall i :: 0 <= i < |d.fields["narrations"].items| ==> PreviewFault(d.fields["narrations"].items[i]).None?
  }

  /** What one attempt makes of the provider's reply. */
  datatype Step = Found(data: Json) | Unusable | Failed(exc: Exc)

  /** One pass through the body of the outer `try`: call the provider, parse
      the answer, and on a decode error look for a ```json fence. */
  function Judge(reply: Reply, decode: Decoder): (s: Step)
    ensures reply.Fault? ==> s == Failed(ProviderError(reply.error))
    ensures reply.Answer? && decode(reply.text).Doc? ==>
      (s.Found? <==> IsNarration(decode(reply.text).value))
    ensures s.Found? && decode(reply.text).Doc? ==> s.data == decode(reply.text).value
    ensures s.Found? && decode(reply.text).DecodeError? ==>
      && Contains(reply.text, JsonOpen)
      && decode(Strip(FencedJson(reply.text))) == Doc(s.data)
      && Has(s.data, "narrations") == Returned(true)
    // A parsed answer: a raising check fails the attempt, a missing or
    // non-list `narrations` makes it unusable.
    ensures reply.Answer? && decode(reply.text).Doc? ==>
      var data := decode(reply.text).value;
      && (Has(data, "narrations").Raised? ==> s == Failed(Has(data, "narrations").exc))
      && (Has(data, "narrations") == Returned(false) ==> s == Unusable)
      && (Has(data, "narrations") == Returned(true) ==>
            var field := Subscript(data, "narrations");
            && (field.Raised? ==> s == Failed(field.exc))
            && (field.Returned? && !field.value.JArr? ==> s == Unusable)
            && (field.Returned? && field.value.JArr? && FirstPreviewFault(field.value.items, 0).Some? ==>
                  s == Failed(FirstPreviewFault(field.value.items, 0).value)))
    // An answer that does not parse: no ```json fence makes it unusable,
    // a fenced text that does not parse fails with the decode error, and a
    // fenced document is unusable without `narrations`.
    ensures reply.Answer? && decode(reply.text).DecodeError? ==>
      && (!Contains(reply.text, JsonOpen) ==> s == Unusable)
      && (Contains(reply.text, JsonOpen) ==>
            var fenced := decode(Strip(FencedJson(reply.text)));
            && (fenced.DecodeError? ==> s == Failed(JsonDecodeError(fenced.msg)))
            && (fenced.Doc? && Has(fenced.value, "narrations").Raised? ==>
                  s == Failed(Has(fenced.value, "narrations").exc))
            && (fenced.Doc? && Has(fenced.value, "narrations") == Returned(false) ==> s == Unusable))
  {
    match reply
    case Fault(e) => Failed(ProviderError(e))
    case Answer(raw) =>
      match decode(raw)
      case Doc(data) => (
        match Has(data, "narrations")
        case Raised(e) => Failed(e)
        case Returned(present) =>
          if !present then Unusable
          else
            match Subscript(data, "narrations")
            case Raised(e) => Failed(e)
            case Returned(narrations) =>
              if !narrations.JArr? then Unusable
              else
                match FirstPreviewFault(narrations.items, 0)
                case Some(e) => Failed(e)
                case None => Found(data))
      case DecodeError(_) =>
        if !Contains(raw, JsonOpen) then Unusable
        else
          match decode(Strip(FencedJson(raw)))
          case DecodeError(m) => Failed(JsonDecodeError(m))
          case Doc(data) =>
            match Has(data, "narrations")
            case Raised(e) => Failed(e)
            case Returned(present) => if present then Found(data) else Unusable
  }

  /** The fenced branch checks only that `narrations` is present: any value
      under it is accepted. */
  lemma FencedNarrationsUnchecked(raw: string, decode: Decoder, fields: map<string, Json>)
    requires decode(raw).DecodeError? && Contains(raw, JsonOpen)
    requires decode(Strip(FencedJson(raw))) == Doc(JObj(fields)) && "narrations" in fields
    ensures Judge(Answer(raw), decode) == Found(JObj(fields))
  {
  }

  // ---------------------------------------------------------------------
  // The attempts and the fallback
  // ---------------------------------------------------------------------

  /** Attempts `attempt` to MaxRetry, all sent with the same `prompt`: an
      accepted answer ends the stage, an unusable answer or an exception
      before the last attempt is followed by another try, and the outcome
      `None` asks for the fallback. */
  function Attempts(llm: Provider, decode: Decoder, attempt: nat, prompt: string): (r: StageRun<Option<Json>>)
    requires 1 <= attempt <= MaxRetry
    ensures 1 <= |r.prompts| <= MaxRetry - attempt + 1
    ensures forall i :: 0 <= i < |r.prompts| ==> r.prompts[i] == prompt
    ensures r.out == Returned(None) ==> attempt - 1 + |r.prompts| == MaxRetry
    decreases MaxRetry - attempt
  {
    match Judge(llm(attempt - 1, prompt), decode)
    case Found(d) => StageRun(Returned(Some(d)), [prompt])
    case Unusable =>
      if attempt < MaxRetry then Preceded([prompt], Attempts(llm, decode, attempt + 1, prompt))
      else StageRun(Returned(None), [prompt])
    case Failed(e) =>
      if attempt < MaxRetry then Preceded([prompt], Attempts(llm, decode, attempt + 1, prompt))
      else StageRun(Raised(e), [prompt])
  }

  /** The fallback entry for the scene at index `i`. */
  function NarrationEntry(i: nat, title: Json): Json
  {
    JObj(map["scene_index" := JNum(i), "text" := title, "duration" := JNum(3)])
  }

  /** The fallback entries for the scenes from `from` on, in order; the
      first scene that is not a dict with a `title` raises. */
  function FallbackEntries(scenes: seq<Json>, from: nat): (r: Outcome<seq<Json>>)
    requires from <= |scenes|
    ensures r.Returned? <==> forall i :: from <= i < |scenes| ==> scenes[i].JObj? && "title" in scenes[i].fields
    ensures r.Returned? ==> |r.value| == |scenes| - from
    ensures r.Returned? ==> forall k :: 0 <= k < |r.value| ==>
      r.value[k] == NarrationEntry(from + k, scenes[from + k].fields["title"])
    decreases |scenes| - from
  {
    if from == |scenes| then Returned([])
    else
      match Subscript(scenes[from], "title")
      case Raised(e) => Raised(e)
      case Returned(title) =>
        match FallbackEntries(scenes, from + 1)
        case Raised(e) => Raised(e)
        case Returned(rest) => Returned([NarrationEntry(from, title)] + rest)
  }

  /** The fallback narration built from `scene_manifest["scenes"]`. Iterating
      a str or a dict yields strings, whose `["title"]` raises. */
  function Fallback(scenes: Json): (r: Outcome<Json>)
    ensures scenes.JArr? ==> (r.Returned? <==> FallbackEntries(scenes.items, 0).Returned?)
    ensures scenes.JArr? && r.Returned? ==> r.value == JObj(map["narrations" := JArr(FallbackEntries(scenes.items, 0).value)])
  {
    match scenes
    case JArr(items) => (
      match FallbackEntries(items, 0)
      case Raised(e) => Raised(e)
      case Returned(entries) => Returned(JObj(map["narrations" := JArr(entries)])))
    case JStr(s) =>
      if s == [] then Returned(JObj(map["narrations" := JArr([])]))
      else Raised(TypeError("string indices must be integers, not 'str'"))
    case JObj(f) =>
      if |f| == 0 then Returned(JObj(map["narrations" := JArr([])]))
      else Raised(TypeError("string indices must be integers, not 'str'"))
    case _ => Raised(TypeError("'" + TypeName(scenes) + "' object is not iterable"))
  }

  /** The fallback has exactly one entry per scene: its index, its title and
      a duration of 3. */
  lemma FallbackOnePerScene(scenes: seq<Json>)
    requires forall i :: 0 <= i < |scenes| ==> scenes[i].JObj? && "title" in scenes[i].fields
    ensures Fallback(JArr(scenes)).Returned?
    ensures var n := Fallback(JArr(scenes)).value.fields["narrations"].items;
      && |n| == |scenes|
      && forall i :: 0 <= i < |scenes| ==>
           n[i].fields["scene_index"] == JNum(i) && n[i].fields["text"] == scenes[i].fields["title"]
           && n[i].fields["duration"] == JNum(3)
  {
    var n := FallbackEntries(scenes, 0).value;
    forall i | 0 <= i < |scenes|
      ensures n[i] == NarrationEntry(i, scenes[i].fields["title"])
    {
    }
  }

  // ---------------------------------------------------------------------
  // The stage
  // ---------------------------------------------------------------------

  /** What the stage makes of a run of attempts. */
  function Conclude(scenes: Json, run: StageRun<Option<Json>>): StageRun<Json>
  {
    match run.out
    case Raised(e) => StageRun(Raised(e), run.prompts)
    case Returned(Some(d)) => StageRun(Returned(d), run.prompts)
    case Returned(None) => StageRun(Fallback(scenes), run.prompts)
  }

  /** `NarratorAgent.process`: the input summary reads
      `len(scene_manifest['scenes'])`, then the prompt is built; either can
      raise before any provider call. Then at most two calls, all with the
      same prompt. */
  function Narrator(manifest: Json, templates: set<string>, rendered: string, llm: Provider, decode: Decoder): (r: StageRun<Json>)
    ensures LenOf(manifest, "scenes").Raised? ==> r == StageRun(Raised(LenOf(manifest, "scenes").exc), [])
    ensures LenOf(manifest, "scenes").Returned? && "narrator" !in templates ==>
      r == StageRun(Raised(ValueError("Unknown agent: narrator")), [])
    ensures |r.prompts| <= MaxRetry && forall i :: 0 <= i < |r.prompts| ==> r.prompts[i] == rendered
  {
    match LenOf(manifest, "scenes")
    case Raised(e) => StageRun(Raised(e), [])
    case Returned(_) =>
      match GetPrompt(templates, "narrator", rendered)
      case Raised(e) => StageRun(Raised(e), [])
      case Returned(prompt) => Conclude(manifest.fields["scenes"], Attempts(llm, decode, 1, prompt))
  }

  /** With the templates `get_prompt` actually holds, the stage never reaches
      the provider: it always raises, and with a well-formed manifest the
      exception is the unknown-agent ValueError. */
  lemma ShownTemplatesAlwaysRaise(manifest: Json, rendered: string, llm: Provider, decode: Decoder)
    ensures var r := Narrator(manifest, PromptTemplates, rendered, llm, decode);
      && r.out.Raised? && r.prompts == []
      && (LenOf(manifest, "scenes").Returned? ==> r.out.exc == ValueError("Unknown agent: narrator"))
  {
    assert "narrator" !in PromptTemplates;
  }

  /** With a narrator template, the two-attempt policy written out: an
      accepted first answer is returned as parsed; otherwise the same prompt
      is sent again and the second answer is returned if accepted, re-raises
      its exception, or leads to the fallback narration. */
  lemma NarratorPolicy(manifest: Json, templates: set<string>, rendered: string, llm: Provider, decode: Decoder)
    requires LenOf(manifest, "scenes").Returned? && "narrator" in templates
    ensures var r := Narrator(manifest, templates, rendered, llm, decode);
      var first := Judge(llm(0, rendered), decode);
      var second := Judge(llm(1, rendered), decode);
      && (first.Found? ==> r == StageRun(Returned(first.data), [rendered]))
      && (!first.Found? ==>
            && r.prompts == [rendered, rendered]
            && (second.Found? ==> r.out == Returned(second.data))
            && (second.Failed? ==> r.out == Raised(second.exc))
            && (second.Unusable? ==> r.out == Fallback(manifest.fields["scenes"])))
  {
  }

  method Process(manifest: Json, templates: set<string>, rendered: string, llm: Provider, decode: Decoder)
    returns (r: StageRun<Json>)
    ensures r == Narrator(manifest, templates, rendered, llm, decode)
  {
    var count := LenOf(manifest, "scenes");
    if count.Raised? {
      return StageRun(Raised(count.exc), []);
    }
    var built := GetPrompt(templates, "narrator", rendered);
    if built.Raised? {
      return StageRun(Raised(built.exc), []);
    }
    var prompt := built.value;
    var sent: seq<string> := [];
    for attempt := 1 to MaxRetry + 1
      invariant attempt <= MaxRetry ==>
        Narrator(manifest, templates, rendered, llm, decode)
          == Conclude(manifest.fields["scenes"], Preceded(sent, Attempts(llm, decode, attempt, prompt)))
      invariant attempt == MaxRetry + 1 ==>
        Narrator(manifest, templates, rendered, llm, decode) == StageRun(Fallback(manifest.fields["scenes"]), sent)
    {
      sent := sent + [prompt];
      var step := Judge(llm(attempt - 1, prompt), decode);
      match step
      case Found(narrationData) =>
        return StageRun(Returned(narrationData), sent);
      case Unusable =>
      case Failed(e) =>
        if attempt >= MaxRetry {
          return StageRun(Raised(e), sent);
        }
    }
    r := StageRun(Fallback(manifest.fields["scenes"]), sent);
  }
}
