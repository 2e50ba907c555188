/** The checks each stage applies to the language model's output before
    handing it to the next stage (aoai/utils/json_schemas.py). The JSON
    validators receive what `json.loads` made of the raw text; the code
    validators receive the compiler as an oracle. */
module JsonSchemas {
  import opened Common

  /** A validator's verdict: the parsed document it accepts, the message it
      rejects with, or the exception that escapes it (the validators catch
      only JSON decode errors, so Python's `in` and `[]` on a document that
      is not an object can raise). */
  datatype Verdict = Accepted(data: Json) | Rejected(reason: string) | Threw(exc: Exc)

  // ---------------------------------------------------------------------
  // Logician output
  // ---------------------------------------------------------------------

  /** The shape the logician's output must have: an object with a `concept`
      of any kind and a non-empty list of `steps`. */
  predicate IsReasoning(d: Json)
  {
    d.JObj? && "concept" in d.fields && "steps" in d.fields
    && d.fields["steps"].JArr? && |d.fields["steps"].items| > 0
  }

  function ValidateLogician(parsed: Parsed): (v: Verdict)
    ensures v.Accepted? <==> parsed.Doc? && IsReasoning(parsed.value)
    ensures v.Accepted? ==> v.data == parsed.value
    ensures v.Threw? ==> parsed.Doc? && !parsed.value.JObj?
    ensures parsed.DecodeError? ==> v == Rejected("Invalid JSON: " + parsed.msg)
    ensures parsed.Doc? && parsed.value.JObj? ==>
      var f := parsed.value.fields;
      && ("concept" !in f ==> v == Rejected("Missing 'concept' field"))
      && ("concept" in f && "steps" !in f ==> v == Rejected("Missing 'steps' field"))
      && ("concept" in f && "steps" in f && !f["steps"].JArr? ==> v == Rejected("'steps' must be a list"))
      && ("concept" in f && "steps" in f && f["steps"] == JArr([]) ==> v == Rejected("'steps' cannot be empty"))
  {
    match parsed
    case DecodeError(m) => Rejected("Invalid JSON: " + m)
    case Doc(data) =>
      match Has(data, "concept")
      case Raised(e) => Threw(e)
      case Returned(hasConcept) =>
        if !hasConcept then Rejected("Missing 'concept' field")
        else match Has(data, "steps")
          case Raised(e) => Threw(e)
          case Returned(hasSteps) =>
            if !hasSteps then Rejected("Missing 'steps' field")
            else match Subscript(data, "steps")
              case Raised(e) => Threw(e)
              case Returned(steps) =>
                if !steps.JArr? then Rejected("'steps' must be a list")
                else if |steps.items| == 0 then Rejected("'steps' cannot be empty")
                else Accepted(data)
  }

  // ---------------------------------------------------------------------
  // Director output
  // ---------------------------------------------------------------------

  /** A scene needs `title`, `objects` and `animations`; the last two must be
      lists, possibly empty. */
  predicate IsScene(s: Json)
  {
    s.JObj? && "title" in s.fields && "objects" in s.fields && "animations" in s.fields
    && s.fields["objects"].JArr? && s.fields["animations"].JArr?
  }

  /** The shape the director's output must have: an object whose `scenes`
      is a non-empty list of scenes. */
  predicate IsManifest(d: Json)
  {
    d.JObj? && "scenes" in d.fields && d.fields["scenes"].JArr?
    && |d.fields["scenes"].items| > 0
    && forall i :: 0 <= i < |d.fields["scenes"].items| ==> IsScene(d.fields["scenes"].items[i])
  }

  function SceneLabel(i: nat): string
  {
    "Scene " + Decimal(i) + " "
  }

  /** The checks of the loop body for the scene at index `i`. */
  function CheckScene(scene: Json, i: nat): (v: Verdict)
    ensures v.Accepted? <==> IsScene(scene)
    ensures v.Accepted? ==> v.data == scene
    ensures v.Rejected? ==> |SceneLabel(i)| <= |v.reason| && v.reason[..|SceneLabel(i)|] == SceneLabel(i)
  {
    var tag := SceneLabel(i);
    match Has(scene, "title")
    case Raised(e) => Threw(e)
    case Returned(hasTitle) =>
      if !hasTitle then Rejected(tag + "missing 'title'")
      else match Has(scene, "objects")
        case Raised(e) => Threw(e)
        case Returned(hasObjects) =>
          if !hasObjects then Rejected(tag + "missing 'objects'")
          else match Has(scene, "animations")
            case Raised(e) => Threw(e)
            case Returned(hasAnimations) =>
              if !hasAnimations then Rejected(tag + "missing 'animations'")
              else match Subscript(scene, "objects")
                case Raised(e) => Threw(e)
                case Returned(objects) =>
                  if !objects.JArr? then Rejected(tag + "'objects' must be a list")
                  else match Subscript(scene, "animations")
                    case Raised(e) => Threw(e)
                    case Returned(animations) =>
                      if !animations.JArr? then Rejected(tag + "'animations' must be a list")
                      else Accepted(scene)
  }

  /** The index, at or after `from`, of the first scene that fails its checks. */
  function FirstBadScene(scenes: seq<Json>, from: nat): (r: Option<nat>)
    requires from <= |scenes|
    ensures r.None? <==> forall j :: from <= j < |scenes| ==> IsScene(scenes[j])
    ensures r.Some? ==> from <= r.value < |scenes| && !IsScene(scenes[r.value])
    ensures r.Some? ==> forall j :: from <= j < r.value ==> IsScene(scenes[j])
    decreases |scenes| - from
  {
    if from == |scenes| then None
    else if !CheckScene(scenes[from], from).Accepted? then Some(from)
    else FirstBadScene(scenes, from + 1)
  }

  function ValidateDirector(parsed: Parsed): (v: Verdict)
    ensures v.Accepted? <==> parsed.Doc? && IsManifest(parsed.value)
    ensures v.Accepted? ==> v.data == parsed.value
    ensures parsed.DecodeError? ==> v == Rejected("Invalid JSON: " + parsed.msg)
    ensures parsed.Doc? && parsed.value.JObj? && "scenes" !in parsed.value.fields ==>
      v == Rejected("Missing 'scenes' field")
    ensures parsed.Doc? && parsed.value.JObj? && "scenes" in parsed.value.fields ==>
      var scenes := parsed.value.fields["scenes"];
      && (!scenes.JArr? ==> v == Rejected("'scenes' must be a list"))
      && (scenes == JArr([]) ==> v == Rejected("'scenes' cannot be empty"))
  {
    match parsed
    case DecodeError(m) => Rejected("Invalid JSON: " + m)
    case Doc(data) =>
      match Has(data, "scenes")
      case Raised(e) => Threw(e)
      case Returned(hasScenes) =>
        if !hasScenes then Rejected("Missing 'scenes' field")
        else match Subscript(data, "scenes")
          case Raised(e) => Threw(e)
          case Returned(scenes) =>
            if !scenes.JArr? then Rejected("'scenes' must be a list")
            else if |scenes.items| == 0 then Rejected("'scenes' cannot be empty")
            else match FirstBadScene(scenes.items, 0)
              case Some(k) => CheckScene(scenes.items[k], k)
              case None => Accepted(data)
  }

  /** A manifest with a bad scene is rejected with the verdict for the
      lowest-index bad scene. */
  lemma DirectorReportsFirstBadScene(scenes: seq<Json>, k: nat, other: map<string, Json>)
    requires k < |scenes| && !IsScene(scenes[k])
    requires forall j :: 0 <= j < k ==> IsScene(scenes[j])
    ensures ValidateDirector(Doc(JObj(other["scenes" := JArr(scenes)]))) == CheckScene(scenes[k], k)
  {
    assert FirstBadScene(scenes, 0) == Some(k);
  }

  // ---------------------------------------------------------------------
  // Engineer and fixer output
  // ---------------------------------------------------------------------

  const ImportMarker := "from manim import"
  const ClassMarker := "class GeneratedScene"
  const ConstructMarker := "def construct"

  /** What the engineer's checks demand of a script: not blank, the three
      markers present, and accepted by the compiler. */
  predicate IsSceneScript(code: string, compile: Compiler)
  {
    !IsBlank(code) && Contains(code, ImportMarker) && Contains(code, ClassMarker)
    && Contains(code, ConstructMarker) && compile(code).Compiles?
  }

  /** `(is_valid, error_message_or_empty)`. */
  function ValidateEngineer(code: string, compile: Compiler): (r: (bool, string))
    ensures r.0 <==> IsSceneScript(code, compile)
    ensures r.0 <==> r.1 == ""
    ensures IsBlank(code) ==> r == (false, "Generated code is empty")
    ensures !IsBlank(code) && !Contains(code, ImportMarker) ==> r == (false, "Missing Manim import statement")
    ensures !IsBlank(code) && Contains(code, ImportMarker) && !Contains(code, ClassMarker) ==>
      r == (false, "Missing GeneratedScene class definition")
    ensures (!IsBlank(code) && Contains(code, ImportMarker) && Contains(code, ClassMarker)
      && !Contains(code, ConstructMarker)) ==> r == (false, "Missing construct() method")
  {
    if Strip(code) == [] then (false, "Generated code is empty")
    else if !Contains(code, ImportMarker) then (false, "Missing Manim import statement")
    else if !Contains(code, ClassMarker) then (false, "Missing GeneratedScene class definition")
    else if !Contains(code, ConstructMarker) then (false, "Missing construct() method")
    else match compile(code)
      case Compiles => (true, "")
      case SyntaxError(m) => (false, "Syntax error: " + m)
  }

  /** The fixer's output is held to exactly the engineer's checks. */
  function ValidateFixer(code: string, compile: Compiler): (r: (bool, string))
    ensures r == ValidateEngineer(code, compile)
  {
    ValidateEngineer(code, compile)
  }

  /** Validation is a pure function of its input: a document or script that
      was accepted once is accepted again when it comes back unchanged (for
      JSON: when the decoder reads back what was serialised). */
  lemma Revalidation(decode: Decoder, compile: Compiler, text: string, dumped: string, code: string)
    ensures ValidateLogician(decode(text)).Accepted? && decode(dumped) == Doc(ValidateLogician(decode(text)).data)
      ==> ValidateLogician(decode(dumped)) == ValidateLogician(decode(text))
    ensures ValidateDirector(decode(text)).Accepted? && decode(dumped) == Doc(ValidateDirector(decode(text)).data)
      ==> ValidateDirector(decode(dumped)) == ValidateDirector(decode(text))
    ensures ValidateEngineer(code, compile).0 ==> ValidateFixer(code, compile) == (true, "")
  {
  }

  /** The logician's `concept` is not checked at all: even `null` is accepted. */
  lemma ConceptUnchecked(steps: seq<Json>)
    requires |steps| > 0
    ensures var d := JObj(map["concept" := JNull, "steps" := JArr(steps)]);
      ValidateLogician(Doc(d)) == Accepted(d)
  {
  }

  /** Scenes with empty `objects` and `animations` lists are accepted. */
  lemma EmptySceneListsAccepted(title: Json)
    ensures var scene := JObj(map["title" := title, "objects" := JArr([]), "animations" := JArr([])]);
      var d := JObj(map["scenes" := JArr([scene])]);
      ValidateDirector(Doc(d)) == Accepted(d)
  {
    var scene := JObj(map["title" := title, "objects" := JArr([]), "animations" := JArr([])]);
    assert IsScene(scene);
  }
}
