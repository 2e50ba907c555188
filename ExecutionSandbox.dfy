/** The render step (aoai/pipeline/execution_sandbox.py): writes the script
    into the temp directory, runs Manim on it, looks for the rendered video
    and moves it to the outputs directory, and turns whatever happened into
    a five-field result record. The file system is a pair of directory
    trees held by the sandbox; the subprocess is an oracle that reports how
    it ended and what the temp directory holds afterwards. */
module ExecutionSandbox {
  import opened Common

  /** The record `run` returns. */
  datatype ExecutionResult = ExecutionResult(
    success: bool, videoPath: Option<string>, stdout: string, stderr: string, exitCode: int)

  /** A directory tree: a file, or a folder listing its entries in the order
      the operating system iterates them. */
  datatype Node = File(content: string) | Folder(entries: seq<Entry>)
  datatype Entry = Entry(name: string, node: Node)

  // ---------------------------------------------------------------------
  // Directory trees
  // ---------------------------------------------------------------------

  /** The node called `name` in a folder listing. */
  function Lookup(entries: seq<Entry>, name: string): (r: Option<Node>)
    ensures r.Some? <==> exists i :: 0 <= i < |entries| && entries[i].name == name
    ensures r.Some? ==> exists i :: 0 <= i < |entries| && entries[i] == Entry(name, r.value)
  {
    if entries == [] then None
    else if entries[0].name == name then Some(entries[0].node)
    else
      assert forall i :: 0 <= i < |entries| - 1 ==> entries[1..][i] == entries[i + 1];
      Lookup(entries[1..], name)
  }

  /** The node at a path of names below a folder listing; a file met before
      the end of the path means there is nothing there. */
  function LookupPath(entries: seq<Entry>, path: seq<string>): Option<Node>
    requires path != []
    decreases |path|
  {
    match Lookup(entries, path[0])
    case None => None
    case Some(node) =>
      if |path| == 1 then Some(node)
      else if node.File? then None
      else LookupPath(node.entries, path[1..])
  }

  /** The listing with the entry called `name` replaced by `node`, or with
      `Entry(name, node)` added at the end when there is none. */
  function Put(entries: seq<Entry>, name: string, node: Node): (r: seq<Entry>)
    ensures Lookup(r, name) == Some(node)
    ensures forall other :: other != name ==> Lookup(r, other) == Lookup(entries, other)
  {
    if entries == [] then [Entry(name, node)]
    else if entries[0].name == name then [Entry(name, node)] + entries[1..]
    else [entries[0]] + Put(entries[1..], name, node)
  }

  /** The listing without its entries called `name`. */
  function Remove(entries: seq<Entry>, name: string): (r: seq<Entry>)
    ensures Lookup(r, name).None?
    ensures forall other :: other != name ==> Lookup(r, other) == Lookup(entries, other)
  {
    if entries == [] then []
    else if entries[0].name == name then Remove(entries[1..], name)
    else [entries[0]] + Remove(entries[1..], name)
  }

  /** The listing with the entry at `path` removed; unchanged when there is
      nothing at `path`. */
  function RemovePath(entries: seq<Entry>, path: seq<string>): seq<Entry>
    requires path != []
    decreases |path|
  {
    if |path| == 1 then Remove(entries, path[0])
    else
      match Lookup(entries, path[0])
      case Some(Folder(sub)) => Put(entries, path[0], Folder(RemovePath(sub, path[1..])))
      case _ => entries
  }

  // ---------------------------------------------------------------------
  // Finding the video
  // ---------------------------------------------------------------------

  /** Where Manim leaves its videos below the temp directory. */
  const ScenePath: seq<string> := ["media", "videos", "scene"]

  /** A name `glob("*.mp4")` matches (pathlib's glob also matches names
      starting with a dot). */
  predicate IsVideoName(name: string)
  {
    |name| >= 4 && name[|name| - 4..] == ".mp4"
  }

  /** The index of the first entry of a listing whose name matches. */
  function FirstVideoFile(entries: seq<Entry>, from: nat): (r: Option<nat>)
    requires from <= |entries|
    ensures r.None? <==> forall i :: from <= i < |entries| ==> !IsVideoName(entries[i].name)
    ensures r.Some? ==> from <= r.value < |entries| && IsVideoName(entries[r.value].name)
    ensures r.Some? ==> forall i :: from <= i < r.value ==> !IsVideoName(entries[i].name)
    decreases |entries| - from
  {
    if from == |entries| then None
    else if IsVideoName(entries[from].name) then Some(from)
    else FirstVideoFile(entries, from + 1)
  }

  /** A quality directory: a folder entry holding a matching name. */
  predicate HoldsVideo(e: Entry)
  {
    e.node.Folder? && FirstVideoFile(e.node.entries, 0).Some?
  }

  /** The index of the first quality directory holding a video. */
  function FirstQuality(qualities: seq<Entry>, from: nat): (r: Option<nat>)
    requires from <= |qualities|
    ensures r.None? <==> forall i :: from <= i < |qualities| ==> !HoldsVideo(qualities[i])
    ensures r.Some? ==> from <= r.value < |qualities| && HoldsVideo(qualities[r.value])
    ensures r.Some? ==> forall i :: from <= i < r.value ==> !HoldsVideo(qualities[i])
    decreases |qualities| - from
  {
    if from == |qualities| then None
    else if HoldsVideo(qualities[from]) then Some(from)
    else FirstQuality(qualities, from + 1)
  }

  /** What `_find_video_output` comes to: the quality directory and the
      entry of the video, no video, or the error from listing a scene
      directory that is a file. */
  datatype Search = Found(quality: string, video: Entry) | NoVideo | Unlistable(msg: string)

  function FindVideo(temp: seq<Entry>, tempDir: string): (r: Search)
    ensures LookupPath(temp, ScenePath).None? ==> r == NoVideo
    ensures r.Found? ==> LookupPath(temp, ScenePath).Some? && LookupPath(temp, ScenePath).value.Folder?
    ensures r.Found? ==> var qualities := LookupPath(temp, ScenePath).value.entries;
      exists q :: 0 <= q < |qualities| && HoldsVideo(qualities[q]) && r.quality == qualities[q].name
        && (forall i :: 0 <= i < q ==> !HoldsVideo(qualities[i]))
        && r.video == qualities[q].node.entries[FirstVideoFile(qualities[q].node.entries, 0).value]
    ensures r.Unlistable? <==> LookupPath(temp, ScenePath).Some? && LookupPath(temp, ScenePath).value.File?
    ensures (LookupPath(temp, ScenePath).Some? && LookupPath(temp, ScenePath).value.Folder?
             && FirstQuality(LookupPath(temp, ScenePath).value.entries, 0).Some?) ==> r.Found?
    ensures r.NoVideo? && LookupPath(temp, ScenePath).Some? ==>
      LookupPath(temp, ScenePath).value.Folder?
      && forall i :: 0 <= i < |LookupPath(temp, ScenePath).value.entries| ==>
           !HoldsVideo(LookupPath(temp, ScenePath).value.entries[i])
  {
    match LookupPath(temp, ScenePath)
    case None => NoVideo
    case Some(File(_)) => Unlistable("[Errno 20] Not a directory: '" + tempDir + "/media/videos/scene'")
    case Some(Folder(qualities)) =>
      match FirstQuality(qualities, 0)
      case None => NoVideo
      case Some(q) =>
        var files := qualities[q].node.entries;
        Found(qualities[q].name, files[FirstVideoFile(files, 0).value])
  }

  // ---------------------------------------------------------------------
  // Classifying the outcome
  // ---------------------------------------------------------------------

  const TimeoutMessage := "Manim execution timed out (>5 minutes)"
  const MissingToolMessage := "Manim command not found. Is Manim installed? Run: pip install manim"
  const NoVideoMessage := "Video file not found after render"

  /** How a run went: the script could not be saved, the subprocess exited
      (with the result of the video search, consulted only on exit code 0),
      it timed out, the `manim` command does not exist, or something else
      raised. */
  datatype RunOutcome =
    | SaveFailed(msg: string)
    | Finished(exitCode: int, stdout: string, stderr: string, search: Search)
    | TimedOut
    | ToolMissing
    | Crashed(msg: string)

  /** The result record for an outcome. */
  function Classify(o: RunOutcome, outputsDir: string): ExecutionResult
  {
    match o
    case SaveFailed(m) => ExecutionResult(false, None, "", "Failed to save script: " + m, -1)
    case Finished(exitCode, out, err, search) =>
      if exitCode == 0 then
        match search
        case Found(_, video) => ExecutionResult(true, Some(outputsDir + "/" + video.name), out, err, exitCode)
        case NoVideo => ExecutionResult(false, None, out, NoVideoMessage, exitCode)
        case Unlistable(m) => ExecutionResult(false, None, "", "Unexpected error during execution: " + m, -4)
      else ExecutionResult(false, None, out, err, exitCode)
    case TimedOut => ExecutionResult(false, None, "", TimeoutMessage, -2)
    case ToolMissing => ExecutionResult(false, None, "", MissingToolMessage, -3)
    case Crashed(m) => ExecutionResult(false, None, "", "Unexpected error during execution: " + m, -4)
  }

  /** The five-field record for each outcome: success exactly when the
      render exited with 0 and a video was found, a path only on success,
      the subprocess's output passed through on a real exit, and the
      distinguished codes -1 to -4 with an empty stdout otherwise. */
  lemma ClassifyOutcome(o: RunOutcome, outputsDir: string)
    ensures var r := Classify(o, outputsDir);
      && (r.success <==> o.Finished? && o.exitCode == 0 && o.search.Found?)
      && (r.success ==> r == ExecutionResult(true, Some(outputsDir + "/" + o.search.video.name), o.stdout, o.stderr, 0))
      && (!r.success ==> r.videoPath.None?)
      && (o.Finished? && o.exitCode != 0 ==> r == ExecutionResult(false, None, o.stdout, o.stderr, o.exitCode))
      && (o.Finished? && o.exitCode == 0 && o.search.NoVideo? ==>
            r == ExecutionResult(false, None, o.stdout, NoVideoMessage, 0))
      && (o.SaveFailed? ==> r == ExecutionResult(false, None, "", "Failed to save script: " + o.msg, -1))
      && (o.TimedOut? ==> r == ExecutionResult(false, None, "", TimeoutMessage, -2))
      && (o.ToolMissing? ==> r == ExecutionResult(false, None, "", MissingToolMessage, -3))
      && (o.Crashed? ==> r == ExecutionResult(false, None, "", "Unexpected error during execution: " + o.msg, -4))
      && (o.Finished? && o.exitCode == 0 && o.search.Unlistable? ==>
            r == ExecutionResult(false, None, "", "Unexpected error during execution: " + o.search.msg, -4))
  {
  }

  // ---------------------------------------------------------------------
  // The sandbox
  // ---------------------------------------------------------------------

  /** How the render subprocess ended: an exit with its output, a timeout
      (the process is killed, possibly after writing media files), a missing
      `manim` command (nothing ran), or any other exception (possibly after
      Manim finished, such as undecodable output). Except for the missing
      command, `after` is the temp directory as the run left it. */
  datatype Render =
    | Exited(exitCode: int, stdout: string, stderr: string, after: seq<Entry>)
    | Expired(after: seq<Entry>)
    | NotInstalled
    | Raised(msg: string, after: seq<Entry>)

  /** What the world does during one run: whether writing the script fails,
      and how the subprocess ends given the scene name and the temp
      directory holding the script. */
  datatype World = World(writeFault: Option<string>, render: (string, seq<Entry>) -> Render)

  /** The state `run` leaves behind. */
  datatype Disk = Disk(temp: seq<Entry>, outputs: seq<Entry>)

  /** One `run`: the result record and the new state of the directories. */
  function Run(d: Disk, tempDir: string, outputsDir: string, code: string, sceneName: string, w: World): (r: (ExecutionResult, Disk))
    ensures r.0.success ==> exists video: Entry ::
      r.0.videoPath == Some(outputsDir + "/" + video.name) && Lookup(r.1.outputs, video.name) == Some(video.node)
    ensures !r.0.success ==> r.1.outputs == d.outputs
  {
    if w.writeFault.Some? then (Classify(SaveFailed(w.writeFault.value), outputsDir), d)
    else
      var written := Put(d.temp, "scene.py", File(code));
      match w.render(sceneName, written)
      case Expired(after) => (Classify(TimedOut, outputsDir), d.(temp := after))
      case NotInstalled => (Classify(ToolMissing, outputsDir), d.(temp := written))
      case Raised(m, after) => (Classify(Crashed(m), outputsDir), d.(temp := after))
      case Exited(exitCode, out, err, after) =>
        if exitCode != 0 then (Classify(Finished(exitCode, out, err, NoVideo), outputsDir), d.(temp := after))
        else
          var search := FindVideo(after, tempDir);
          var r := Classify(Finished(exitCode, out, err, search), outputsDir);
          if search.Found? then
            var moved := RemovePath(after, ScenePath + [search.quality, search.video.name]);
            (r, Disk(moved, Put(d.outputs, search.video.name, search.video.node)))
          else (r, d.(temp := after))
  }

  /** The number of entries `cleanup_temp` deletes before the first one it
      cannot delete. */
  function Deletable(entries: seq<Entry>, undeletable: set<string>): (n: nat)
    ensures n <= |entries|
    ensures forall i :: 0 <= i < n ==> entries[i].name !in undeletable
    ensures n < |entries| ==> entries[n].name in undeletable
  {
    if entries == [] || entries[0].name in undeletable then 0
    else 1 + Deletable(entries[1..], undeletable)
  }

  class Sandbox {
    const tempDir: string
    const outputsDir: string
    var temp: seq<Entry>
    var outputs: seq<Entry>

    /** The directories are created when missing and kept as they are
        otherwise. */
    constructor (storagePath: string, temp0: seq<Entry>, outputs0: seq<Entry>)
      ensures tempDir == storagePath + "/temp" && outputsDir == storagePath + "/outputs"
      ensures temp == temp0 && outputs == outputs0
    {
      tempDir := storagePath + "/temp";
      outputsDir := storagePath + "/outputs";
      temp := temp0;
      outputs := outputs0;
    }

    method Execute(code: string, sceneName: string, w: World) returns (r: ExecutionResult)
      modifies this
      ensures (r, Disk(temp, outputs))
        == Run(Disk(old(temp), old(outputs)), tempDir, outputsDir, code, sceneName, w)
    {
      // Save the script into the temp directory.
      if w.writeFault.Some? {
        return Classify(SaveFailed(w.writeFault.value), outputsDir);
      }
      temp := Put(temp, "scene.py", File(code));
      // Run Manim.
      var ran := w.render(sceneName, temp);
      match ran
      case Expired(after) =>
        temp := after;
        r := Classify(TimedOut, outputsDir);
      case NotInstalled =>
        r := Classify(ToolMissing, outputsDir);
      case Raised(m, after) =>
        temp := after;
        r := Classify(Crashed(m), outputsDir);
      case Exited(exitCode, stdout, stderr, after) =>
        temp := after;
        if exitCode == 0 {
          var search := FindVideo(temp, tempDir);
          if search.Found? {
            // Move the video to the outputs directory.
            temp := RemovePath(temp, ScenePath + [search.quality, search.video.name]);
            outputs := Put(outputs, search.video.name, search.video.node);
          }
          r := Classify(Finished(exitCode, stdout, stderr, search), outputsDir);
        } else {
          r := Classify(Finished(exitCode, stdout, stderr, NoVideo), outputsDir);
        }
    }

    /** `cleanup_temp`: deletes the entries of the temp directory in order;
        the first one that cannot be deleted stops it, and the directory
        itself stays. */
    method CleanupTemp(undeletable: set<string>)
      modifies this
      ensures outputs == old(outputs)
      ensures temp == old(temp)[Deletable(old(temp), undeletable)..]
    {
      var items := temp;
      var i := 0;
      while i < |items|
        invariant 0 <= i <= |items|
        invariant temp == items[i..]
        invariant forall k :: 0 <= k < i ==> items[k].name !in undeletable
        invariant outputs == old(outputs) && items == old(temp)
      {
        if items[i].name in undeletable {
          break;
        }
        // The entry being deleted is the first one still listed.
        temp := temp[1..];
        i := i + 1;
      }
      assert i == Deletable(items, undeletable) by { DeletableIsFirstStop(items, undeletable, i); }
    }
  }

  /** The leading run of deletable entries ends exactly at the first
      undeletable one. */
  lemma DeletableIsFirstStop(entries: seq<Entry>, undeletable: set<string>, i: nat)
    requires i <= |entries|
    requires forall k :: 0 <= k < i ==> entries[k].name !in undeletable
    requires i < |entries| ==> entries[i].name in undeletable
    ensures Deletable(entries, undeletable) == i
  {
  }

  /** Entries lying directly in the scene directory are not looked at: only
      the quality folders below it are searched. */
  lemma LooseFilesIgnored(temp: seq<Entry>, tempDir: string, qualities: seq<Entry>)
    requires LookupPath(temp, ScenePath) == Some(Folder(qualities))
    requires forall i :: 0 <= i < |qualities| ==> qualities[i].node.File?
    ensures FindVideo(temp, tempDir) == NoVideo
  {
  }

  /** When every entry can be deleted the temp directory ends up empty. */
  lemma CleanupEmptiesTemp(entries: seq<Entry>, undeletable: set<string>)
    requires forall k :: 0 <= k < |entries| ==> entries[k].name !in undeletable
    ensures entries[Deletable(entries, undeletable)..] == []
  {
    DeletableIsFirstStop(entries, undeletable, |entries|);
  }
}
