/**
 * The dispatch in `main`: the two paths after `--` on the command line, the
 * mesh and the angle list picked out of the loaded JSON, and the render
 * plan for them. Reading the file is a parameter (`load`), since it is I/O;
 * building the scene is not modelled.
 */
module Script {
  import opened Wrappers
  import opened JsonValue
  import opened Naming
  import opened RenderAngles

  /** Every way `main` stops short of rendering. */
  datatype ScriptError =
    | Usage                // fewer than two entries in sys.argv: usage and exit status 1
    | NoSeparator          // sys.argv.index("--") raises ValueError
    | MissingArgument      // fewer than two entries after "--": IndexError
    | LoadFailed           // open or json.load raises
    | NotAnObject          // the document is not a dict: TypeError or AttributeError
    | MissingMesh          // neither "vertices" nor "mesh" at the top level: KeyError

  datatype Arguments = Arguments(inputJson: string, outputPng: string)

  /** `k` is the position of the first `--`, the one `list.index` finds. */
  predicate FirstSeparator(argv: seq<string>, k: int) {
    0 <= k < |argv| && argv[k] == "--" && forall j :: 0 <= j < k ==> argv[j] != "--"
  }

  function IndexOf(xs: seq<string>, x: string): (r: Option<nat>)
    ensures r.None? <==> x !in xs
    ensures r.Some? ==> r.value < |xs| && xs[r.value] == x && forall j :: 0 <= j < r.value ==> xs[j] != x
    decreases |xs|
  {
    if xs == [] then None
    else if xs[0] == x then Some(0)
    else
      match IndexOf(xs[1..], x)
      case None => None
      case Some(k) => Some(k + 1)
  }

  /**
   * `argv = sys.argv[sys.argv.index("--") + 1:]` and its first two entries,
   * after the usage check on the length of `sys.argv`.
   */
  function ParseArgs(argv: seq<string>): (r: Result<Arguments, ScriptError>)
    ensures |argv| < 2 ==> r == Err(Usage)
    ensures |argv| >= 2 ==> ("--" !in argv <==> r == Err(NoSeparator))
    ensures |argv| >= 2 && "--" in argv && !r.Ok? ==> r == Err(MissingArgument)
    ensures r.Ok? <==> |argv| >= 2 && exists k :: FirstSeparator(argv, k) && k + 2 < |argv|
    ensures r.Ok? ==> forall k :: FirstSeparator(argv, k) ==> r.value == Arguments(argv[k + 1], argv[k + 2])
  {
    if |argv| < 2 then Err(Usage)
    else
      match IndexOf(argv, "--")
      case None => Err(NoSeparator)
      case Some(k) =>
        assert FirstSeparator(argv, k);
        SeparatorUnique(argv, k);
        var rest := argv[k + 1..];
        if |rest| < 2 then Err(MissingArgument) else Ok(Arguments(rest[0], rest[1]))
  }

  lemma SeparatorUnique(argv: seq<string>, k: nat)
    requires FirstSeparator(argv, k)
    ensures forall j :: FirstSeparator(argv, j) ==> j == k
  {
  }

  datatype Selection = Selection(mesh: Json, angles: Json)

  /** `data.get("angles", None)`; a missing key and JSON `null` are both `None`. */
  function AnglesMember(members: map<string, Json>): (r: Json)
    ensures "angles" in members ==> r == members["angles"]
    ensures r == JNull <==> "angles" !in members || members["angles"] == JNull
  {
    if "angles" in members then members["angles"] else JNull
  }

  /**
   * `mesh_data = data if "vertices" in data else data["mesh"]` and the
   * angle list, read from the top level in either case.
   */
  function SelectInput(data: Json): (r: Result<Selection, ScriptError>)
    ensures r.Ok? <==> data.JObject? && ("vertices" in data.members || "mesh" in data.members)
    ensures !data.JObject? ==> r == Err(NotAnObject)
    ensures data.JObject? && !r.Ok? ==> r == Err(MissingMesh)
    ensures r.Ok? ==> r.value.angles == AnglesMember(data.members)
    ensures r.Ok? && "vertices" in data.members ==> r.value.mesh == data
    ensures r.Ok? && "vertices" !in data.members ==> r.value.mesh == data.members["mesh"]
  {
    match data
    case JObject(members) =>
      if "vertices" in members then Ok(Selection(data, AnglesMember(members)))
      else if "mesh" in members then Ok(Selection(members["mesh"], AnglesMember(members)))
      else Err(MissingMesh)
    case _ => Err(NotAnObject)
  }

  /**
   * A run that reached `render_angles`: the mesh handed to the scene, the
   * renders done and the exception that ended them early, if any.
   */
  datatype Job = Job(args: Arguments, mesh: Json, render: RenderOutcome)

  /** The outcome of `main` for a command line and the documents the paths hold. */
  function ScriptOutcome(argv: seq<string>, load: string -> Option<Json>, parseFloat: string -> StringFloat)
    : (r: Result<Job, ScriptError>)
    ensures ParseArgs(argv).Err? ==> r == Err(ParseArgs(argv).error)
    ensures ParseArgs(argv).Ok? && load(ParseArgs(argv).value.inputJson).None? ==> r == Err(LoadFailed)
    ensures (ParseArgs(argv).Ok? && load(ParseArgs(argv).value.inputJson).Some? &&
             SelectInput(load(ParseArgs(argv).value.inputJson).value).Err?) ==>
      r == Err(SelectInput(load(ParseArgs(argv).value.inputJson).value).error)
    ensures r.Ok? <==>
      ParseArgs(argv).Ok? && load(ParseArgs(argv).value.inputJson).Some? &&
      SelectInput(load(ParseArgs(argv).value.inputJson).value).Ok?
    ensures r.Ok? ==>
      r.value.args == ParseArgs(argv).value &&
      r.value.mesh == SelectInput(load(r.value.args.inputJson).value).value.mesh &&
      r.value.render == RenderPlan(r.value.args.outputPng, SelectInput(load(r.value.args.inputJson).value).value.angles, parseFloat)
  {
    match ParseArgs(argv)
    case Err(e) => Err(e)
    case Ok(args) =>
      match load(args.inputJson)
      case None => Err(LoadFailed)
      case Some(data) =>
        match SelectInput(data)
        case Err(e) => Err(e)
        case Ok(selection) =>
          Ok(Job(args, selection.mesh, RenderPlan(args.outputPng, selection.angles, parseFloat)))
  }

  /** `main()`, with the scene setup left out. */
  method RunScript(argv: seq<string>, load: string -> Option<Json>, parseFloat: string -> StringFloat)
    returns (r: Result<Job, ScriptError>)
    ensures r == ScriptOutcome(argv, load, parseFloat)
  {
    if |argv| < 2 {
      return Err(Usage);
    }
    var separator := IndexOf(argv, "--");
    if separator.None? {
      return Err(NoSeparator);
    }
    var rest := argv[separator.value + 1..];
    if |rest| < 2 {
      return Err(MissingArgument);
    }
    var args := Arguments(rest[0], rest[1]);
    assert ParseArgs(argv) == Ok(args);
    var data := load(args.inputJson);
    if data.None? {
      return Err(LoadFailed);
    }
    var selection := SelectInput(data.value);
    if selection.Err? {
      return Err(selection.error);
    }
    var render := PlanRenderAngles(args.outputPng, selection.value.angles, parseFloat);
    r := Ok(Job(args, selection.value.mesh, render));
  }

  // Properties of a run

  /** Angles nested inside the `"mesh"` member are not read: only the top level counts. */
  lemma NestedAnglesIgnored(mesh: map<string, Json>, outputBase: string, parseFloat: string -> StringFloat)
    requires "angles" in mesh
    ensures var data := JObject(map["mesh" := JObject(mesh)]);
      SelectInput(data) == Ok(Selection(JObject(mesh), JNull)) &&
      RenderPlan(outputBase, SelectInput(data).value.angles, parseFloat) == RenderLoop(outputBase, DefaultAngles, parseFloat)
  {
  }

  /** A top-level `"vertices"` key makes the document itself the mesh, even beside a `"mesh"` key. */
  lemma VerticesKeyWins(members: map<string, Json>)
    requires "vertices" in members && "mesh" in members
    ensures SelectInput(JObject(members)).Ok? && SelectInput(JObject(members)).value.mesh == JObject(members)
  {
  }

  /**
   * A run that gets past the arguments and the selection sets, for every
   * render it does, a file path named after the output argument, and no
   * two renders get the same path.
   */
  lemma RunWritesNamedFiles(argv: seq<string>, load: string -> Option<Json>, parseFloat: string -> StringFloat)
    requires ScriptOutcome(argv, load, parseFloat).Ok?
    ensures var job := ScriptOutcome(argv, load, parseFloat).value;
      var split := SplitOutputBase(job.args.outputPng);
      var shots := job.render.shots;
      (forall k :: 0 <= k < |shots| ==> shots[k].filepath == FileName(split.path, split.ext, k)) &&
      (forall i, j :: 0 <= i < j < |shots| ==> shots[i].filepath != shots[j].filepath)
  {
  }
}
