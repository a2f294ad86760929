# Render planning of the meshifier preview script

The meshifier preview script runs inside Blender. It loads a triangle mesh from a JSON file and renders one PNG per camera angle. Apart from the calls that drive Blender's scene graph, it has one piece of logic of its own: planning the renders. This project models that planning and proves properties of it:

- `main` takes the input and output paths that follow the first `--` on the command line. It then picks the mesh and the optional angle list out of the decoded JSON.
- `render_angles` validates the angle list, falling back to a front and a side view (`[0, π/2]`). It splits the output base at its last dot. It then sets the render file path to `<path>_<NN>.<ext>` for each angle in turn and renders. `NN` is the index padded with zeros to at least two digits. An infinite angle stops the loop before its path is set.

Modules:

- `Wrappers` (`wrappers.dfy`): `Option` and `Result`.
- `JsonValue` (`json_value.dfy`): decoded JSON as a datatype. Floats are opaque bit patterns, integers are unbounded, and objects are maps.
- `Naming` (`naming.dfy`): the path split, the two-digit padding and the file names. Each comes with its inverse or a uniqueness lemma.
- `RenderAngles` (`render_angles.dfy`): `float()` conversion, validation with fallback, and the render loop. The loops of `render_angles` are methods proved equal to specification functions, and the lemmas state what the script does for each kind of angle list.
- `Script` (`script.dfy`): argument extraction, mesh and angle selection, and the whole run.

## Edge cases of the script

- The angle list falls back to the defaults only when `float()` raises `ValueError` or `TypeError` (render_mesh.py:100). An integer of magnitude 2^1024 − 2^970 or more makes `float()` raise `OverflowError` instead. Nothing catches that, so the script stops before any render. The first element that `float()` rejects decides which of the two happens.
- `float()` accepts infinities: `json.load` reads `1e400` and `Infinity` as `inf`, and strings such as `"inf"` convert too. `math.cos` of an infinite angle raises `ValueError` (render_mesh.py:115) before that iteration sets its file path. The renders before it are done, and the script then stops. For `"angles": [0, 1e400]` one render is done. A NaN angle does not raise.
- The index is padded to at least two digits, not to exactly two (render_mesh.py:123). Index 100 is written as `100`.
- The angle list is always read from the top level of the document (render_mesh.py:146). An `"angles"` key inside the `"mesh"` member is ignored.
- `rsplit('.', 1)` knows nothing of directories (render_mesh.py:106). For `renders.d/view` it gives path `renders` and extension `d/view`. A trailing dot gives an empty extension.

## Model

| member | source | states |
|---|---|---|
| `Naming.Decimal` | resources/meshifier/render_mesh.py:123 | the decimal form of the index is non-empty, all digits, and has no leading zero unless it is `0` |
| `Naming.DecimalRoundTrip` | resources/meshifier/render_mesh.py:123 | reading the decimal digits back gives the number |
| `Naming.Pad2` | resources/meshifier/render_mesh.py:123 | `{i:02d}` is all digits, at least two long, denotes `i`, and has a leading zero only when it is exactly two long |
| `Naming.Pad2Injective` | resources/meshifier/render_mesh.py:123 | distinct indices are padded to distinct strings |
| `Naming.LastDot` | resources/meshifier/render_mesh.py:106 | there is no position exactly when the base has no dot; otherwise the position holds a dot and no dot follows it |
| `Naming.LastDotAt` | resources/meshifier/render_mesh.py:106 | a dot with no dot after it is the position found |
| `Naming.SplitOutputBase` | resources/meshifier/render_mesh.py:105-109 | a base without a dot keeps the whole base as path with extension `png`; otherwise `path + "." + ext` is the base and the extension has no dot |
| `Naming.SplitOutputBaseUnique` | resources/meshifier/render_mesh.py:105-109 | any split of the base around a dot whose extension has no dot is the one computed |
| `Naming.TrailingDotGivesEmptyExt` | resources/meshifier/render_mesh.py:106 | a base ending in a dot gets an empty extension, not `png` |
| `Naming.DotInDirectoryName` | resources/meshifier/render_mesh.py:106 | a dot in a directory name is taken as the start of the extension |
| `Naming.FileName` | resources/meshifier/render_mesh.py:123 | `f"{output_path}_{i:02d}.{output_ext}"`: the index `i` can be read back from the name, given the path and extension |
| `Naming.FileNamesDistinct` | resources/meshifier/render_mesh.py:123 | distinct indices give distinct file names |
| `RenderAngles.ToFloat` | resources/meshifier/render_mesh.py:99 | `float()` raises `OverflowError` exactly for integers at or beyond the bound; it raises `ValueError`/`TypeError` exactly for `None`, lists, dicts and strings that are not floats; booleans and floats always convert |
| `RenderAngles.ConvertAll` | resources/meshifier/render_mesh.py:98-102 | the comprehension yields every element, converted, in order, exactly when every element converts; otherwise the first element that fails decides between the caught exceptions (`ValueError`, `TypeError`) and the uncaught one (`OverflowError`) |
| `RenderAngles.ConvertAngles` | resources/meshifier/render_mesh.py:99 | the left-to-right loop over the list ends exactly as `ConvertAll` says |
| `RenderAngles.ValidatedAngles` | resources/meshifier/render_mesh.py:89-102 | a value that is not a list gives the defaults; the list is kept either whole (every element converted, in order) or not at all (the defaults); the only error is the uncaught overflow |
| `RenderAngles.InfiniteExactly` | resources/meshifier/render_mesh.py:99-115 | a converted angle makes `math.cos` raise exactly when it is a JSON float with the bits of +inf or -inf, or a string that `float()` reads as an infinity; never the defaults, booleans or integers |
| `RenderAngles.NaNIsNotInfinite` | resources/meshifier/render_mesh.py:115 | a NaN angle does not make `math.cos` raise |
| `RenderAngles.FirstInfinite` | resources/meshifier/render_mesh.py:112-115 | the position of the first infinite angle, or the length when none is infinite |
| `RenderAngles.RenderLoop` | resources/meshifier/render_mesh.py:112-123 | the renders are a prefix of the angles, angle `k` with file path index `k`, all finite; the loop ends early exactly when an angle is infinite, and then that angle follows the renders and the error is `InfiniteAngle` |
| `RenderAngles.PlanShots` | resources/meshifier/render_mesh.py:104-126 | the loop over the angles gives exactly the renders and the failure `RenderLoop` defines |
| `RenderAngles.RenderPlan` | resources/meshifier/render_mesh.py:88-123 | an overflow error leaves no render; without an error there is one render per validated angle; every render's file path is `<path>_<NN>.<ext>` with its index |
| `RenderAngles.PlanRenderAngles` | resources/meshifier/render_mesh.py:88-126 | the successive reassignments of `angles`, followed by the loop, give exactly the outcome `RenderPlan` defines |
| `RenderAngles.AbsentAnglesRenderDefaults` | resources/meshifier/render_mesh.py:89-91 | with `None` as angles, the two default views are rendered without error, so exactly two file paths are set |
| `RenderAngles.NonListAnglesRenderDefaults` | resources/meshifier/render_mesh.py:94-96 | any value that is not a list falls back to the defaults without an error |
| `RenderAngles.RejectedElementRendersDefaults` | resources/meshifier/render_mesh.py:98-102 | one element rejected with `ValueError`/`TypeError`, with no overflow before it, replaces the whole list by the defaults |
| `RenderAngles.OverflowBeforeRejectionFails` | resources/meshifier/render_mesh.py:98-100 | an overflowing integer that is the first failing element ends the script before any render, instead of falling back |
| `RenderAngles.EmptyListRendersNothing` | resources/meshifier/render_mesh.py:94-112 | an empty list is kept and there is no render and no error |
| `RenderAngles.ValidListRendersEach` | resources/meshifier/render_mesh.py:112-123 | a list of N convertible, finite angles gives exactly N renders, in input order, the `k`-th with the file path of index `k` |
| `RenderAngles.InfiniteAngleStopsRendering` | resources/meshifier/render_mesh.py:112-123 | an infinite angle at position `k` of a convertible list gives exactly the `k` renders before it, then the `ValueError` from `math.cos` |
| `RenderAngles.InfiniteSecondAngle` | resources/meshifier/render_mesh.py:112-123 | for `[0, 1e400]`, only `<path>_00.<ext>` is rendered before the `ValueError` |
| `RenderAngles.PlannedFilesDistinct` | resources/meshifier/render_mesh.py:112-123 | no two renders get the same file path |
| `Script.IndexOf` | resources/meshifier/render_mesh.py:136 | `list.index` finds the first occurrence, and finds nothing exactly when the value is absent |
| `Script.ParseArgs` | resources/meshifier/render_mesh.py:131-138 | fewer than two entries in `sys.argv` is `Usage`; otherwise a missing `--` is `NoSeparator`, and fewer than two entries after the first `--` is `MissingArgument`; otherwise the arguments are the two entries after the first `--` |
| `Script.AnglesMember` | resources/meshifier/render_mesh.py:146 | `data.get("angles", None)` is the member when present; it is `None` exactly when the key is missing or holds `null` |
| `Script.SelectInput` | resources/meshifier/render_mesh.py:145-146 | a document that is not an object is `NotAnObject`; an object with neither `"vertices"` nor `"mesh"` is `MissingMesh`; the mesh is the document itself when `"vertices"` is present and the `"mesh"` member otherwise; the angles are always the top-level `"angles"` member, or `None` |
| `Script.VerticesKeyWins` | resources/meshifier/render_mesh.py:145 | with both `"vertices"` and `"mesh"` present, the document itself is the mesh |
| `Script.NestedAnglesIgnored` | resources/meshifier/render_mesh.py:145-146 | angles inside the `"mesh"` member are not read, so the plan uses the defaults |
| `Script.ScriptOutcome` | resources/meshifier/render_mesh.py:130-158 | an argument error is reported before the file is read; a run reaches `render_angles` exactly when the arguments, the load and the selection succeed, and then carries the selected mesh and the render outcome for the output argument and the top-level angles |
| `Script.RunScript` | resources/meshifier/render_mesh.py:130-158 | the run checks the arguments, loads the input, selects the mesh and plans the renders, giving exactly the outcome `ScriptOutcome` defines |
| `Script.RunWritesNamedFiles` | resources/meshifier/render_mesh.py:136-158 | every render of a run gets the file path `<path>_<NN>.<ext>` derived from the output argument, and no two renders share a path |

## Left out

- `setup_scene`, `create_mesh` and `setup_render` (lines 7-86) only drive Blender's scene graph. The denoiser probing reads Blender's own property metadata, which is not visible here.
- Camera placement (lines 114-120) uses floating-point `cos`/`sin`. Angles are carried as opaque values (`RenderAngles.Angle`), not as numbers. The only part of the placement modelled is that an infinite angle raises there.
- The render call (line 126), the prints (lines 95, 101, 128, 132), and the exit status of `sys.exit(1)` are not modelled. The model has no mutable scene object. It returns the sequence of renders, each an angle and the file path the loop sets before its render call. Blender may derive the file it actually writes from that path, for example by adding the format's extension; that is not modelled.
- Opening and decoding the input file (lines 141-142) is I/O. It is the parameter `load`, and a failure there is `LoadFailed`.
- Python's grammar of float strings is left abstract as the parameter `parseFloat`. It says whether a string is rejected, read as an infinity, or read as some other value.
- Script.ScriptOutcome and Script.RunScript: they return a job for any selected mesh. `create_mesh` (lines 47-48) raises before any render when that mesh has no `"vertices"` or `"faces"` member, or when its contents do not suit Blender. That check happens inside Blender's part and is not modelled.
- `Script.SelectInput` reports every non-object document as one error, `NotAnObject`. The source fails there with `TypeError` or `AttributeError`, depending on the value.
- The tuple case of `isinstance(angles, (list, tuple))` is not modelled, because decoded JSON never holds a tuple.
- src/meshifier/render_mesh.py (the single-view variant) sets the render path to the output argument and renders once. It has no planning logic and is not part of this model.
