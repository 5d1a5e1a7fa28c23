# Scene resolution for the ray-casting framework

This project is a Dafny model of how the rendering framework decides which scene it renders.
It covers the `Scripts` support class and one scene script.

- **`Scripts.ReadFromConfig`** reads extra scene files from command-line arguments into a scene
  repository. The repository is a dictionary from `"* name"` to the script path.
  - `-nodefault` clears the repository.
  - `-scene`, `-dir` and `-mask` consume the argument that follows them.
- **`Scripts.ContextInit`** prepares the shared script context before a scene is resolved.
  - It sets the scene entry.
  - It removes the algorithm and synthesizer entries.
  - It writes the resolution, super-sampling and animation values.
- **`Scripts.SceneFromObject`** fills the context's scene.
  - If the scene definition is an existing script file, it compiles and runs that file.
  - If the script cannot be read or does not compile, it falls back to the default builder.
  - If the definition is a builder delegate, it calls that delegate.
  - It reports progress to an optional message sink, numbered by a static counter.
- **`Scripts.ContextMining`** reads back what a script left in the context.
- **`Cubes.cs`** is a scene script that follows the two-pass protocol:
  - a probe pass only publishes a tooltip;
  - a build pass selects ray tracing and, unless the scene already has a background colour,
    builds a plane and twelve cubes whose material is chosen by the text parameter.

Files:

- `Wrappers.dfy`: `Option`.
- `SceneGraph.dfy`: CSG nodes and the ray scene. Both are classes whose fields the script updates.
- `Context.dfy`: the context dictionary as a class around a `map`, and the values it holds.
- `RayCastingScripts.dfy`: the four operations, as methods of class `Scripts`.
  - The static counter is the field `Scripts.count`.
  - Each method is proved against a specification function:
    - `ConfigOps`, `ApplyOps` and `PutCount` for `ReadFromConfig`;
    - `Initialized` for `ContextInit`;
    - `ComponentAt`, `TooltipIn` and `TryParseAt` for `ContextMining`;
    - `Resolve` for `SceneFromObject`.
  - Lemmas about those functions state the properties.
- `Cubes.dfy`: the script body as the method `Run`, and the scene it builds as the predicate `Built`.

Host services are parameters of the model:

- The file system is the `FileSystem` datatype of oracles: file and directory existence, `GetFullPath`,
  `GetFileName`, `GetDirectoryName`, directory search and file reading.
  - A search or read that fails with an I/O or access error is `None`.
  - A null path string is `""`.
- The compile-and-run step of a scene script is an oracle `run` with three outcomes:
  - `Completed`;
  - `CompileError` (a `CompilationErrorException`, which is caught);
  - `Faulted` (any other exception, which propagates to the caller).
- The number and parameter-list parsers are oracles.
- `SceneFromObject` records the actions it performs as an ordered list of events, instead of performing them:
  - messages to the sink;
  - the compile-error dialog;
  - script runs;
  - builder calls.

Behaviour of the code worth noting:

- Only `CompilationErrorException` is caught (common/RayCastingScripts.cs:373), so a script that
  throws at run time propagates out of `SceneFromObject`. The model reports this case as `propagated`.
- The counter is incremented inside `message?.Invoke(...)` (common/RayCastingScripts.cs:332, 399).
  C# skips evaluating that argument when the sink is null, so the counter advances only when a
  sink is present.
- `Cubes.cs` sets the background colour right after the root (data/rtscenes/Cubes.cs:32-35).
  It does not set it after the children. The idempotence check on a second build pass
  therefore depends only on that early assignment.

## Model

| member | source | states |
|---|---|---|
| RayCastingScripts.RepoKey | common/RayCastingScripts.cs:96-100 | the repository key starts with `"* "`; a name ending in `.cs` loses exactly that suffix (`key + ".cs" == "* " + name`); any other name is kept whole |
| RayCastingScripts.ParseArg | common/RayCastingScripts.cs:43-81 | each argument step moves strictly forward and never past the end of the list; `-nodefault` asks for no file name and no directory |
| RayCastingScripts.Scripts.ReadFromConfig | common/RayCastingScripts.cs:32-143 | the loop leaves the repository equal to the specified writes applied in order to the old repository, and returns the number of registrations among them |
| RayCastingScripts.Scripts.ReadArgument | common/RayCastingScripts.cs:43-139 | one turn of the loop performs the writes of its argument step and returns how many registrations and where the loop resumes; an empty argument is skipped |
| RayCastingScripts.Scripts.ArgumentTarget | common/RayCastingScripts.cs:46-81 | returns the file name or mask and the directory the argument asks for and the last argument consumed; only `-nodefault` changes the repository, and it clears it |
| RayCastingScripts.Scripts.RegisterTarget | common/RayCastingScripts.cs:83-139 | a directory with a mask registers the search results; a single file is registered if it exists; the count returned is the number of registrations |
| RayCastingScripts.Scripts.RegisterFound | common/RayCastingScripts.cs:90-103 | the `foreach` registers, in order, every search result that exists as a file, and counts each one |
| RayCastingScripts.LaterRegistrationSurvives | common/RayCastingScripts.cs:96-101 | a key's last registration survives if no clear and no write of that key follows it |
| RayCastingScripts.NoDefaultResets | common/RayCastingScripts.cs:41-58 | a `-nodefault` the loop reaches makes the final repository exactly what the later arguments register into an empty one, whatever came before |
| RayCastingScripts.EmptyArgumentSkipped | common/RayCastingScripts.cs:43-44 | an empty argument contributes no write and the loop continues at the next one |
| RayCastingScripts.OptionConsumesNext | common/RayCastingScripts.cs:59-77 | `-scene`, `-dir` and `-mask` consume the following argument exactly when one exists; as the last argument they register nothing |
| RayCastingScripts.DuplicateRegistrationCounted | common/RayCastingScripts.cs:100-101 | for any writes before and after, registering a file a second time right after the first counts two registrations but leaves the same repository as registering it once |
| RayCastingScripts.DuplicateFileArguments | common/RayCastingScripts.cs:49-128 | on the argument level: naming the same existing file twice gives one key and a count of two |
| RayCastingScripts.Initialized | common/RayCastingScripts.cs:191-215 | after initialisation, algorithm and synthesizer are absent; scene, width, height, super-sampling, start, end and fps hold the given values; every other key is untouched |
| RayCastingScripts.Scripts.PlaceScene | common/RayCastingScripts.cs:190-196 | the scene entry becomes `sc` if given, else an existing non-null scene is kept, else a new empty scene is stored; nothing else changes |
| RayCastingScripts.Scripts.ContextInit | common/RayCastingScripts.cs:178-216 | the context becomes `Initialized` of the old context with the chosen scene, in the three scene cases above |
| RayCastingScripts.TryParseAt | common/RayCastingScripts.cs:266-280 | a present key whose value parses yields the parsed value; a missing key or a value that does not parse keeps the prior value; so a value changes only through a successful parse of a present key |
| RayCastingScripts.Scripts.ContextMining | common/RayCastingScripts.cs:228-283 | without a `DefaultRayScene`: returns null, no components, an empty tooltip and unchanged numbers; otherwise returns the scene, the image function and the renderer only when the stored object implements that interface, the tooltip only if it is a string, and the parsed numbers; the context is not modified |
| RayCastingScripts.MiningAfterInit | common/RayCastingScripts.cs:191-280 | reading back an initialised context gives its scene, no image function or renderer, the earlier tooltip and exactly the numbers passed to initialisation |
| RayCastingScripts.ScriptReplacesBuilders | common/RayCastingScripts.cs:330-384 | a readable, non-empty script that compiles runs once, on the context's scene, and no builder is called; it propagates exactly when it throws at run time |
| RayCastingScripts.FallbackCallsDefaultOnce | common/RayCastingScripts.cs:312-389 | an existing script file that is unreadable, empty or does not compile calls `defaultScene(sc)` exactly once and runs no script |
| RayCastingScripts.DelegateDispatch | common/RayCastingScripts.cs:392-399 | a definition that is not an existing file calls the delegate it is (with `par` for the parameter variant), and no builder at all otherwise, such as for a missing path |
| RayCastingScripts.CountAdvancesWithSink | common/RayCastingScripts.cs:330-399 | the static counter advances by one per compile or rendering message, only when a sink is present, and not on the unreadable-script path |
| RayCastingScripts.Scripts.constructor | common/RayCastingScripts.cs:168 | the static counter starts at 0 |
| RayCastingScripts.Scripts.SceneInContext | common/RayCastingScripts.cs:302-307 | an existing `DefaultRayScene` is reused and the context is unchanged; otherwise a new empty scene is stored under the scene key and nothing else changes |
| RayCastingScripts.Scripts.ResolveScript | common/RayCastingScripts.cs:312-390 | for an existing script file, the events, the new counter and the propagation flag are those `Resolve` specifies |
| RayCastingScripts.Scripts.SceneFromObject | common/RayCastingScripts.cs:292-401 | reuses or creates the context's scene as above; events, counter and propagation are those `Resolve` specifies for that scene, so the three dispatch lemmas above apply to the method |
| Cubes.MaterialSelection | data/rtscenes/Cubes.cs:49-71 | `mat=glass` gives the glass material with the parsed `n` (1.6 by default) and transmission 0.9; `mat=mirror` gives the mirror material; any other or missing value gives the base material; only glass sets `n` or transmission |
| Cubes.RefractionOnlyForGlass | data/rtscenes/Cubes.cs:52-71 | when the material is not glass, the `n` parameter does not affect the cubes' material |
| Cubes.SelectMaterial | data/rtscenes/Cubes.cs:49-71 | the material the script computes is the selection above |
| Cubes.AddPlane | data/rtscenes/Cubes.cs:73-77 | the root's first child is a new plane with the red colour and the checker texture, at its placement |
| Cubes.AddCube | data/rtscenes/Cubes.cs:83-85 | child `k` is a new cube, distinct from earlier children, carrying material `pm` at the `k`-th placement; the root's attributes are unchanged |
| Cubes.FrontRow | data/rtscenes/Cubes.cs:82-97 | children 1 to 5 are cubes of material `pm` at the front-row placements |
| Cubes.BackRow | data/rtscenes/Cubes.cs:99-120 | children 6 to 12 are cubes of material `pm` at the back-row placements |
| Cubes.Populate | data/rtscenes/Cubes.cs:73-120 | the root gets exactly 13 distinct children in order: the plane, then the five front-row cubes, then the seven back-row cubes, all cubes sharing material `pm` |
| Cubes.Build | data/rtscenes/Cubes.cs:26-120 | a fresh build sets a new union root with the base material, the background colour, the camera, exactly an ambient and then a point light, and the 13 children with the selected material |
| Cubes.Run | data/rtscenes/Cubes.cs:1-120 | probe pass: adds only the tooltip and leaves the scene unchanged; build pass: sets the algorithm to ray tracing; a scene with a background is left unchanged; otherwise the scene is built as above; with no context, no key is written and the build goes ahead |
| Cubes.TwoPassScenario | data/rtscenes/Cubes.cs:3-45 | after `ContextInit`, a probe run and a build run leave the tooltip and the ray-tracing algorithm in the context and the built scene in its scene entry |

## Left out

- Compiling and running scripts is an oracle outcome. Assembly loading, imports, the `Globals` object
  and the script's own effects on the scene are not modelled. A run is recorded as an event.
- Builder delegates are recorded as `BuilderCall` events. Their effect on the scene is not applied.
- Builders are assumed not to throw. In the source, `defaultScene(sc)`, `isd(sc)` and
  `ispd(sc, par)` run outside any `try` (common/RayCastingScripts.cs:388, 394, 397). A builder
  exception would propagate, and on the delegate path it would also skip the "Rendering" message
  and `++count`. So `FallbackCallsDefaultOnce` and `DelegateDispatch` prove `!propagated` only
  under this assumption.
- Writes by the script or the builders to the context are not applied. The script receives the
  context as a global (common/RayCastingScripts.cs:360), and `Cubes.cs` writes to it. So
  `SceneFromObject`'s ensures about the context describe only the writes `SceneFromObject` makes itself.
  `Cubes.Run` models the script's own writes separately.
- Console warnings and the compile-error message box are left out. The message box is recorded as an
  event without its text. The message texts are `Notice` values, not formatted strings.
- The directory glob, path normalisation and file reading are oracles.
  - Exceptions other than I/O and access errors are not modelled. This covers invalid path
    characters and a null result of `GetFileName`.
  - The file may change between the existence check and the read. This is not modelled.
- `Util.TryParse` and `Util.ParseKeyValueList` are oracle parsers. `PropertyName` keys are distinct
  string constants whose exact texts are not part of this model.
- Scene graph classes are modelled only through what the script assigns: node kind, attributes and
  ordered children with a symbolic transform, and the scene's four fields.
  - Geometry, CSG evaluation, shading and ray tracing are out of scope.
  - Doubles are reals, and transforms are kept as axis, angle and offset, not as matrices.
- A new `DefaultRayScene` is taken to have no root, background, camera or light sources.
  Its class is not part of this model.
- In `Cubes.cs` all cubes share one `PhongMaterial` object. The model gives them equal material values,
  so later mutation through that shared object is not captured.
- `Scripts.count` is a static field in the source. Here it is a field of one `Scripts` object, so
  concurrent resolutions are not modelled.
- The wireframe renderer, the wooden texture and the warping form are out of scope:
  floating-point geometry, noise and GUI code.
