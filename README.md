# Scene files and mesh-obstacle forces

A Dafny model of two parts of a curve-repulsion optimiser.

- **The scene-file reader** (`src/scene_file.cpp`). A scene file is a list of lines.
  - Blank lines are skipped.
  - Every other line is split at spaces into tokens. The first token is a keyword, and the line updates a `SceneData` record in place.
  - The record holds the curve file, the tangent-point energy's alpha, beta and weight, the obstacle list, the extra potentials, the constraint tags, and the pinned vertices and tangents.
  - A line with the wrong number of arguments, or with an unimplemented feature, ends the program with `exit(1)`.
  - A line with an unknown keyword is reported and otherwise ignored.
- **The mesh obstacle** (`src/obstacles/mesh_obstacle.cpp`). The obstacle pushes the curve away from a surface mesh.
  - `AccumulateForce` walks the obstacle's bounding-volume hierarchy (BVH) Barnes-Hut style.
    - An empty node gives zero.
    - A leaf gives its body force.
    - An internal node that the admissibility test `shouldUseCell` accepts gives the body force of its aggregate.
    - Any other internal node gives the sum of its children's forces.
  - `AddGradient` adds weight times that force, vertex by vertex, into the rows of the caller's gradient.

Files:

- `vector3.dfy` holds three-vectors over the reals and the in-order sum that stands for `total += …`.
- `scene_file.dfy` holds the reader.
  - `SceneData` is a class whose fields the methods update.
  - `ProcessLine`, `GetDirectoryFromPath`, `VectorContains` and `ParseSceneFile` are methods, like the source. The last three loop; `ProcessLine` is a single chain of keyword tests.
  - Three methods are proved equal to a pure specification: `ProcessLine` to `LineEffect` for one line, `ParseSceneFile` to `ParseLines` for a whole file, `GetDirectoryFromPath` to `DirectoryOf` for a path.
  - `VectorContains` is proved to answer true exactly when some index of the list holds the searched value.
  - The lemmas state the file format's rules about those specifications.
  - The rules with the most weight are these:
    - `LineStopsIffArityRejected` checks every keyword against a separate table of accepted arities.
    - `LineOnlyAppends` and `StoppingLineChangesNothing` bound what any line can change.
    - The whole-file lemmas cover pieces of a file, blank lines, pin tags and pin order.
  - The per-keyword lemmas (`CurveLine` through `IgnoredLine`) are a readable table of each keyword's effect. Most of them spell out one branch of `LineEffect`.
- `mesh_obstacle.dfy` holds the hierarchy as a datatype.
  - `AccumulateForce` is a recursive function.
  - `bodyForce` is a real-valued expression over an abstract `norm` and `pow`.
  - `MeshObstacle.AddGradient` is a loop over an `array` of rows.
  - The tree lemmas hold for every force kernel. `KernelOf` is the obstacle's own kernel.

`exit(1)` is modelled as an `Exit` outcome that stops the parse. The outcome carries the reason:
- `BadArity(keyword)` for a wrong number of arguments;
- `NotImplemented(keyword)` for an unimplemented feature.

## Model

| member | source | states |
|---|---|---|
| SceneFile.SceneData.constructor | src/scene_file.cpp:198 | a fresh record holds exactly the given initial values |
| SceneFile.GetDirectoryFromPath | src/scene_file.cpp:8-23 | the loop builds the directory of the path: "./" for one part, otherwise every part but the last, each followed by '/' |
| SceneFile.DirectoryOfPath | src/scene_file.cpp:13-22 | a path with one part gives exactly "./"; any directory of a non-empty split ends in '/'; for two or more parts, the directory followed by the last part is the parts joined by '/' |
| SceneFile.VectorContains | src/scene_file.cpp:25-31 | the result is true exactly when some index holds the searched value |
| SceneFile.ProcessLine | src/scene_file.cpp:33-194 | the new record and the outcome are exactly what the line's keyword and arity prescribe (`LineEffect`), for every keyword branch and arity |
| SceneFile.SpellingRecognised | src/scene_file.cpp:33-194 | every keyword is recognised from its own spelling, so no two keywords share a spelling |
| SceneFile.RecognisedOnlyFromSpelling | src/scene_file.cpp:33-194 | a token is recognised as a keyword only when it is that keyword's exact spelling; every other token is unrecognised |
| SceneFile.LineStopsIffArityRejected | src/scene_file.cpp:33-194 | a line stops the reader if and only if its keyword does not accept its number of tokens |
| SceneFile.LineOnlyAppends | src/scene_file.cpp:33-194 | a line never removes or rewrites a list entry and appends at most one entry to each list |
| SceneFile.StoppingLineChangesNothing | src/scene_file.cpp:33-194 | a stopping line leaves the record unchanged, except `fix_edgelengths` with one argument, which appends its constraint before stopping |
| SceneFile.CurveLine | src/scene_file.cpp:37-43 | `curve` goes on if and only if it has exactly one argument, and then sets only the curve file, to the directory plus the argument |
| SceneFile.RepelCurveLine | src/scene_file.cpp:47-65 | `repel_curve` alone sets alpha 3 and beta 6; with two arguments it sets alpha and beta and keeps the weight; with three it also sets the weight; one or more than three arguments stop the reader |
| SceneFile.RepelSurfaceLine | src/scene_file.cpp:67-78 | `repel_surface` goes on if and only if it has one or two arguments, and then appends exactly one obstacle, weight 1 unless a second argument gives it |
| SceneFile.OptimizeLines | src/scene_file.cpp:80-117 | `optimize_length`/`optimize_area` append one potential of weight 1 with no argument or of the given weight with one; `optimize_field` appends one vector-field potential named by its first argument, of weight 1 or the second argument |
| SceneFile.ConstraintLines | src/scene_file.cpp:121-185 | `fix_barycenter` without arguments appends its tag; `fix_edgelengths` appends its tag, and with one argument then stops; `fix_length` and the three constraint-surface keywords always stop and change nothing |
| SceneFile.PinLine | src/scene_file.cpp:149-173 | `fix_vertex i` appends i to the pinned vertices and adds the `Pins` tag only if absent; `fix_tangent` does the same for tangents |
| SceneFile.IgnoredLine | src/scene_file.cpp:187-193 | a `#` line or an unknown keyword leaves the record untouched and does not stop the reader |
| SceneFile.ParseSceneFile | src/scene_file.cpp:196-220 | the loop leaves the record and outcome that reading the lines in order from the initial record gives (`ParseLines`), stopping at the first stopping line |
| SceneFile.ParseLinesAppend | src/scene_file.cpp:210-216 | reading a file in two pieces equals reading the first piece, then the second from where the first left off, unless the first stopped |
| SceneFile.BlankLinesIgnored | src/scene_file.cpp:211-212 | removing the blank lines from a file does not change the result |
| SceneFile.LinePinTags | src/scene_file.cpp:149-173 | no single line can make `Pins` or `TangentPins` appear twice |
| SceneFile.PinTagsAtMostOnce | src/scene_file.cpp:149-173 | however many pin lines a file has, `Pins` and `TangentPins` each occur at most once among the constraints |
| SceneFile.LinePins | src/scene_file.cpp:149-173 | a line that does not stop appends to the pinned vertices exactly when it is a well-formed `fix_vertex` line, and to the pinned tangents exactly when it is a well-formed `fix_tangent` line |
| SceneFile.PinsInLineOrder | src/scene_file.cpp:149-173 | a file read to its end appends every `fix_vertex` (or `fix_tangent`) argument once, in line order |
| Obstacles.BodyForceTowardCenter | src/obstacles/mesh_obstacle.cpp:28-38 | with positive distance and distance^p, the body force is the mass times a positive multiple of center − point |
| Obstacles.UnitDistanceForce | src/obstacles/mesh_obstacle.cpp:28-38 | at distance 1, with pow(1, p) = 1, the body force is the mass times center − point |
| Obstacles.KernelIsBodyForce | src/obstacles/mesh_obstacle.cpp:28-38 | where the divisions are defined, the obstacle's kernel is `bodyForce` |
| Obstacles.BodyForceVanishesWithoutMass | src/obstacles/mesh_obstacle.cpp:28-38 | the obstacle's kernel gives zero for zero mass |
| Obstacles.DefinedForceIgnoresFallback | src/obstacles/mesh_obstacle.cpp:28-59 | where every node the walk evaluates is separated from the point, the obstacle's force equals the force with any kernel that is `bodyForce` on separated points, so the model's zero fallback is never reached |
| Obstacles.AccumulateEmpty | src/obstacles/mesh_obstacle.cpp:41-43 | an empty node gives exactly the zero vector, whatever the query point |
| Obstacles.AccumulateLeaf | src/obstacles/mesh_obstacle.cpp:44-45 | a leaf gives its own body force whatever the admissibility test says |
| Obstacles.AdmissibleIgnoresChildren | src/obstacles/mesh_obstacle.cpp:48-49 | an accepted internal node gives its aggregate's body force, the same whatever its children |
| Obstacles.RefinedNodeSumsChildren | src/obstacles/mesh_obstacle.cpp:51-56 | a rejected internal node gives the in-order sum, from zero, of its children's forces |
| Obstacles.ChildOrderIrrelevant | src/obstacles/mesh_obstacle.cpp:51-56 | children in any rearranged order sum to the same force |
| Obstacles.MasslessContributesNothing | src/obstacles/mesh_obstacle.cpp:40-59 | with a kernel that vanishes without mass, a subtree without mass contributes exactly zero |
| Obstacles.UnapproximatedIsBruteForce | src/obstacles/mesh_obstacle.cpp:40-59 | when the test rejects every internal node, the force is the brute-force sum of the body forces of all non-empty leaves, left to right |
| Obstacles.MeshObstacle.constructor | src/obstacles/mesh_obstacle.cpp:5-11 | the obstacle keeps the given hierarchy, exponent and weight |
| Obstacles.MeshObstacle.AddGradient | src/obstacles/mesh_obstacle.cpp:19-26 | each row below the vertex count becomes its old value plus weight times the force at that vertex alone; all later rows are unchanged |

## Left out

- File I/O and console output are not modelled: opening, closing and the "could not open" exit, `getline`, and every message to the console. The file arrives as a sequence of lines.
- `exit(1)` is an outcome, not the end of the process.
- `stod`, `stoi` and `splitString` are function parameters of the model. Their behaviour, including `stod`/`stoi` throwing on bad text, is not modelled. `GetDirectoryFromPath` is therefore specified over the parts the split returns.
- The `SceneData` defaults and the full `PotentialType`/`ConstraintType` enumerations live in `scene_file.h`, which is not part of this model. `ParseSceneFile` starts from a caller-given record, and the enumerations list only the values this file uses.
- ProcessLine: requires at least one token, because the source reads `parts[0]` unconditionally.
- Floating point is not modelled: vectors are over the reals, so sums are exact and associative.
- `norm` and `pow` are abstract functions.
- The accuracy and convergence of the Barnes-Hut approximation are not modelled.
- BVH construction (`CreateBVHFromMesh`) and the admissibility test `shouldUseCell` are given, not computed. The hierarchy's stored masses and centres are taken as they are.
- Obstacles.KernelOf: where the source would divide by zero (a query point at distance 0, or distance^p equal to 0), the model's kernel returns zero. The source produces non-finite values there. `AddGradient` requires `ForceDefined` for every vertex, and `DefinedForceIgnoresFallback` proves that under it the fallback never affects the force.
- The destructor, `shared_ptr` ownership of the mesh and geometry, and Eigen's `MatrixXd`/`AddToRow` are not modelled. The gradient is an array of three-vectors, and the curve network is the sequence of vertex positions.
