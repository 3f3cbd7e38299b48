# wesBench triangle-rate benchmark: integer and array core

wesBench measures how fast an OpenGL implementation draws small triangles.
It builds a quad mesh covering the window, repacks it into flat arrays of
disjoint triangles, and draws those arrays repeatedly for a fixed number of
seconds while it counts frames, triangles and vertices. This project models
the parts of `wesbench-instructional.c` that are integer and array logic:

- `CTypes` (`c_types.dfy`) holds the C types the program relies on.
  - `int` is 32 bits and `size_t` is 64 bits; unsigned arithmetic wraps modulo 2^64 (`ToSizeT`).
  - Converting a `double` to an `int` truncates toward zero (`TruncateToInt`).
- `DispatchPacker` (`dispatch_packer.dfy`) is `buildDisjointTriangleArrays`.
  - It allocates four dispatch arrays (positions, colours, normals, texture coordinates) and fills them with nested loops, six records per grid quad.
  - It then caps the triangle and vertex counts reported for each draw call.
  - The records are opaque type parameters.
  - The layout is specified by the sequence `DispatchIndices(n)`. The sequence gives, for each dispatch position, the base index copied there. It is defined row by row and also in closed form.
- `ArgParser` (`arg_parser.dfy`) is the meaning of `parseArgs` as a function `Parse` over the arguments after the program name.
  - `atof`, `atoi` and `atol` are passed in as arbitrary functions.
  - `exit(-1)` becomes the status `Exit(-1, arg)`.
- `TimedLoop` (`timed_loop.dfy`) is the timed drawing loop.
  - The clock is a sequence of `glfwGetTime` readings, each stored in an `int`.
  - Drawing and rotating are no-ops for the counters.
- `WesBench` (`wesbench.dfy`) holds the `AppState` record as a class whose fields the program updates in place.
  - The constructor sets the defaults `main` stores.
  - `ParseArgs` is the imperative parser, proved against `Parse`.
  - `EffectiveTriangleLimit` is the limit selection.
  - `TriangleRateBenchmark` is the benchmark with its OpenGL calls removed. It takes the base mesh and the clock as inputs.

The loop checks the duration before the first draw. So a run whose `-s` value truncates to 0 seconds draws no frame at all: unlike a do-while loop, it can draw no frame.

## Model

| member | source | states |
|---|---|---|
| CTypes.ToSizeT | wesbench-instructional.c:140 | The conversion of an `int`/`long` to `size_t` keeps a value in 0..2^64-1 unchanged and adds 2^64 to a negative one of magnitude at most 2^64; the result is always below 2^64 |
| CTypes.TruncateToInt | wesbench-instructional.c:371 | Storing a `double` duration into an `int` yields the integer next to it toward zero: at most x and within 1 below it for x >= 0, at least x and within 1 above it for x < 0, and inside the `int` range |
| DispatchPacker.DispatchIndices | wesbench-instructional.c:214-260 | The dispatch layout: for each of the 6n^2 dispatch positions, the base index whose record the packer copies there, quad by quad in the loops' row-by-row order |
| DispatchPacker.DispatchIndexAt | wesbench-instructional.c:214-260 | The layout has 6n^2 positions, and position 6(jn+i)+k for quad (j, i), 0 <= k < 6, holds base index j(n+1)+i plus the k-th of the offsets 0, 1, n+1, n+1, 1, n+2 (quads visited row by row, j outer and i inner) |
| DispatchPacker.QuadDispatch | wesbench-instructional.c:220-257 | With s = j(n+1)+i and d = 6(jn+i), positions d..d+5 hold s, s+1, s+n+1 (triangle 0) and s+n+1, s+1, s+n+2 (triangle 1), all within the layout |
| DispatchPacker.DispatchIndicesClosedForm | wesbench-instructional.c:214-260 | Every position d of the layout holds (q/n)(n+1) + q%n + offset(d%6) where q = d/6, and n > 0 whenever the layout is non-empty |
| DispatchPacker.DispatchIndicesInGrid | wesbench-instructional.c:220-257 | Every base index the packer reads is below (n+1)^2, the size of the base grid |
| DispatchPacker.LastDispatchIsTopRight | wesbench-instructional.c:252-257 | The last of the 6n^2 positions reads base index (n+1)^2-1, so the grid bound is reached |
| DispatchPacker.QuadOf | wesbench-instructional.c:214-220 | Every layout position d is corner d%6 of the quad in row (d/6)/n and column (d/6)%n, both below n, and d = 6(jn+i)+k |
| DispatchPacker.CopyVertex | wesbench-instructional.c:223-227 | Copying the record at base index sIndx into position dIndx of all four dispatch arrays extends the gathered prefix by one position, for every array from the same base index |
| DispatchPacker.CopyQuad | wesbench-instructional.c:220-258 | The six copies of one quad advance dIndx by 6 and extend the gathered prefix of all four arrays over the quad's six layout positions |
| DispatchPacker.FillMesh | wesbench-instructional.c:214-260 | The nested loops end with dIndx = 6n^2 and every position d of all four dispatch arrays holding the base record at DispatchIndices(n)[d] |
| DispatchPacker.BuildDisjointTriangleArrays | wesbench-instructional.c:185-271 | Four fresh arrays of 2n^2*3 records each, whatever the cap, filled from the same base index at every position; dispatchTriangles = min(2n^2, triangleLimit) and dispatchVertexCount = 3*dispatchTriangles, at most 6n^2 for a non-negative limit |
| ArgParser.Apply | wesbench-instructional.c:130-159 | The effect of one value flag: -a sets the area and -s the duration from `atof`; -l (`atol`) and -tl (`atoi`) both set the triangle limit and -vl (`atoi`) the vertex buffer limit, each converted to `size_t`; every other field keeps its value |
| ArgParser.Parse | wesbench-instructional.c:121-172 | The settings after the recognized flags and their values, and `Done`, or `Exit(-1, t)` for the first token t in flag position that is not a recognized flag (a token of the command line) |
| ArgParser.ExitsIffUnrecognizedFlag | wesbench-instructional.c:128-171 | The parser finishes normally if and only if every token it reads as a flag is one of -a, -l, -s, -tl, -vl, -line; otherwise it exits with status -1 on the first unrecognized one |
| ArgParser.UnmentionedFieldsKept | wesbench-instructional.c:130-163 | A field keeps its prior value unless one of its flags is read (-a area, -s duration, -l or -tl triangle limit, -vl vertex buffer limit, -line outline mode) |
| ArgParser.ParseAppend | wesbench-instructional.c:128-171 | Parsing a completely read prefix and then the rest gives the same settings and status as parsing the whole command line |
| ArgParser.LastOccurrenceWins | wesbench-instructional.c:130-159 | A value-taking flag at the end of a completed command line sets its field from its value over whatever came before; -l and -tl both write the triangle limit |
| ArgParser.LineTakesNoValue | wesbench-instructional.c:160-163 | -line sets outline mode to 1 and consumes no value: the very next token is read as a flag |
| ArgParser.UsageOnlyFlagsExit | wesbench-instructional.c:164-168 | -w, -h, -df and -tt, although listed in the usage text, end the run with status -1 and the settings read before them |
| ArgParser.ParseKeepsSizesFit | wesbench-instructional.c:136-159 | After parsing, both limits are still `size_t` values (below 2^64) |
| TimedLoop.FirstExpiredFrom | wesbench-instructional.c:474-483 | The reading index returned ends the loop (at least the duration past the first reading) and no reading from t up to it does |
| TimedLoop.Frames | wesbench-instructional.c:474-489 | The number of frames drawn: the index of the first clock reading whose whole seconds past the first reading reach the duration, no earlier reading doing so |
| TimedLoop.NoFramesWithoutDuration | wesbench-instructional.c:474 | A duration of at most 0 seconds ends the loop before the first frame |
| TimedLoop.SubSecondDurationDrawsNothing | wesbench-instructional.c:474 | A `-s` value in [0, 1) truncates (line 371) to 0 and the loop draws no frame |
| TimedLoop.RunTimedLoop | wesbench-instructional.c:472-489 | The loop stops at the first reading whose whole seconds past the start reach the duration, after exactly that many frames, with totalTris and totalVerts equal to nFrames times the per-call counts modulo 2^64 |
| WesBench.SelectLimitAsWritten | wesbench-instructional.c:445-448 | The selection as written picks triangleLimit or vertexBufLimit/3, and agrees with the intended limit whenever triangleLimit*3 does not wrap |
| WesBench.WrappedProductKeepsHugeLimit | wesbench-instructional.c:445-448 | For triangleLimit 6148914691236517206 and the default vertex buffer limit the product wraps to 2, the code keeps the triangle limit, and the intended limit is vertexBufLimit/3 |
| WesBench.EffectiveTriangleLimit | wesbench-instructional.c:443-448 | The limit is at most triangleLimit, its three vertices per triangle fit in vertexBufLimit, and it is the largest such count: min(triangleLimit, vertexBufLimit/3) |
| WesBench.AppState.constructor | wesbench-instructional.c:631-638 | The defaults: area 128, duration 5 s, a 1024x1024 window, both limits 2^30, outline mode 1, disjoint triangles, computed counts 0 |
| WesBench.AppState.ParseArg | wesbench-instructional.c:130-168 | One pass of the parser loop: a recognized flag sets exactly its field as Parse's step does and consumes 2 arguments (value flags) or 1 (-line); any other token leaves the state and reports Exit(-1, token) |
| WesBench.AppState.ParseArgs | wesbench-instructional.c:121-172 | The fields the command line sets end equal to Parse of argv[1..] from their prior values, and the returned status is Parse's status; the limits stay `size_t` values |
| WesBench.AppState.TriangleRateBenchmark | wesbench-instructional.c:441-489 | dispatchTriangles = min(2n^2, triangleLimit, vertexBufLimit/3), the vertex count is 3 times that and within vertexBufLimit, computedVertsPerArrayCall is that count and computedIndicesPerArrayCall 0, and the timed loop draws Frames(clock, duration) frames with the wrapped totals nFrames times the per-call counts |

## Left out

- OpenGL and GLFW are not modelled: buffer and state setup, `glFinish`, the matrix stack, the rotations about the viewport centre, `glDrawArrays`, windows, shaders, key callbacks and the main loop. They are foreign calls; the counters do not depend on them.
- `buildBaseArrays` and `normalizeNormal` compute positions, colours, normals and texture coordinates in floating point. The mesh size `nVertsPerAxis` and the four base arrays are inputs of `TriangleRateBenchmark` instead.
- The rate statistics (frames, triangles and vertices per second) are float divisions and are not modelled. So is the clock reading after the loop, which only feeds them.
- The float fields of `AppState` that hold those statistics, and `appName`, are not modelled.
- `check_gl_errors`, `printInfo`, the printing and the pause after the loop are not modelled. They are I/O.
- The text parsing of `atof`, `atoi` and `atol` is not modelled. They are arbitrary functions of the argument text.
- `malloc` failure is not modelled. The source does not check for it, and Dafny allocation does not fail.
- `size_t` is assumed to be 64 bits wide.
- WesBench.AppState.ParseArgs: a value-taking flag given as the last argument makes the source read past the end of argv. The model requires that every such flag has a value (`ValuesPresent`).
- DispatchPacker.BuildDisjointTriangleArrays: `n*n*2*3` and `triangleLimit*3` are `int` products. The model requires that they do not overflow instead of modelling the overflow.
- WesBench.AppState.TriangleRateBenchmark requires that the effective limit fits in an `int`. The source stores the `size_t` value into an `int`, and that conversion is implementation-defined above `INT_MAX`.
- WesBench.AppState.TriangleRateBenchmark uses the corrected limit selection described under Findings.
- WesBench.AppState.TriangleRateBenchmark requires that the `-s` duration fits in an `int` (`FitsInt`). The parser accepts any value, such as `-s 3e9`, and the source's store of such a `double` into an `int` at line 371 is undefined behaviour in C.
- WesBench.AppState.TriangleRateBenchmark and TimedLoop.RunTimedLoop require a clock that eventually reaches the duration (`Expires`). With a clock that never does, the source's loop at line 474 runs forever; the model does not cover that non-terminating run.
- TimedLoop.RunTimedLoop: `nFrames` is a C `int`. Its overflow after 2^31-1 frames is not modelled, and neither is overflow of `endTime - startTime`.

## Findings

| source | as written | input that shows it | evidently intended | confidence | as-written member | corrected member |
|---|---|---|---|---|---|---|
| wesbench-instructional.c:445-448 | `as->triangleLimit*3` is a `size_t` product that wraps modulo 2^64 before it is compared with `vertexBufLimit` | `-l 6148914691236517206` with the default vertex buffer limit: the product wraps to 2, so the code keeps the triangle limit although its vertices exceed the buffer limit | the smaller of `triangleLimit` and `vertexBufLimit/3` | medium, not executed | WesBench.SelectLimitAsWritten, WesBench.WrappedProductKeepsHugeLimit | WesBench.EffectiveTriangleLimit |
