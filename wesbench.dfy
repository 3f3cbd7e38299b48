/** The benchmark's application state and the steps of the triangle-rate
    benchmark that are not OpenGL calls: reading the command line into the
    state, choosing the effective triangle limit, packing the mesh and
    counting what the timed loop submits. */
module WesBench {
  import opened CTypes
  import opened ArgParser
  import opened DispatchPacker
  import opened TimedLoop

  datatype TriangleType = DisjointTriangles

  const DEFAULT_TRIANGLE_AREA: real := 128.0
  const DEFAULT_TEST_DURATION_SECONDS: real := 5.0
  const DEFAULT_WIN_WIDTH: int := 1024
  const DEFAULT_WIN_HEIGHT: int := 1024
  const DEFAULT_TRIANGLE_LIMIT: nat := 1024 * 1024 * 1024
  const DEFAULT_VERTEXBUF_LIMIT: nat := 1024 * 1024 * 1024
  const DEFAULT_OUTLINE_MODE_BOOL: int := 1

  /** The arguments from index i on (none when i is past the end). */
  function Args(argv: seq<string>, i: nat): (r: seq<string>)
    ensures |argv| < i ==> r == []
    ensures i <= |argv| ==> |r| == |argv| - i && forall k :: 0 <= k < |r| ==> r[k] == argv[i + k]
  {
    if i <= |argv| then argv[i..] else []
  }

  /** Advancing the argument index drops that many arguments. */
  lemma ArgsDrop(argv: seq<string>, i: nat, k: nat)
    requires i + k <= |argv|
    ensures Args(argv, i + k) == Args(argv, i)[k..]
  {
  }

  /** After one recognized flag at argv[i], parsing on from the next flag
      with the updated settings gives the same outcome. */
  lemma ParseAdvance(argv: seq<string>, i: nat, used: nat, s0: Settings, s1: Settings, conv: Converters)
    requires i < |argv| && ValuesPresent(Args(argv, i)) && Recognized(argv[i])
    requires used == (if TakesValue(argv[i]) then 2 else 1)
    requires s1 == ParseStepSettings(Args(argv, i), s0, conv)
    ensures i + used <= |argv| && ValuesPresent(Args(argv, i + used))
    ensures Parse(Args(argv, i + used), s1, conv) == Parse(Args(argv, i), s0, conv)
  {
    var rest := Args(argv, i);
    assert rest[0] == argv[i];
    ParseStep(rest, s0, conv);
    ArgsDrop(argv, i, used);
  }

  /** The limit selection as the source writes it: `triangleLimit*3` is
      a `size_t` product, reduced modulo 2^64 before the comparison. The
      chosen value is still a `size_t`; its conversion to `int` follows. */
  function SelectLimitAsWritten(triangleLimit: nat, vertexBufLimit: nat): (r: nat)
    requires triangleLimit < SIZE_MOD && vertexBufLimit < SIZE_MOD
    ensures r == triangleLimit || r == vertexBufLimit / 3
    ensures triangleLimit * 3 < SIZE_MOD ==> r == EffectiveTriangleLimit(triangleLimit, vertexBufLimit)
  {
    if (triangleLimit * 3) % SIZE_MOD > vertexBufLimit then vertexBufLimit / 3
    else triangleLimit
  }

  /** A triangle limit of 6148914691236517206 (accepted by `-l`) makes the
      product wrap to 2, which is below the default vertex buffer limit:
      the source keeps the triangle limit although its vertices exceed the
      buffer limit many times over. */
  lemma WrappedProductKeepsHugeLimit()
    ensures (6148914691236517206 * 3) % SIZE_MOD == 2
    ensures SelectLimitAsWritten(6148914691236517206, DEFAULT_VERTEXBUF_LIMIT) == 6148914691236517206
    ensures 6148914691236517206 * 3 > DEFAULT_VERTEXBUF_LIMIT
    ensures EffectiveTriangleLimit(6148914691236517206, DEFAULT_VERTEXBUF_LIMIT) == DEFAULT_VERTEXBUF_LIMIT / 3
  {
    ModUnique(6148914691236517206 * 3, 1, 2, SIZE_MOD);
  }

  /** The limit handed to the packer: the triangle limit, unless its three
      vertices per triangle would exceed the vertex buffer limit, in which
      case as many triangles as the buffer holds. The product is compared
      without wrap-around. */
  function EffectiveTriangleLimit(triangleLimit: nat, vertexBufLimit: nat): (r: nat)
    ensures r <= triangleLimit && r * 3 <= vertexBufLimit
    ensures r == triangleLimit || vertexBufLimit < (r + 1) * 3
    ensures r == Min(triangleLimit, vertexBufLimit / 3)
  {
    if triangleLimit * 3 > vertexBufLimit then vertexBufLimit / 3
    else triangleLimit
  }

  class AppState {
    var triangleAreaInPixels: real
    var testDurationSeconds: real
    var imgWidth: int
    var imgHeight: int
    var triangleLimit: nat
    var vertexBufLimit: nat
    var outlineMode: int
    var triangleType: TriangleType
    var computedVertsPerArrayCall: nat
    var computedIndicesPerArrayCall: nat

    /** The `size_t` fields hold `size_t` values. */
    ghost predicate Valid()
      reads this
    {
      triangleLimit < SIZE_MOD && vertexBufLimit < SIZE_MOD &&
      computedVertsPerArrayCall < SIZE_MOD && computedIndicesPerArrayCall < SIZE_MOD
    }

    /** The fields the command line can set. */
    function Current(): (s: Settings)
      reads this
      ensures s.triangleLimit == triangleLimit && s.vertexBufLimit == vertexBufLimit
    {
      Settings(triangleAreaInPixels, testDurationSeconds, triangleLimit, vertexBufLimit, outlineMode)
    }

    /** The defaults `main` stores before parsing; the computed fields of
        the zero-initialised global start at 0. */
    constructor()
      ensures Valid()
      ensures triangleAreaInPixels == DEFAULT_TRIANGLE_AREA
      ensures testDurationSeconds == DEFAULT_TEST_DURATION_SECONDS
      ensures imgWidth == DEFAULT_WIN_WIDTH && imgHeight == DEFAULT_WIN_HEIGHT
      ensures triangleLimit == DEFAULT_TRIANGLE_LIMIT
      ensures vertexBufLimit == DEFAULT_VERTEXBUF_LIMIT
      ensures outlineMode == DEFAULT_OUTLINE_MODE_BOOL
      ensures triangleType == DisjointTriangles
      ensures computedVertsPerArrayCall == 0 && computedIndicesPerArrayCall == 0
    {
      triangleAreaInPixels := DEFAULT_TRIANGLE_AREA;
      triangleType := DisjointTriangles;
      testDurationSeconds := DEFAULT_TEST_DURATION_SECONDS;
      imgWidth := DEFAULT_WIN_WIDTH;
      imgHeight := DEFAULT_WIN_HEIGHT;
      triangleLimit := DEFAULT_TRIANGLE_LIMIT;
      vertexBufLimit := DEFAULT_VERTEXBUF_LIMIT;
      outlineMode := DEFAULT_OUTLINE_MODE_BOOL;
      computedVertsPerArrayCall := 0;
      computedIndicesPerArrayCall := 0;
    }

    /** One pass of the parser loop at argv[i]: a recognized flag sets its
        field and consumes itself and its value (`used` arguments in all);
        any other token stops the parser with exit status -1. */
    method ParseArg(argv: seq<string>, i: nat, conv: Converters) returns (used: nat, status: Status)
      requires Valid() && i < |argv| && ValuesPresent(Args(argv, i))
      modifies this`triangleAreaInPixels, this`testDurationSeconds, this`triangleLimit,
               this`vertexBufLimit, this`outlineMode
      ensures Valid()
      ensures Recognized(argv[i]) ==>
        && status == Done && used == (if TakesValue(argv[i]) then 2 else 1)
        && Current() == ParseStepSettings(Args(argv, i), old(Current()), conv)
      ensures !Recognized(argv[i]) ==>
        && status == Exit(EXIT_UNRECOGNIZED, argv[i]) && used == 0
        && Current() == old(Current())
    {
      assert Args(argv, i)[0] == argv[i];
      used, status := 1, Done;
      if argv[i] == "-a" {
        used := 2;
        triangleAreaInPixels := conv.atof(argv[i + 1]);
      } else if argv[i] == "-l" {
        used := 2;
        triangleLimit := ToSizeT(conv.atol(argv[i + 1]));
      } else if argv[i] == "-s" {
        used := 2;
        testDurationSeconds := conv.atof(argv[i + 1]);
      } else if argv[i] == "-tl" {
        used := 2;
        triangleLimit := ToSizeT(conv.atoi(argv[i + 1]));
      } else if argv[i] == "-vl" {
        used := 2;
        vertexBufLimit := ToSizeT(conv.atoi(argv[i + 1]));
      } else if argv[i] == "-line" {
        outlineMode := 1;
      } else {
        used, status := 0, Exit(EXIT_UNRECOGNIZED, argv[i]);
      }
    }

    /** Reads argv[1..] into the state. On an unrecognized argument the
        process exits with status -1; the result then carries that status
        and the settings read up to that point. */
    method ParseArgs(argv: seq<string>, conv: Converters) returns (status: Status)
      requires Valid() && ValuesPresent(Args(argv, 1))
      modifies this`triangleAreaInPixels, this`testDurationSeconds, this`triangleLimit,
               this`vertexBufLimit, this`outlineMode
      ensures Valid()
      ensures Current() == Parse(Args(argv, 1), old(Current()), conv).settings
      ensures status == Parse(Args(argv, 1), old(Current()), conv).status
    {
      var i := 1;
      var argc := |argv|;
      argc := argc - 1;
      while argc > 0
        invariant 1 <= i && argc == |argv| - i
        invariant Valid() && ValuesPresent(Args(argv, i))
        invariant Parse(Args(argv, i), Current(), conv) == Parse(Args(argv, 1), old(Current()), conv)
        decreases argc
      {
        ghost var s0 := Current();
        var used;
        used, status := ParseArg(argv, i, conv);
        if status.Exit? {
          // the process exits here, with the state as it stands
          return;
        }
        ParseAdvance(argv, i, used, s0, Current(), conv);
        i, argc := i + used, argc - used;
      }
      status := Done;
    }

    /** The benchmark, without its OpenGL calls. The base mesh (built from
        floating-point arithmetic) is an input: nVertsPerAxis quads per
        axis over (n+1)^2 records. The clock supplies the `glfwGetTime`
        readings of the timed loop. */
    method TriangleRateBenchmark<V(0), C(0), N(0), T(0)>(
      nVertsPerAxis: nat,
      baseVerts: array<V>, baseColors: array<C>, baseNormals: array<N>, baseTCs: array<T>,
      clock: seq<real>)
      returns (nFrames: nat, totalTris: nat, totalVerts: nat,
               dispatchTriangles: int, dispatchVertexCount: int)
      requires Valid()
      requires FitsInt(testDurationSeconds)
      requires Expires(clock, TruncateToInt(testDurationSeconds))
      requires EffectiveTriangleLimit(triangleLimit, vertexBufLimit) <= INT_MAX
      requires 6 * (nVertsPerAxis * nVertsPerAxis) <= INT_MAX
      requires 2 * (nVertsPerAxis * nVertsPerAxis) < EffectiveTriangleLimit(triangleLimit, vertexBufLimit)
            || 3 * EffectiveTriangleLimit(triangleLimit, vertexBufLimit) <= INT_MAX
      requires (nVertsPerAxis + 1) * (nVertsPerAxis + 1) <= baseVerts.Length
      requires (nVertsPerAxis + 1) * (nVertsPerAxis + 1) <= baseColors.Length
      requires (nVertsPerAxis + 1) * (nVertsPerAxis + 1) <= baseNormals.Length
      requires (nVertsPerAxis + 1) * (nVertsPerAxis + 1) <= baseTCs.Length
      modifies this`computedVertsPerArrayCall, this`computedIndicesPerArrayCall
      ensures Valid()
      ensures dispatchTriangles
           == Min(2 * (nVertsPerAxis * nVertsPerAxis), Min(triangleLimit, vertexBufLimit / 3))
      ensures 0 <= dispatchVertexCount == 3 * dispatchTriangles <= vertexBufLimit
      ensures computedVertsPerArrayCall == dispatchVertexCount
      ensures computedIndicesPerArrayCall == 0
      ensures nFrames == Frames(clock, TruncateToInt(testDurationSeconds))
      ensures totalTris == (nFrames * dispatchTriangles) % SIZE_MOD
      ensures totalVerts == (nFrames * dispatchVertexCount) % SIZE_MOD
    {
      var testDuration := TruncateToInt(testDurationSeconds);

      match triangleType {
        case DisjointTriangles =>
          var limit := EffectiveTriangleLimit(triangleLimit, vertexBufLimit);
          var dv, dc, dn, dtc;
          dispatchTriangles, dispatchVertexCount, dv, dc, dn, dtc :=
            BuildDisjointTriangleArrays(nVertsPerAxis, limit,
                                        baseVerts, baseColors, baseNormals, baseTCs);
          computedVertsPerArrayCall := ToSizeT(dispatchVertexCount);
          computedIndicesPerArrayCall := 0;
      }

      var startTime, endTime;
      nFrames, totalTris, totalVerts, startTime, endTime :=
        RunTimedLoop(clock, testDuration, dispatchTriangles, computedVertsPerArrayCall);
    }
  }
}
