/** What `parseArgs` does to the run settings, as a function of the
    arguments after the program name. Five flags take the next argument
    as their value, `-line` takes none, and any other token ends the
    process with exit status -1. */
module ArgParser {
  import opened CTypes

  /** The AppState fields that the command line can set. */
  datatype Settings = Settings(
    triangleAreaInPixels: real,
    testDurationSeconds: real,
    triangleLimit: nat,
    vertexBufLimit: nat,
    outlineMode: int)

  /** The C library's `atof`, `atoi` and `atol`, whose parsing is not
      modelled: any functions of the argument text. */
  datatype Converters = Converters(
    atof: string -> real,
    atoi: string -> int,
    atol: string -> int)

  datatype Status = Done | Exit(code: int, arg: string)

  datatype Outcome = Outcome(settings: Settings, status: Status)

  const EXIT_UNRECOGNIZED: int := -1

  predicate TakesValue(flag: string) {
    flag in {"-a", "-l", "-s", "-tl", "-vl"}
  }

  predicate Recognized(flag: string) {
    TakesValue(flag) || flag == "-line"
  }

  /** Every value-taking flag the parser reaches has a following argument
      (otherwise the parser reads past the end of argv). */
  predicate ValuesPresent(args: seq<string>)
    decreases |args|
  {
    if args == [] then true
    else if TakesValue(args[0]) then 2 <= |args| && ValuesPresent(args[2..])
    else if args[0] == "-line" then ValuesPresent(args[1..])
    else true
  }

  /** The effect of one value-taking flag. `-l` and `-tl` both write the
      triangle limit; the integer results are converted to `size_t`. */
  function Apply(flag: string, value: string, s: Settings, conv: Converters): (r: Settings)
    requires TakesValue(flag)
    ensures r.outlineMode == s.outlineMode
    ensures flag != "-a" ==> r.triangleAreaInPixels == s.triangleAreaInPixels
    ensures flag != "-s" ==> r.testDurationSeconds == s.testDurationSeconds
    ensures flag != "-l" && flag != "-tl" ==> r.triangleLimit == s.triangleLimit
    ensures flag != "-vl" ==> r.vertexBufLimit == s.vertexBufLimit
    ensures r.triangleLimit < SIZE_MOD || r.triangleLimit == s.triangleLimit
    ensures r.vertexBufLimit < SIZE_MOD || r.vertexBufLimit == s.vertexBufLimit
  {
    if flag == "-a" then s.(triangleAreaInPixels := conv.atof(value))
    else if flag == "-l" then s.(triangleLimit := ToSizeT(conv.atol(value)))
    else if flag == "-s" then s.(testDurationSeconds := conv.atof(value))
    else if flag == "-tl" then s.(triangleLimit := ToSizeT(conv.atoi(value)))
    else s.(vertexBufLimit := ToSizeT(conv.atoi(value)))
  }

  /** The settings after the flags read, and `Done`, or `Exit(-1, t)` for
      the first token t that is not a recognized flag. */
  function Parse(args: seq<string>, s: Settings, conv: Converters): (r: Outcome)
    requires ValuesPresent(args)
    ensures r.status.Exit? ==>
      && r.status.code == EXIT_UNRECOGNIZED && !Recognized(r.status.arg) && r.status.arg in args
    decreases |args|
  {
    if args == [] then Outcome(s, Done)
    else if TakesValue(args[0]) then Parse(args[2..], Apply(args[0], args[1], s, conv), conv)
    else if args[0] == "-line" then Parse(args[1..], s.(outlineMode := 1), conv)
    else Outcome(s, Exit(EXIT_UNRECOGNIZED, args[0]))
  }

  /** The settings after the parser's one step on a recognized flag. */
  function ParseStepSettings(args: seq<string>, s: Settings, conv: Converters): Settings
    requires ValuesPresent(args) && args != [] && Recognized(args[0])
  {
    if TakesValue(args[0]) then Apply(args[0], args[1], s, conv) else s.(outlineMode := 1)
  }

  /** One step of the parser on a recognized flag: it consumes the flag
      and, for a value-taking flag, its value. */
  lemma ParseStep(args: seq<string>, s: Settings, conv: Converters)
    requires ValuesPresent(args) && args != [] && Recognized(args[0])
    ensures var used := if TakesValue(args[0]) then 2 else 1;
      && used <= |args| && ValuesPresent(args[used..])
      && Parse(args, s, conv) == Parse(args[used..], ParseStepSettings(args, s, conv), conv)
  {
  }

  /** The tokens the parser reads as flags, in order, up to and including
      the first one it does not recognize. */
  function FlagTokens(args: seq<string>): seq<string>
    requires ValuesPresent(args)
    decreases |args|
  {
    if args == [] then []
    else if TakesValue(args[0]) then [args[0]] + FlagTokens(args[2..])
    else if args[0] == "-line" then [args[0]] + FlagTokens(args[1..])
    else [args[0]]
  }

  /** The two limits are `size_t` values. */
  predicate SizesFit(s: Settings) {
    s.triangleLimit < SIZE_MOD && s.vertexBufLimit < SIZE_MOD
  }

  /** Whatever the arguments, the limits stay within `size_t`. */
  lemma {:induction false} ParseKeepsSizesFit(args: seq<string>, s: Settings, conv: Converters)
    requires ValuesPresent(args) && SizesFit(s)
    ensures SizesFit(Parse(args, s, conv).settings)
    decreases |args|
  {
    if args == [] {
    } else if TakesValue(args[0]) {
      ParseKeepsSizesFit(args[2..], Apply(args[0], args[1], s, conv), conv);
    } else if args[0] == "-line" {
      ParseKeepsSizesFit(args[1..], s.(outlineMode := 1), conv);
    }
  }

  /** A prefix of the command line that the parser reads completely. */
  predicate Completes(args: seq<string>, s: Settings, conv: Converters) {
    ValuesPresent(args) && Parse(args, s, conv).status == Done
  }

  /** The parser finishes normally exactly when every token in flag
      position is recognized; otherwise it exits with status -1 on the
      first unrecognized one. */
  lemma {:induction false} ExitsIffUnrecognizedFlag(args: seq<string>, s: Settings, conv: Converters)
    requires ValuesPresent(args)
    ensures var flags := FlagTokens(args);
      && (Parse(args, s, conv).status == Done <==>
            forall k :: 0 <= k < |flags| ==> Recognized(flags[k]))
      && (Parse(args, s, conv).status.Exit? ==>
            && 0 < |flags|
            && Parse(args, s, conv).status == Exit(-1, flags[|flags| - 1])
            && !Recognized(flags[|flags| - 1]))
    decreases |args|
  {
    if args != [] && Recognized(args[0]) {
      var rest := if TakesValue(args[0]) then args[2..] else args[1..];
      var s' := if TakesValue(args[0]) then Apply(args[0], args[1], s, conv) else s.(outlineMode := 1);
      assert Parse(args, s, conv) == Parse(rest, s', conv);
      ExitsIffUnrecognizedFlag(rest, s', conv);
      assert Parse(rest, s', conv).status == Done ==> (forall k :: 0 <= k < |FlagTokens(rest)| ==> Recognized(FlagTokens(rest)[k]));
      assert Parse(rest, s', conv).status != Done ==> !(forall k :: 0 <= k < |FlagTokens(rest)| ==> Recognized(FlagTokens(rest)[k]));
      var flags, tail := FlagTokens(args), FlagTokens(rest);
      assert flags == [args[0]] + tail;
      assert flags[0] == args[0];
      assert (forall k :: 0 <= k < |flags| ==> Recognized(flags[k]))
         <==> (forall k :: 0 <= k < |tail| ==> Recognized(tail[k])) by {
        forall k | 0 <= k < |tail| ensures flags[k + 1] == tail[k] { }
        forall k | 0 < k < |flags| ensures flags[k] == tail[k - 1] { }
      }
    } else if args != [] {
      assert FlagTokens(args)[0] == args[0];
    }
  }

  /** A field keeps its prior value unless one of its flags is read. */
  lemma {:induction false} UnmentionedFieldsKept(args: seq<string>, s: Settings, conv: Converters)
    requires ValuesPresent(args)
    ensures var r, flags := Parse(args, s, conv).settings, FlagTokens(args);
      && ("-a" !in flags ==> r.triangleAreaInPixels == s.triangleAreaInPixels)
      && ("-s" !in flags ==> r.testDurationSeconds == s.testDurationSeconds)
      && ("-l" !in flags && "-tl" !in flags ==> r.triangleLimit == s.triangleLimit)
      && ("-vl" !in flags ==> r.vertexBufLimit == s.vertexBufLimit)
      && ("-line" !in flags ==> r.outlineMode == s.outlineMode)
    decreases |args|
  {
    if args == [] {
    } else if TakesValue(args[0]) {
      UnmentionedFieldsKept(args[2..], Apply(args[0], args[1], s, conv), conv);
    } else if args[0] == "-line" {
      UnmentionedFieldsKept(args[1..], s.(outlineMode := 1), conv);
    }
  }

  /** Parsing a completed prefix and then the rest is parsing the whole. */
  lemma {:induction false} ParseAppend(a: seq<string>, b: seq<string>, s: Settings, conv: Converters)
    requires Completes(a, s, conv) && ValuesPresent(b)
    ensures ValuesPresent(a + b)
    ensures Parse(a + b, s, conv) == Parse(b, Parse(a, s, conv).settings, conv)
    decreases |a|
  {
    if a == [] {
      assert a + b == b;
    } else if TakesValue(a[0]) {
      assert (a + b)[2..] == a[2..] + b;
      ParseAppend(a[2..], b, Apply(a[0], a[1], s, conv), conv);
    } else {
      assert (a + b)[1..] == a[1..] + b;
      ParseAppend(a[1..], b, s.(outlineMode := 1), conv);
    }
  }

  /** The last occurrence of a value-taking flag decides its field. */
  lemma {:induction false} LastOccurrenceWins(a: seq<string>, flag: string, value: string,
                                              s: Settings, conv: Converters)
    requires Completes(a, s, conv) && TakesValue(flag)
    ensures ValuesPresent(a + [flag, value])
    ensures Parse(a + [flag, value], s, conv)
         == Outcome(Apply(flag, value, Parse(a, s, conv).settings, conv), Done)
  {
    var tail := [flag, value];
    assert tail[2..] == [];
    ParseAppend(a, tail, s, conv);
  }

  /** `-line` sets outline mode and consumes no value: the very next
      token is read as a flag. */
  lemma {:induction false} LineTakesNoValue(a: seq<string>, rest: seq<string>,
                                            s: Settings, conv: Converters)
    requires Completes(a, s, conv) && ValuesPresent(rest)
    ensures ValuesPresent(a + ["-line"] + rest)
    ensures Parse(a + ["-line"] + rest, s, conv)
         == Parse(rest, Parse(a, s, conv).settings.(outlineMode := 1), conv)
  {
    var tail := ["-line"] + rest;
    assert tail[1..] == rest;
    ParseAppend(a, tail, s, conv);
    assert a + ["-line"] + rest == a + tail;
  }

  /** The usage text also lists -w, -h, -df and -tt, but the parser does
      not know them: each ends the run, with the settings read so far. */
  lemma {:induction false} UsageOnlyFlagsExit(a: seq<string>, flag: string, rest: seq<string>,
                                              s: Settings, conv: Converters)
    requires Completes(a, s, conv)
    requires flag in {"-w", "-h", "-df", "-tt"}
    ensures ValuesPresent(a + [flag] + rest)
    ensures Parse(a + [flag] + rest, s, conv)
         == Outcome(Parse(a, s, conv).settings, Exit(-1, flag))
  {
    var tail := [flag] + rest;
    ParseAppend(a, tail, s, conv);
    assert a + [flag] + rest == a + tail;
  }
}
