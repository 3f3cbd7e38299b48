/** The timed submission loop of the benchmark. The clock is a sequence of
    `glfwGetTime` readings in seconds, each stored into an `int` (so
    truncated); the draw call and the rotation about the viewport centre
    leave the counters alone and are not modelled. */
module TimedLoop {
  import opened CTypes

  /** Every reading can be stored in an `int`. */
  predicate ClockFits(clock: seq<real>) {
    forall k :: 0 <= k < |clock| ==> FitsInt(clock[k])
  }

  /** Whole seconds between the first reading and reading k, as the loop
      sees them. */
  function Elapsed(clock: seq<real>, k: nat): int
    requires ClockFits(clock) && k < |clock|
  {
    TruncateToInt(clock[k]) - TruncateToInt(clock[0])
  }

  /** Some reading is at least the test duration past the first: the
      clock eventually ends the loop. */
  predicate Expires(clock: seq<real>, testDurationSeconds: int) {
    ClockFits(clock) && 0 < |clock| &&
    exists k :: 0 <= k < |clock| && Elapsed(clock, k) >= testDurationSeconds
  }

  /** The index of the first reading, from t on, that ends the loop. */
  function FirstExpiredFrom(clock: seq<real>, testDurationSeconds: int, t: nat): (k: nat)
    requires ClockFits(clock) && t < |clock|
    requires exists k :: t <= k < |clock| && Elapsed(clock, k) >= testDurationSeconds
    ensures t <= k < |clock| && Elapsed(clock, k) >= testDurationSeconds
    ensures forall m :: t <= m < k ==> Elapsed(clock, m) < testDurationSeconds
    decreases |clock| - t
  {
    if Elapsed(clock, t) >= testDurationSeconds then t
    else FirstExpiredFrom(clock, testDurationSeconds, t + 1)
  }

  /** Any reading that ends the loop with none before it is the first. */
  lemma {:induction false} FirstExpiredUnique(clock: seq<real>, testDurationSeconds: int, t: nat, k: nat)
    requires ClockFits(clock) && t <= k < |clock|
    requires Elapsed(clock, k) >= testDurationSeconds
    requires forall m :: t <= m < k ==> Elapsed(clock, m) < testDurationSeconds
    ensures FirstExpiredFrom(clock, testDurationSeconds, t) == k
    decreases k - t
  {
    if t < k {
      FirstExpiredUnique(clock, testDurationSeconds, t + 1, k);
    }
  }

  /** The number of frames drawn: one per reading taken after the first
      until the duration is reached. */
  function Frames(clock: seq<real>, testDurationSeconds: int): (k: nat)
    requires Expires(clock, testDurationSeconds)
    ensures k < |clock| && Elapsed(clock, k) >= testDurationSeconds
    ensures forall m :: 0 <= m < k ==> Elapsed(clock, m) < testDurationSeconds
  {
    FirstExpiredFrom(clock, testDurationSeconds, 0)
  }

  /** With a duration of at most zero seconds the loop test fails at once
      and no frame is drawn. */
  lemma NoFramesWithoutDuration(clock: seq<real>, testDurationSeconds: int)
    requires ClockFits(clock) && 0 < |clock| && testDurationSeconds <= 0
    ensures Expires(clock, testDurationSeconds)
    ensures Frames(clock, testDurationSeconds) == 0
  {
    assert Elapsed(clock, 0) == 0;
  }

  /** The `-s` value is truncated to whole seconds, so any duration below
      one second draws no frame at all. */
  lemma SubSecondDurationDrawsNothing(clock: seq<real>, seconds: real)
    requires ClockFits(clock) && 0 < |clock| && 0.0 <= seconds < 1.0
    ensures TruncateToInt(seconds) == 0
    ensures Expires(clock, TruncateToInt(seconds))
    ensures Frames(clock, TruncateToInt(seconds)) == 0
  {
    NoFramesWithoutDuration(clock, TruncateToInt(seconds));
  }

  /** One more frame adds one more per-call count to a wrapped total. */
  lemma CountStep(total: int, frames: nat, perCall: int)
    requires total == (frames * perCall) % SIZE_MOD
    ensures (total + perCall) % SIZE_MOD == ((frames + 1) * perCall) % SIZE_MOD
  {
    AddMod(frames * perCall, perCall, SIZE_MOD);
    assert frames * perCall + perCall == (frames + 1) * perCall;
  }

  /** Runs the loop: after k frames, nFrames == k and the size_t totals
      hold k times the per-call counts, modulo 2^64. The loop stops at the
      first reading at least testDurationSeconds past the start. */
  method RunTimedLoop(clock: seq<real>, testDurationSeconds: int,
                      dispatchTriangles: int, vertsPerArrayCall: nat)
    returns (nFrames: nat, totalTris: nat, totalVerts: nat, startTime: int, endTime: int)
    requires Expires(clock, testDurationSeconds)
    ensures nFrames == Frames(clock, testDurationSeconds)
    ensures startTime == TruncateToInt(clock[0]) && endTime == TruncateToInt(clock[nFrames])
    ensures endTime - startTime >= testDurationSeconds
    ensures forall k :: 0 <= k < nFrames ==> Elapsed(clock, k) < testDurationSeconds
    ensures totalTris == (nFrames * dispatchTriangles) % SIZE_MOD
    ensures totalVerts == (nFrames * vertsPerArrayCall) % SIZE_MOD
  {
    totalTris, totalVerts := 0, 0;
    nFrames := 0;
    var reading := 0;
    startTime := TruncateToInt(clock[reading]);
    endTime := startTime;

    while endTime - startTime < testDurationSeconds
      invariant reading < |clock| && nFrames == reading
      invariant startTime == TruncateToInt(clock[0])
      invariant endTime == TruncateToInt(clock[reading])
      invariant forall k :: 0 <= k < reading ==> Elapsed(clock, k) < testDurationSeconds
      invariant totalTris == (nFrames * dispatchTriangles) % SIZE_MOD
      invariant totalVerts == (nFrames * vertsPerArrayCall) % SIZE_MOD
      decreases |clock| - reading
    {
      // glDrawArrays and the rotation about the viewport centre go here
      reading := reading + 1;
      endTime := TruncateToInt(clock[reading]);

      CountStep(totalTris, nFrames, dispatchTriangles);
      CountStep(totalVerts, nFrames, vertsPerArrayCall);
      nFrames := nFrames + 1;
      totalTris := (totalTris + dispatchTriangles) % SIZE_MOD;
      totalVerts := (totalVerts + vertsPerArrayCall) % SIZE_MOD;
    }
    FirstExpiredUnique(clock, testDurationSeconds, 0, reading);
  }
}
