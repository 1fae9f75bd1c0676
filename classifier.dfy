/**
 * The activity classifier: three sliding windows of raw acceleration, a
 * four-level threshold ladder over the summed per-axis variance, a
 * stability buffer that debounces level changes, and a manual lock.
 *
 * The pure part (`State`, `Step`, `Run`, `Lock`, `Unlock`, `Toggle`) is the
 * specification; the class `ActivityClassifier` holds the same fields as
 * the Python object and its methods are proved to follow the specification.
 */
module Activity {
  import opened BoundedDeque
  import opened Statistics

  datatype Option<T> = None | Some(value: T)

  // Activity states
  const StateLowActivity: int := 0
  const StateWalking: int := 1
  const StateFastWalk: int := 2
  const StateRunning: int := 3

  // Thresholds on the summed variance of acceleration
  const ThreshLightWalk: real := 0.01
  const ThreshWalking: real := 0.03
  const ThreshFastWalk: real := 0.15
  const ThreshRunning: real := 0.75

  // Hysteresis parameters
  const BufferSize: nat := 70
  const WindowSize: nat := 30

  predicate IsState(a: int) {
    StateLowActivity <= a <= StateRunning
  }

  /**
   * The threshold ladder, highest threshold first. Its `> ThreshLightWalk`
   * rung yields the same state as the final `else`, so 0.01 is never a
   * boundary; every one of the four states is reached on its own interval.
   */
  function ClassifyInstant(totalVariance: real): (a: int)
    ensures IsState(a)
    ensures a == StateRunning <==> ThreshRunning < totalVariance
    ensures a == StateFastWalk <==> ThreshFastWalk < totalVariance <= ThreshRunning
    ensures a == StateWalking <==> ThreshWalking < totalVariance <= ThreshFastWalk
    ensures a == StateLowActivity <==> totalVariance <= ThreshWalking
  {
    if totalVariance > ThreshRunning then StateRunning
    else if totalVariance > ThreshFastWalk then StateFastWalk
    else if totalVariance > ThreshWalking then StateWalking
    else if totalVariance > ThreshLightWalk then StateLowActivity
    else StateLowActivity
  }

  /** More movement never yields a lower state. */
  lemma ClassifyMonotone(v: real, w: real)
    requires v <= w
    ensures ClassifyInstant(v) <= ClassifyInstant(w)
  {
  }

  /** Each of the four states is the classification of some variance. */
  lemma EveryStateReachable(a: int)
    requires IsState(a)
    ensures exists v :: ClassifyInstant(v) == a
  {
    var v := if a == StateRunning then 1.0
             else if a == StateFastWalk then 0.5
             else if a == StateWalking then 0.1
             else 0.0;
    assert ClassifyInstant(v) == a;
  }

  const Names: map<int, string> := map[
    StateLowActivity := "Staying still",
    StateWalking := "Light walking",
    StateFastWalk := "Brisk walking",
    StateRunning := "Running/Intense"
  ]

  /** The label of a state; any other value is "UNKNOWN". */
  function ActivityLabel(a: int): (name: string)
    ensures IsState(a) <==> name != "UNKNOWN"
    ensures IsState(a) ==> name == Names[a]
  {
    if a in Names then Names[a] else "UNKNOWN"
  }

  /** Distinct states have distinct labels. */
  lemma LabelsDistinct(a: int, b: int)
    requires IsState(a) && IsState(b) && a != b
    ensures ActivityLabel(a) != ActivityLabel(b)
  {
  }

  /** One accelerometer reading, in units of g. */
  datatype Sample = Sample(x: real, y: real, z: real)

  /** What `update` returns; the magnitude diagnostic is not modelled. */
  datatype Reading = Reading(activity: int, changed: bool, variance: real)

  /** The fields of an `ActivityClassifier` object. */
  datatype State = State(
    accelXWindow: seq<real>,
    accelYWindow: seq<real>,
    accelZWindow: seq<real>,
    buffer: seq<int>,
    currentActivity: int,
    isLocked: bool,
    lockedActivity: Option<int>)

  /** The invariant every reachable classifier state keeps. */
  predicate Consistent(c: State) {
    && |c.accelXWindow| == |c.accelYWindow| == |c.accelZWindow| <= WindowSize
    && |c.buffer| <= BufferSize
    && IsState(c.currentActivity)
    && (forall i :: 0 <= i < |c.buffer| ==> IsState(c.buffer[i]))
    && (c.isLocked ==> c.lockedActivity == Some(c.currentActivity))
    && (!c.isLocked ==> c.lockedActivity == None)
  }

  /** The state `__init__` creates. */
  function Init(): (c: State)
    ensures Consistent(c)
    ensures c.currentActivity == StateLowActivity && !c.isLocked
    ensures c.accelXWindow == [] && c.buffer == []
  {
    State([], [], [], [], StateLowActivity, false, None)
  }

  /** `all(a == instant for a in buffer)`. */
  predicate AllEqual(buffer: seq<int>, a: int) {
    forall i :: 0 <= i < |buffer| ==> buffer[i] == a
  }

  /** `update`'s three window appends: the sample enters every window. */
  function PushSample(c: State, s: Sample): (r: State)
    requires Consistent(c)
    ensures Consistent(r)
    ensures r.buffer == c.buffer && r.currentActivity == c.currentActivity
    ensures r.isLocked == c.isLocked && r.lockedActivity == c.lockedActivity
    ensures |r.accelXWindow| == if |c.accelXWindow| < WindowSize then |c.accelXWindow| + 1 else WindowSize
  {
    c.(accelXWindow := Append(c.accelXWindow, s.x, WindowSize),
       accelYWindow := Append(c.accelYWindow, s.y, WindowSize),
       accelZWindow := Append(c.accelZWindow, s.z, WindowSize))
  }

  /** Each window keeps its newest samples, up to `WindowSize` of them, oldest first. */
  lemma PushSampleKeepsNewest(c: State, s: Sample)
    requires Consistent(c)
    ensures var r := PushSample(c, s);
            && r.accelXWindow == (c.accelXWindow + [s.x])[|c.accelXWindow| + 1 - |r.accelXWindow|..]
            && r.accelYWindow == (c.accelYWindow + [s.y])[|c.accelYWindow| + 1 - |r.accelYWindow|..]
            && r.accelZWindow == (c.accelZWindow + [s.z])[|c.accelZWindow| + 1 - |r.accelZWindow|..]
  {
    AppendKeepsOrder(c.accelXWindow, s.x, WindowSize);
    AppendKeepsOrder(c.accelYWindow, s.y, WindowSize);
    AppendKeepsOrder(c.accelZWindow, s.z, WindowSize);
  }

  /** The movement intensity: the summed population variance of the three windows. */
  function TotalVariance(c: State): (v: real)
    requires |c.accelXWindow| > 0 && |c.accelYWindow| > 0 && |c.accelZWindow| > 0
    ensures v >= 0.0
  {
    Variance(c.accelXWindow) + Variance(c.accelYWindow) + Variance(c.accelZWindow)
  }

  /**
   * The rest of `update` on full windows: classify, push the instant state into the
   * stability buffer, and commit it when the whole buffer agrees with it
   * and it differs from the committed state.
   */
  function Classify(c: State): (r: (State, Reading))
    requires Consistent(c) && !c.isLocked && |c.accelXWindow| == WindowSize
    ensures Consistent(r.0)
    ensures r.0.accelXWindow == c.accelXWindow && r.0.accelYWindow == c.accelYWindow
    ensures r.0.accelZWindow == c.accelZWindow && r.0.isLocked == c.isLocked
    ensures r.1.variance == TotalVariance(c)
    ensures r.0.buffer == Append(c.buffer, ClassifyInstant(TotalVariance(c)), BufferSize)
    ensures r.1.changed <==>
              && |r.0.buffer| == BufferSize
              && AllEqual(r.0.buffer, ClassifyInstant(TotalVariance(c)))
              && ClassifyInstant(TotalVariance(c)) != c.currentActivity
    ensures r.0.currentActivity == (if r.1.changed then ClassifyInstant(TotalVariance(c)) else c.currentActivity)
    ensures r.1.activity == r.0.currentActivity
  {
    var total := TotalVariance(c);
    var instant := ClassifyInstant(total);
    var buffer := Append(c.buffer, instant, BufferSize);
    if |buffer| == BufferSize && AllEqual(buffer, instant) && instant != c.currentActivity then
      (c.(buffer := buffer, currentActivity := instant), Reading(instant, true, total))
    else
      (c.(buffer := buffer), Reading(c.currentActivity, false, total))
  }

  /** `update(x, y, z)`: the new state and what the call returns. */
  function Step(c: State, s: Sample): (r: (State, Reading))
    requires Consistent(c)
    ensures Consistent(r.0)
    // locked: nothing changes and the frozen state is returned with variance 0
    ensures c.isLocked ==> r.0 == c && r.1 == Reading(c.currentActivity, false, 0.0)
    // warm-up: the windows grow, nothing is classified
    ensures !c.isLocked && |c.accelXWindow| + 1 < WindowSize ==>
              r == (PushSample(c, s), Reading(c.currentActivity, false, 0.0))
    ensures !c.isLocked && |c.accelXWindow| + 1 >= WindowSize ==> r == Classify(PushSample(c, s))
  {
    if c.isLocked then
      (c, Reading(c.lockedActivity.value, false, 0.0))
    else
      var c1 := PushSample(c, s);
      if |c1.accelXWindow| < WindowSize then
        (c1, Reading(c.currentActivity, false, 0.0))
      else
        Classify(c1)
  }

  /** Feeding a stream of samples through `update`, one call per sample. */
  function Run(c: State, samples: seq<Sample>): (r: (State, seq<Reading>))
    requires Consistent(c)
    ensures Consistent(r.0) && |r.1| == |samples|
    decreases |samples|
  {
    if samples == [] then (c, [])
    else
      var (c1, reading) := Step(c, samples[0]);
      var (cn, rest) := Run(c1, samples[1..]);
      (cn, [reading] + rest)
  }

  /** The first reading of a stream comes from one `Step`, the rest from the stream after it. */
  lemma RunUnfold(c: State, samples: seq<Sample>)
    requires Consistent(c) && samples != []
    ensures var (c1, reading) := Step(c, samples[0]);
            && Run(c, samples).0 == Run(c1, samples[1..]).0
            && Run(c, samples).1[0] == reading
            && forall i :: 0 < i < |samples| ==> Run(c, samples).1[i] == Run(c1, samples[1..]).1[i - 1]
  {
  }

  /** `lock_state`. */
  function Lock(c: State): (r: State)
    requires Consistent(c)
    ensures Consistent(r) && r.isLocked && r.lockedActivity == Some(c.currentActivity)
    ensures r.(isLocked := c.isLocked, lockedActivity := c.lockedActivity) == c
  {
    c.(isLocked := true, lockedActivity := Some(c.currentActivity))
  }

  /** `unlock_state`. */
  function Unlock(c: State): (r: State)
    requires Consistent(c)
    ensures Consistent(r) && !r.isLocked && r.lockedActivity == None
    ensures r.(isLocked := c.isLocked, lockedActivity := c.lockedActivity) == c
  {
    c.(isLocked := false, lockedActivity := None)
  }

  /** `toggle_lock`: the new state and the flag it returns. */
  function Toggle(c: State): (r: (State, bool))
    requires Consistent(c)
    ensures Consistent(r.0) && r.1 == r.0.isLocked == !c.isLocked
    ensures r.0.(isLocked := c.isLocked, lockedActivity := c.lockedActivity) == c
  {
    var c' := if c.isLocked then Unlock(c) else Lock(c);
    (c', c'.isLocked)
  }

  /** Two toggles restore the whole state, so accumulation resumes where it stopped. */
  lemma ToggleTwice(c: State)
    requires Consistent(c)
    ensures Toggle(Toggle(c).0).0 == c
    ensures Toggle(Toggle(c).0).1 == c.isLocked
  {
  }

  /** While locked, any stream of updates changes nothing and reports the frozen state. */
  lemma {:induction false} RunWhileLocked(c: State, samples: seq<Sample>)
    requires Consistent(c) && c.isLocked
    ensures Run(c, samples).0 == c
    ensures forall i :: 0 <= i < |samples| ==>
              Run(c, samples).1[i] == Reading(c.currentActivity, false, 0.0)
    decreases |samples|
  {
    if samples != [] {
      RunUnfold(c, samples);
      RunWhileLocked(c, samples[1..]);
    }
  }

  /**
   * A classifier that has taken `n` unlocked updates since it was created:
   * how full its windows and buffer are, and that no change can have been
   * committed yet.
   */
  predicate Fresh(c: State, n: nat) {
    && !c.isLocked
    && |c.accelXWindow| == Min(n, WindowSize)
    && |c.buffer| == Min(if n < WindowSize then 0 else n - WindowSize + 1, BufferSize)
    && (n < WindowSize + BufferSize - 1 ==> c.currentActivity == StateLowActivity)
  }

  lemma FreshStep(c: State, n: nat, s: Sample)
    requires Consistent(c) && Fresh(c, n)
    ensures Fresh(Step(c, s).0, n + 1)
    ensures Step(c, s).1.changed ==> n + 1 >= WindowSize + BufferSize - 1
    ensures n + 1 < WindowSize ==> Step(c, s).1 == Reading(c.currentActivity, false, 0.0)
  {
  }

  lemma {:induction false} RunFresh(c: State, n: nat, samples: seq<Sample>)
    requires Consistent(c) && Fresh(c, n)
    ensures forall i :: 0 <= i < |samples| && n + i + 1 < WindowSize ==>
              Run(c, samples).1[i] == Reading(StateLowActivity, false, 0.0)
    ensures forall i :: 0 <= i < |samples| && n + i + 1 < WindowSize + BufferSize - 1 ==>
              !Run(c, samples).1[i].changed && Run(c, samples).1[i].activity == StateLowActivity
    decreases |samples|
  {
    if samples != [] {
      RunUnfold(c, samples);
      FreshStep(c, n, samples[0]);
      RunFresh(Step(c, samples[0]).0, n + 1, samples[1..]);
    }
  }

  /**
   * Warm-up: a new classifier fed unlocked samples returns state 0, no change
   * and variance 0 for its first 29 updates, and reports no change before
   * its 99th update (29 warm-up calls and 70 buffer fills).
   */
  lemma FreshClassifier(samples: seq<Sample>)
    ensures forall i :: 0 <= i < |samples| && i < WindowSize - 1 ==>
              Run(Init(), samples).1[i] == Reading(StateLowActivity, false, 0.0)
    ensures forall i :: 0 <= i < |samples| && i < WindowSize + BufferSize - 2 ==>
              !Run(Init(), samples).1[i].changed
  {
    RunFresh(Init(), 0, samples);
  }

  /**
   * The 30th update of a new classifier is the first that classifies: it
   * puts one instant state into the stability buffer.
   */
  lemma {:induction false} WindowsFillAfterWarmUp(c: State, n: nat, samples: seq<Sample>)
    requires Consistent(c) && Fresh(c, n)
    ensures Fresh(Run(c, samples).0, n + |samples|)
    decreases |samples|
  {
    if samples != [] {
      RunUnfold(c, samples);
      FreshStep(c, n, samples[0]);
      WindowsFillAfterWarmUp(Step(c, samples[0]).0, n + 1, samples[1..]);
    }
  }

  lemma FirstClassification(samples: seq<Sample>)
    requires |samples| == WindowSize
    ensures |Run(Init(), samples).0.buffer| == 1
    ensures |Run(Init(), samples[..WindowSize - 1]).0.buffer| == 0
  {
    WindowsFillAfterWarmUp(Init(), 0, samples);
    WindowsFillAfterWarmUp(Init(), 0, samples[..WindowSize - 1]);
  }

  /**
   * Every unlocked update with full windows classifies, and the buffer
   * entries older than the last `k` updates all equal the committed state.
   */
  predicate Settled(c: State, k: nat) {
    && !c.isLocked
    && |c.accelXWindow| == WindowSize
    && forall i :: 0 <= i < |c.buffer| - k ==> c.buffer[i] == c.currentActivity
  }

  lemma ChangeSettles(c: State, s: Sample)
    requires Consistent(c) && Step(c, s).1.changed
    ensures Settled(Step(c, s).0, 0)
  {
    var r := Step(c, s);
    assert !c.isLocked;
    var c1 := PushSample(c, s);
    assert r == Classify(c1);
    var instant := r.0.currentActivity;
    assert AllEqual(r.0.buffer, instant);
  }

  /**
   * While the oldest buffered instant still postdates the last change, the
   * buffer cannot be unanimous for a different state, so nothing changes.
   */
  lemma SettledClassifyNoChange(c: State, k: nat)
    requires Consistent(c) && Settled(c, k) && k + 1 < BufferSize
    ensures !Classify(c).1.changed
  {
    var pushed := Classify(c).0.buffer;
    if |pushed| == BufferSize {
      var d := if |c.buffer| == BufferSize then 1 else 0;
      assert pushed[0] == c.buffer[d];
      assert c.buffer[d] == c.currentActivity;
    }
  }

  lemma SettledClassifyKeep(c: State, k: nat)
    requires Consistent(c) && Settled(c, k) && !Classify(c).1.changed
    ensures Settled(Classify(c).0, k + 1)
  {
    var instant := ClassifyInstant(TotalVariance(c));
    var pushed := Classify(c).0.buffer;
    var d := if |c.buffer| == BufferSize then 1 else 0;
    forall i | 0 <= i < |pushed| - (k + 1)
      ensures pushed[i] == c.currentActivity
    {
      assert pushed[i] == c.buffer[i + d];
    }
  }

  lemma SettledStep(c: State, k: nat, s: Sample)
    requires Consistent(c) && Settled(c, k)
    ensures Step(c, s).1.changed ==> k + 1 >= BufferSize
    ensures !Step(c, s).1.changed ==> Settled(Step(c, s).0, k + 1)
  {
    var c1 := PushSample(c, s);
    assert Step(c, s) == Classify(c1);
    if k + 1 < BufferSize {
      SettledClassifyNoChange(c1, k);
    }
    if !Classify(c1).1.changed {
      SettledClassifyKeep(c1, k);
    }
  }

  lemma {:induction false} RunSettled(c: State, k: nat, samples: seq<Sample>)
    requires Consistent(c) && Settled(c, k)
    ensures forall j :: 0 <= j < |samples| && Run(c, samples).1[j].changed ==> k + j + 1 >= BufferSize
    decreases |samples|
  {
    if samples != [] {
      var r := Step(c, samples[0]);
      RunUnfold(c, samples);
      SettledStep(c, k, samples[0]);
      if r.1.changed {
        ChangeSettles(c, samples[0]);
        RunSettled(r.0, 0, samples[1..]);
      } else {
        RunSettled(r.0, k + 1, samples[1..]);
      }
    }
  }

  /** Two reported changes are at least 70 (classifying) updates apart. */
  lemma {:induction false} ChangesSeparated(c: State, samples: seq<Sample>, i: nat, j: nat)
    requires Consistent(c) && i < j < |samples|
    requires Run(c, samples).1[i].changed && Run(c, samples).1[j].changed
    ensures j - i >= BufferSize
    decreases i
  {
    var r := Step(c, samples[0]);
    RunUnfold(c, samples);
    if i == 0 {
      ChangeSettles(c, samples[0]);
      RunSettled(r.0, 0, samples[1..]);
      assert Run(r.0, samples[1..]).1[j - 1].changed;
    } else {
      assert Run(r.0, samples[1..]).1[i - 1].changed;
      assert Run(r.0, samples[1..]).1[j - 1].changed;
      ChangesSeparated(r.0, samples[1..], i - 1, j - 1);
    }
  }

  /**
   * Full windows whose axes each alternate between two values give an
   * intensity of a quarter of the summed squared steps.
   */
  lemma AlternatingIntensity(c: State, ax: real, dx: real, ay: real, dy: real, az: real, dz: real)
    requires Consistent(c) && |c.accelXWindow| == WindowSize
    requires Alternating(c.accelXWindow, ax, ax + dx)
    requires Alternating(c.accelYWindow, ay, ay + dy)
    requires Alternating(c.accelZWindow, az, az + dz)
    ensures TotalVariance(c) == (dx * dx + dy * dy + dz * dz) / 4.0
  {
    AlternatingVariance(c.accelXWindow, ax, dx);
    AlternatingVariance(c.accelYWindow, ay, dy);
    AlternatingVariance(c.accelZWindow, az, dz);
  }

  /**
   * With the other two axes the same, a larger swing on x gives a strictly
   * larger intensity, and so never a lower state.
   */
  lemma AlternatingIntensityGrows(c: State, c': State, ax: real, d: real, e: real)
    requires Consistent(c) && Consistent(c') && |c.accelXWindow| == |c'.accelXWindow| == WindowSize
    requires c.accelYWindow == c'.accelYWindow && c.accelZWindow == c'.accelZWindow
    requires Alternating(c.accelXWindow, ax, ax + d) && Alternating(c'.accelXWindow, ax, ax + e)
    requires 0.0 <= d < e
    ensures TotalVariance(c) < TotalVariance(c')
    ensures ClassifyInstant(TotalVariance(c)) <= ClassifyInstant(TotalVariance(c'))
  {
    AlternatingVarianceGrows(c.accelXWindow, c'.accelXWindow, ax, ax, d, e);
    ClassifyMonotone(TotalVariance(c), TotalVariance(c'));
  }

  /** The Python object: the same fields, updated in place. */
  class ActivityClassifier {
    var buffer: seq<int>
    var accelXWindow: seq<real>
    var accelYWindow: seq<real>
    var accelZWindow: seq<real>
    var currentActivity: int
    var isLocked: bool
    var lockedActivity: Option<int>

    function Snapshot(): State
      reads this
    {
      State(accelXWindow, accelYWindow, accelZWindow, buffer, currentActivity, isLocked, lockedActivity)
    }

    ghost predicate Valid()
      reads this
    {
      Consistent(Snapshot())
    }

    constructor ()
      ensures Valid() && Snapshot() == Init()
    {
      buffer := [];
      accelXWindow, accelYWindow, accelZWindow := [], [], [];
      currentActivity := StateLowActivity;
      isLocked := false;
      lockedActivity := None;
    }

    method Update(accelX: real, accelY: real, accelZ: real) returns (activity: int, changed: bool, variance: real)
      requires Valid()
      modifies this
      ensures Valid()
      ensures (Snapshot(), Reading(activity, changed, variance))
              == Step(old(Snapshot()), Sample(accelX, accelY, accelZ))
    {
      ghost var c := Snapshot();
      ghost var sample := Sample(accelX, accelY, accelZ);
      if isLocked {
        return lockedActivity.value, false, 0.0;
      }
      accelXWindow := Append(accelXWindow, accelX, WindowSize);
      accelYWindow := Append(accelYWindow, accelY, WindowSize);
      accelZWindow := Append(accelZWindow, accelZ, WindowSize);
      ghost var c1 := Snapshot();
      assert c1 == PushSample(c, sample);
      if |accelXWindow| < WindowSize {
        return currentActivity, false, 0.0;
      }
      assert Step(c, sample) == Classify(c1);
      var varX := Variance(accelXWindow);
      var varY := Variance(accelYWindow);
      var varZ := Variance(accelZWindow);
      var totalVariance := varX + varY + varZ;
      assert totalVariance == TotalVariance(c1);
      var instantActivity := ClassifyInstant(totalVariance);
      ghost var r := Classify(c1);
      buffer := Append(buffer, instantActivity, BufferSize);
      assert buffer == r.0.buffer;
      if |buffer| == BufferSize {
        if AllEqual(buffer, instantActivity) {
          if instantActivity != currentActivity {
            currentActivity := instantActivity;
            assert r.1.changed;
            return currentActivity, true, totalVariance;
          }
        }
      }
      assert !r.1.changed;
      return currentActivity, false, totalVariance;
    }

    /** `get_activity_name`; `None` names the committed state. */
    function GetActivityName(activity: Option<int>): (name: string)
      reads this
      ensures activity.None? ==> name == ActivityLabel(currentActivity)
      ensures activity.Some? ==> name == ActivityLabel(activity.value)
    {
      ActivityLabel(if activity.None? then currentActivity else activity.value)
    }

    method LockState()
      requires Valid()
      modifies this
      ensures Valid() && Snapshot() == Lock(old(Snapshot()))
    {
      isLocked := true;
      lockedActivity := Some(currentActivity);
    }

    method UnlockState()
      requires Valid()
      modifies this
      ensures Valid() && Snapshot() == Unlock(old(Snapshot()))
    {
      isLocked := false;
      lockedActivity := None;
    }

    method ToggleLock() returns (locked: bool)
      requires Valid()
      modifies this
      ensures Valid() && (Snapshot(), locked) == Toggle(old(Snapshot()))
    {
      if isLocked {
        UnlockState();
      } else {
        LockState();
      }
      return isLocked;
    }
  }
}
