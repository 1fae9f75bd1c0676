# Wearable music assistant: verified model of its core logic

The wearable music assistant reads an MPU-6050 accelerometer and works out how
hard its wearer is moving: staying still, light walking, brisk walking or
running. It then picks music to match and shows its status on a small OLED
screen. This project models the three pieces of the system that hold real
logic, and proves properties of each:

- **The activity classifier** (`activity_classifier.py`), in `classifier.dfy`,
  module `Activity`. Its support modules are:
  - `deque.dfy` (module `BoundedDeque`): `collections.deque(maxlen=…)`
    modelled as a bounded sequence that drops its oldest element when full.
  - `statistics.dfy` (module `Statistics`): the population variance that
    `np.var` computes, defined over `real` as the mean squared deviation
    from the mean, with divisor n.

  What the classifier does:
  - It keeps three 30-sample windows of raw x/y/z acceleration.
  - It maps the summed variance of the windows through a threshold ladder.
  - It pushes each instant state into a 70-entry stability buffer.
  - It commits a new state only when all 70 entries agree and differ from
    the committed state.
  - A lock freezes the classifier completely.

  The model has two layers:
  - The pure layer (`State`, `Step`, `Run`, `Lock`, `Unlock`, `Toggle`)
    specifies the classifier.
  - The class `ActivityClassifier` keeps the Python object's fields and
    updates them in place. Each of its methods is proved to follow the pure
    layer.
- **The display manager's status and scrolling state** (`display_manager.py`),
  in `display.dfy`, module `Display`. It covers the setters, `update_song`'s
  path stripping and scroll reset, and `_get_scrolling_text`: a three-frame
  start delay, then a 15-character window rotating over the name followed by
  three spaces.
- **The accelerometer word decoder** (`read_raw_data` in `main.py`), in
  `sensor.dfy`, module `Sensor`. It models `(high << 8) | low` and the
  conversion to a signed value, with the two bytes as parameters. The sign
  conversion is compared with the big-endian two's-complement format of the
  ACCEL_xOUT_H/L register pairs (registers 59-64, 0x3B-0x40) in the InvenSense
  MPU-6050 register map.

In the classifier's threshold ladder, state 1 ("Light walking") is returned for 0.03 < v ≤ 0.15. Only
the `> 0.01` rung is redundant, because it returns the same state as the final
`else`. `Activity.EveryStateReachable` proves
that all four states occur.

## Model

| member | source | states |
|---|---|---|
| BoundedDeque.Append | src/activity_classifier.py:35-40 | appending to a deque of capacity `cap` keeps it within `cap`; the new element is last; the length grows by one unless the deque was full; the other elements keep their order, and a full deque loses exactly its first (oldest) element |
| BoundedDeque.AppendKeepsOrder | src/activity_classifier.py:73-75 | the result of an append is the suffix of `s + [x]` of the result's length, so a full deque loses its oldest element and any other loses nothing |
| BoundedDeque.AppendAll | src/activity_classifier.py:73-75 | appending a sequence of elements one by one never exceeds the capacity |
| BoundedDeque.AppendAllKeepsNewest | src/activity_classifier.py:95 | after any number of appends the deque holds exactly the newest `min(n, cap)` elements, oldest first |
| BoundedDeque.AppendAllLength | src/activity_classifier.py:35-40 | a deque that started empty has length `min(n, cap)` after n appends |
| Statistics.SquaredDeviations | src/activity_classifier.py:84-86 | the sum of squared deviations is never negative |
| Statistics.Variance | src/activity_classifier.py:84-86 | the population variance of a non-empty window is never negative |
| Statistics.SumShift | src/activity_classifier.py:84-86 | adding the same offset to every sample adds n times that offset to the sum |
| Statistics.SquaredDeviationsShift | src/activity_classifier.py:84-86 | shifting the samples and the centre by the same offset leaves the squared deviations unchanged |
| Statistics.MeanShift | src/activity_classifier.py:84-86 | shifting every sample by c shifts the mean by c |
| Statistics.VarianceShiftInvariant | src/activity_classifier.py:82-89 | a constant offset on an axis leaves that axis's variance unchanged, so gravity, whatever the sensor's orientation, adds no movement intensity |
| Statistics.SumConstant | src/activity_classifier.py:84-86 | the sum of n copies of c is n·c |
| Statistics.SquaredDeviationsAtConstant | src/activity_classifier.py:84-86 | samples that all equal the centre have squared deviations 0 |
| Statistics.ConstantHasZeroVariance | src/activity_classifier.py:84-89 | a window of identical samples, such as a sensor held still, has variance 0 |
| Statistics.SumAlternating | src/activity_classifier.py:84-86 | an even-length window alternating between a and b sums to (n/2)·(a + b) |
| Statistics.SquaredDeviationsUniform | src/activity_classifier.py:84-86 | samples that all lie the same squared distance q from the centre have squared deviations n·q |
| Statistics.AlternatingVariance | src/activity_classifier.py:84-86 | an even-length window alternating between a and a + d has variance d²/4 |
| Statistics.AlternatingVarianceGrows | src/activity_classifier.py:84-89 | of two alternating windows of the same even length with steps 0 ≤ d < e, the one with step e has strictly larger variance |
| Activity.ClassifyInstant | src/activity_classifier.py:48-59 | the result is one of the four states: 3 exactly when v > 0.75, 2 exactly when 0.15 < v ≤ 0.75, 1 exactly when 0.03 < v ≤ 0.15, 0 exactly when v ≤ 0.03; the 0.01 rung changes nothing |
| Activity.ClassifyMonotone | src/activity_classifier.py:25-28 | a larger variance never yields a lower state |
| Activity.EveryStateReachable | src/activity_classifier.py:19-22 | each of the four states is the classification of some variance |
| Activity.ActivityLabel | src/activity_classifier.py:112-118 | the four states get their four labels, and a value gets "UNKNOWN" exactly when it is not a state |
| Activity.LabelsDistinct | src/activity_classifier.py:112-117 | distinct states have distinct labels |
| Activity.Init | src/activity_classifier.py:34-46 | a new classifier has empty windows and buffer, state 0, is unlocked, and satisfies the class invariant |
| Activity.PushSample | src/activity_classifier.py:73-75 | appending the sample keeps the invariant (equal window lengths ≤ 30, buffer ≤ 70, lock fields agree), grows the windows by one up to 30, and leaves the buffer, the committed state and the lock alone |
| Activity.PushSampleKeepsNewest | src/activity_classifier.py:73-75 | each window then holds its newest samples, the new component last, oldest first |
| Activity.TotalVariance | src/activity_classifier.py:84-89 | the movement intensity is the sum of the three per-axis variances and is never negative |
| Activity.AlternatingIntensity | src/activity_classifier.py:84-89 | full windows whose axes alternate with steps dx, dy, dz give intensity (dx² + dy² + dz²)/4 |
| Activity.AlternatingIntensityGrows | src/activity_classifier.py:84-92 | with the y and z windows the same, a larger alternating step on x gives a strictly larger intensity and never a lower instant state |
| Activity.AllEqual | src/activity_classifier.py:98 | `all(a == instant_activity for a in self.buffer)`: every buffered entry equals the given state |
| Activity.Classify | src/activity_classifier.py:92-105 | pushes the instant state into the buffer; `changed` holds exactly when the buffer is full, all 70 entries equal the instant state, and the instant state differs from the committed one; the committed state becomes the instant state exactly then; the returned state is the committed one; the windows and the lock are untouched |
| Activity.Step | src/activity_classifier.py:61-105 | `update` keeps the invariant. Locked: nothing changes and it returns the frozen state, no change, variance 0. While the x window is below 30 samples: only the windows grow, and it returns the current state, no change, variance 0. Otherwise: it classifies |
| Activity.Run | src/activity_classifier.py:61-105 | a stream of updates keeps the invariant and yields one reading per sample |
| Activity.RunUnfold | src/activity_classifier.py:61-105 | the readings of a stream are those of its first update followed by those of the rest |
| Activity.Lock | src/activity_classifier.py:120-123 | sets the flag and freezes the committed state into `locked_activity`, changing no other field |
| Activity.Unlock | src/activity_classifier.py:126-129 | clears the flag and `locked_activity`, changing no other field |
| Activity.Toggle | src/activity_classifier.py:132-138 | flips the flag and returns the new flag, keeping the invariant and leaving the windows, buffer and committed state alone |
| Activity.ToggleTwice | src/activity_classifier.py:132-138 | two toggles restore the whole state (windows, buffer, committed state and lock) |
| Activity.RunWhileLocked | src/activity_classifier.py:67-70 | while locked, any stream of updates leaves the state unchanged and reports the frozen state, no change and variance 0 every time |
| Activity.FreshStep | src/activity_classifier.py:77-100 | each unlocked update of a new classifier grows its windows up to 30 and then its buffer up to 70, and cannot commit a change before the 99th update |
| Activity.RunFresh | src/activity_classifier.py:77-100 | the same over a stream: during warm-up each reading is (0, no change, variance 0), and before the 99th update no change is reported and the state stays 0 |
| Activity.FreshClassifier | src/activity_classifier.py:78-80 | a new classifier returns (0, no change, variance 0) for its first 29 updates and reports no change in its first 98 |
| Activity.WindowsFillAfterWarmUp | src/activity_classifier.py:78-95 | after n unlocked updates, a new classifier holds `min(n, 30)` samples per window and `min(max(n - 29, 0), 70)` buffered states |
| Activity.FirstClassification | src/activity_classifier.py:78-95 | the 30th update is the first that classifies: it leaves one entry in the buffer, and the 29th leaves none |
| Activity.ChangeSettles | src/activity_classifier.py:97-102 | after a committed change every buffered entry equals the new state |
| Activity.SettledClassifyNoChange | src/activity_classifier.py:97-100 | while some buffered entry still equals the committed state, no change can be committed |
| Activity.SettledClassifyKeep | src/activity_classifier.py:95-105 | an update that commits nothing shifts the agreeing part of the buffer by one place |
| Activity.SettledStep | src/activity_classifier.py:95-105 | a change is committed only when the buffered entries older than the last change have all been pushed out |
| Activity.RunSettled | src/activity_classifier.py:95-105 | over a stream starting from a settled state, the j-th update can commit a change only if k + j + 1 ≥ 70 |
| Activity.ChangesSeparated | src/activity_classifier.py:95-100 | two reported changes in a stream of updates are at least 70 updates apart |
| Activity.ActivityClassifier.constructor | src/activity_classifier.py:34-46 | the object's state is `Init()` |
| Activity.ActivityClassifier.Update | src/activity_classifier.py:61-105 | the in-place update produces exactly the new state and the reading that `Step` specifies, and keeps the class invariant |
| Activity.ActivityClassifier.GetActivityName | src/activity_classifier.py:107-118 | with no argument it names the committed state, otherwise the given value |
| Activity.ActivityClassifier.LockState | src/activity_classifier.py:120-123 | the object's new state is `Lock` of its old state |
| Activity.ActivityClassifier.UnlockState | src/activity_classifier.py:126-129 | the object's new state is `Unlock` of its old state |
| Activity.ActivityClassifier.ToggleLock | src/activity_classifier.py:132-138 | the new state and the returned flag are `Toggle` of the old state |
| Display.LastSlash | src/display_manager.py:67-68 | the position of the last '/' in the string, with none after it, or -1 when there is none |
| Display.BaseName | src/display_manager.py:67-68 | the stored name has no '/'; it is a suffix of the argument, preceded by a '/' when the argument contains one, and it is the whole argument when the argument contains no '/' |
| Display.BaseNameIdempotent | src/display_manager.py:67-68 | stripping an already stripped name changes nothing |
| Display.Slice | src/display_manager.py:117 | Python slicing with clipped bounds: the length is clipped to the string, and the i-th character is `s[lo + i]` |
| Display.Frame | src/display_manager.py:117-121 | the window shown while scrolling has exactly `max_chars` characters |
| Display.FrameIsRotation | src/display_manager.py:117-121 | while the position lies inside the padded text, the window is the first `max_chars` characters of the padded text rotated left by the position |
| Display.DisplayManager.constructor | src/display_manager.py:31-42 | the initial status ("Staying still", "calm.wav", "Playing", unlocked, volume 50) and the scroll state at 0 |
| Display.DisplayManager.UpdateActivity | src/display_manager.py:58-61 | overwrites the activity and no other field |
| Display.DisplayManager.UpdateSong | src/display_manager.py:63-75 | stores the stripped name; the scroll position and delay counter are reset to 0 when the stripped name differs from the stored one, and unchanged otherwise; no other field changes |
| Display.DisplayManager.UpdateMusicStatus | src/display_manager.py:77-80 | stores "Playing" for true and "Paused" for false, and no other field |
| Display.DisplayManager.UpdateLockStatus | src/display_manager.py:82-85 | overwrites the lock flag and no other field |
| Display.DisplayManager.UpdateVolume | src/display_manager.py:87-90 | overwrites the volume and no other field |
| Display.DisplayManager.GetScrollingText | src/display_manager.py:92-129 | text that fits is returned whole, with nothing changed. During the delay it returns the first `max_chars` characters and the counter grows by one. After the delay it returns `max_chars` characters of the text plus three spaces, rotated left by the old position. The position then advances by one, wrapping to 0 at the end, where the counter is also reset. The new position always lies inside the padded text |
| Display.DisplayManager.SongLine | src/display_manager.py:155 | the song line has `min(len(name), 15)` characters. A name that fits is shown whole and the scroll state is unchanged. During the delay the first 15 characters are shown and the counter grows by one. After it, the padded name is shown rotated left by the old position; the position advances by one and wraps to 0 at the end, where the counter is also reset. The scroll state stays within the name plus its padding |
| Sensor.ShiftLeft | src/main.py:34 | `high << 8`, shifting one place at a time, is multiplication by 2^8 |
| Sensor.BitOr | src/main.py:34 | Python's `\|` on non-negative integers, bit by bit: the result is at least each operand and at most their sum |
| Sensor.BitOrDisjoint | src/main.py:34 | OR-ing a value below 2^k into a multiple of 2^k is addition |
| Sensor.Combine | src/main.py:34 | shifting the high byte left by 8 and OR-ing in the low byte gives `high*256 + low` and lies in 0..65535 |
| Sensor.ReadRawAsWritten | src/main.py:34-37 | values up to 32768 are returned unchanged, larger ones as `value - 65536`, which is negative; the result lies in -32767..32768 |
| Sensor.AsWrittenMisreadsMinimum | src/main.py:35 | the bytes 0x80 0x00 decode to +32768, where two's complement reads -32768 |
| Sensor.AsWrittenAgreesElsewhere | src/main.py:31-37 | the code as written agrees with the two's-complement reading exactly on the byte pairs other than 0x80 0x00 |
| Sensor.AsWrittenInjective | src/main.py:35-37 | distinct byte pairs decode to distinct values |
| Sensor.ReadRaw | src/main.py:34-37 | the corrected decoder is the big-endian two's-complement reading and lies in -32768..32767 |
| Sensor.DecodeEncode | src/main.py:31-37 | decoding the bytes of any signed 16-bit value yields that value |
| Sensor.EncodeDecode | src/main.py:31-37 | re-encoding a decoded value yields the original byte pair |

## Findings

| source | as written | input that shows it | evidently intended | confidence | as-written member | corrected member |
|---|---|---|---|---|---|---|
| src/main.py:35 | `if value > 32768: value -= 65536`: the combined word 0x8000 stays +32768 | high = 0x80, low = 0x00 | `>= 32768`, so 0x8000 reads -32768 and every result lies in -32768..32767, as a 16-bit signed value must | high (not executed) | Sensor.ReadRawAsWritten, Sensor.AsWrittenMisreadsMinimum | Sensor.ReadRaw |

## Left out

- Hardware I/O: the I2C bus reads of `read_raw_data` (the two bytes are parameters) and the OLED and PIL drawing in `DisplayManager`, apart from the song line's text.
- Threads and locks: `threading.Lock` and the display refresh thread. Each method is modelled as one atomic call; interleavings are not modelled.
- Unguarded classifier calls: the classifier is driven from two threads without a guard: the main loop (src/main.py:98) calls `update`, and the button thread (src/button_controller.py:74) toggles the lock. The invariant `isLocked ==> lockedActivity == Some(currentActivity)` in `Activity.Consistent` holds only because the model treats each call as atomic. A `lock_state` that lands inside an `update`, after its lock check and before its commit, would freeze the old state while `current_activity` moves on to the new one.
- Floating point: all samples and variances are Dafny `real`, not IEEE doubles. Rounding, NaN and infinity are not modelled. The source has no guard against non-finite samples, so the model has none either.
- The `mag` diagnostic (`math.sqrt` of the squared components), which `update` returns: it feeds only the console status line and no decision, so `Reading` omits it.
- The scaling of raw words by `/16384.0` in `read_accelerometer`, the volume bar's `int((volume/100)*118)`, and the 12-character cut of the activity line.
- `np.var` is replaced by the explicit population-variance function `Statistics.Variance`; numpy itself is not modelled.
- `MusicController`, the button controller and its debounce, and the main loop: subprocess calls, GPIO and wall-clock time.
- The `print` side effects of `lock_state` and `unlock_state`.
- Activity.Run: a stream contains only samples. Lock and unlock events between updates are covered by `Activity.Toggle`, `Activity.ToggleTwice` and `Activity.RunWhileLocked`, not by interleaving them inside one stream.
- Statistics.ConstantHasZeroVariance: only one direction is proved (identical samples have variance 0). The converse, that variance 0 means identical samples, is not proved.
- Activity.ActivityClassifier.Update: the locked path returns `locked_activity`. The class invariant makes it equal to `current_activity`, and that is how `Step` states it. Python's `None` for an unlocked `locked_activity` is `Option.None`.
- Display.DisplayManager.UpdateVolume: the volume is any integer. The setter does not bound it, and neither does the model.
