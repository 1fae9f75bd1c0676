/**
 * The display manager's status fields and its song-name scrolling. The
 * OLED drawing, the I2C set-up and the refresh thread are not modelled; each
 * method here is one call made under the manager's lock.
 */
module Display {

  const ScrollDelay: nat := 3      // frames to wait before scrolling
  const MaxSongChars: nat := 15    // characters that fit on one line
  const Gap: string := "   "       // spacing between the end and the restart of a scrolling name

  /** Index of the last '/' in `s`, or -1 when `s` has none. */
  function LastSlash(s: string): (k: int)
    ensures -1 <= k < |s|
    ensures k >= 0 ==> s[k] == '/'
    ensures forall i :: k < i < |s| ==> s[i] != '/'
    decreases |s|
  {
    if s == [] then -1
    else if s[|s| - 1] == '/' then |s| - 1
    else LastSlash(s[..|s| - 1])
  }

  /**
   * `song_name.split('/')[-1]` when the name holds a '/', else the name
   * itself: the longest suffix without a '/'.
   */
  function BaseName(path: string): (name: string)
    ensures '/' !in name
    ensures |name| <= |path| && path[|path| - |name|..] == name
    ensures '/' in path ==> path[|path| - |name| - 1] == '/'
    ensures '/' !in path ==> name == path
  {
    if '/' in path then path[LastSlash(path) + 1..] else path
  }

  /** A stored name has no '/' left, so storing it again leaves it as it is. */
  lemma BaseNameIdempotent(path: string)
    ensures BaseName(BaseName(path)) == BaseName(path)
  {
  }

  /** Python's `s[lo:hi]` for non-negative bounds: both are clipped to the length. */
  function Slice(s: string, lo: nat, hi: nat): (r: string)
    ensures |r| == (if lo < hi && lo < |s| then (if hi <= |s| then hi else |s|) - lo else 0)
    ensures forall i :: 0 <= i < |r| ==> r[i] == s[lo + i]
  {
    var h := if hi <= |s| then hi else |s|;
    if lo < h then s[lo..h] else []
  }

  /**
   * The window and wrap-around of `_get_scrolling_text`: the characters of
   * `fullText` visible at scroll position `pos`, padded from the start of
   * `fullText` near the end. It is the text rotated left by `pos`, cut to
   * `maxChars`.
   */
  function Frame(fullText: string, pos: nat, maxChars: nat): (display: string)
    requires maxChars < |fullText|
    ensures |display| == maxChars
    ensures pos >= |fullText| ==> display == fullText[..maxChars]
  {
    var displayText := Slice(fullText, pos, pos + maxChars);
    if |displayText| < maxChars then
      displayText + Slice(fullText, 0, maxChars - |displayText|)
    else
      displayText
  }

  /** `s` rotated left by `k` places. */
  function RotateLeft(s: string, k: nat): (r: string)
    requires k <= |s|
  {
    s[k..] + s[..k]
  }

  /** The visible window is a prefix of the rotated text. */
  lemma FrameIsRotation(fullText: string, pos: nat, maxChars: nat)
    requires maxChars < |fullText| && pos < |fullText|
    ensures Frame(fullText, pos, maxChars) == RotateLeft(fullText, pos)[..maxChars]
  {
    var head := Slice(fullText, pos, pos + maxChars);
    var f, r := Frame(fullText, pos, maxChars), RotateLeft(fullText, pos)[..maxChars];
    forall i | 0 <= i < maxChars ensures f[i] == r[i] {
      if pos + i < |fullText| {
        assert f[i] == head[i] == fullText[pos + i];
        assert r[i] == fullText[pos + i];
      } else {
        assert f[i] == fullText[i - |head|];
        assert r[i] == fullText[pos + i - |fullText|];
      }
    }
  }

  class DisplayManager {
    var activity: string
    var songName: string
    var musicStatus: string
    var isLocked: bool
    var volume: int
    var scrollPosition: nat
    var scrollDelayCounter: nat

    /** The scroll state always belongs to the stored song name. */
    ghost predicate Valid()
      reads this
    {
      scrollPosition < |songName| + |Gap| && scrollDelayCounter <= ScrollDelay
    }

    /** The status fields `__init__` sets; the device and the thread are left out. */
    constructor ()
      ensures Valid()
      ensures activity == "Staying still" && songName == "calm.wav" && musicStatus == "Playing"
      ensures !isLocked && volume == 50 && scrollPosition == 0 && scrollDelayCounter == 0
    {
      activity := "Staying still";
      songName := "calm.wav";
      musicStatus := "Playing";
      isLocked := false;
      volume := 50;
      scrollPosition := 0;
      scrollDelayCounter := 0;
    }

    method UpdateActivity(activityName: string)
      requires Valid()
      modifies this`activity
      ensures Valid() && activity == activityName
    {
      activity := activityName;
    }

    /** Stores the file name of `name`; a different name restarts scrolling. */
    method UpdateSong(name: string)
      requires Valid()
      modifies this`songName, this`scrollPosition, this`scrollDelayCounter
      ensures Valid()
      ensures songName == BaseName(name)
      ensures songName != old(songName) ==> scrollPosition == 0 && scrollDelayCounter == 0
      ensures songName == old(songName) ==>
                scrollPosition == old(scrollPosition) && scrollDelayCounter == old(scrollDelayCounter)
    {
      var fileName := BaseName(name);
      if fileName != songName {
        scrollPosition := 0;
        scrollDelayCounter := 0;
      }
      songName := fileName;
    }

    method UpdateMusicStatus(isPlaying: bool)
      requires Valid()
      modifies this`musicStatus
      ensures Valid() && musicStatus == (if isPlaying then "Playing" else "Paused")
    {
      musicStatus := if isPlaying then "Playing" else "Paused";
    }

    method UpdateLockStatus(locked: bool)
      requires Valid()
      modifies this`isLocked
      ensures Valid() && isLocked == locked
    {
      isLocked := locked;
    }

    method UpdateVolume(level: int)
      requires Valid()
      modifies this`volume
      ensures Valid() && volume == level
    {
      volume := level;
    }

    /**
     * `_get_scrolling_text`: a text that fits is shown whole; a longer one
     * is shown from its start for `ScrollDelay` frames, then as a window
     * moving one character per frame over `text + Gap`, wrapping to the start.
     */
    method GetScrollingText(text: string, maxChars: nat) returns (shown: string)
      modifies this`scrollPosition, this`scrollDelayCounter
      ensures |text| <= maxChars ==>
                shown == text && scrollPosition == old(scrollPosition)
                && scrollDelayCounter == old(scrollDelayCounter)
      ensures |text| > maxChars && old(scrollDelayCounter) < ScrollDelay ==>
                shown == text[..maxChars] && scrollPosition == old(scrollPosition)
                && scrollDelayCounter == old(scrollDelayCounter) + 1
      ensures |text| > maxChars && old(scrollDelayCounter) >= ScrollDelay ==>
                var fullText := text + Gap;
                var wrapped := old(scrollPosition) + 1 >= |fullText|;
                && shown == Frame(fullText, old(scrollPosition), maxChars)
                && |shown| == maxChars
                && (old(scrollPosition) < |fullText| ==>
                      shown == RotateLeft(fullText, old(scrollPosition))[..maxChars])
                && scrollPosition == (if wrapped then 0 else old(scrollPosition) + 1)
                && scrollPosition < |fullText|
                && scrollDelayCounter == (if wrapped then 0 else old(scrollDelayCounter))
    {
      if |text| <= maxChars {
        return text;
      }
      var fullText := text + Gap;
      if scrollDelayCounter < ScrollDelay {
        scrollDelayCounter := scrollDelayCounter + 1;
        return text[..maxChars];
      }
      var displayText := Slice(fullText, scrollPosition, scrollPosition + maxChars);
      if |displayText| < maxChars {
        displayText := displayText + Slice(fullText, 0, maxChars - |displayText|);
      }
      if scrollPosition < |fullText| {
        FrameIsRotation(fullText, scrollPosition, maxChars);
      }
      scrollPosition := scrollPosition + 1;
      if scrollPosition >= |fullText| {
        scrollPosition := 0;
        scrollDelayCounter := 0;
      }
      return displayText;
    }

    /** The song line of `_render_display`, the call that drives the scrolling. */
    method SongLine() returns (songDisplay: string)
      requires Valid()
      modifies this`scrollPosition, this`scrollDelayCounter
      ensures Valid()
      ensures |songDisplay| == if |songName| <= MaxSongChars then |songName| else MaxSongChars
      // a name that fits is shown whole, with the scroll state unchanged
      ensures |songName| <= MaxSongChars ==>
                songDisplay == songName && scrollPosition == old(scrollPosition)
                && scrollDelayCounter == old(scrollDelayCounter)
      // during the start delay the name's head is shown and the counter advances
      ensures |songName| > MaxSongChars && old(scrollDelayCounter) < ScrollDelay ==>
                songDisplay == songName[..MaxSongChars] && scrollPosition == old(scrollPosition)
                && scrollDelayCounter == old(scrollDelayCounter) + 1
      // then the padded name rotates by one place per frame, restarting the delay at the end
      ensures |songName| > MaxSongChars && old(scrollDelayCounter) >= ScrollDelay ==>
                var wrapped := old(scrollPosition) + 1 >= |songName + Gap|;
                && songDisplay == RotateLeft(songName + Gap, old(scrollPosition))[..MaxSongChars]
                && scrollPosition == (if wrapped then 0 else old(scrollPosition) + 1)
                && scrollDelayCounter == (if wrapped then 0 else old(scrollDelayCounter))
    {
      songDisplay := GetScrollingText(songName, MaxSongChars);
    }
  }
}
