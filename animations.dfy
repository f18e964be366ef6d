/**
 * graphics/Animation.java: a frame counter driven by two Swing timers.  The
 * loop timer advances the index modulo the frame count; the once timer
 * advances it until the last frame and then stops itself.  A timer firing is
 * an explicit tick; `loopRunning` and `onceRunning` say which timers run.
 */
module Animations {
  import opened JavaNum
  import opened JavaStrings
  import opened Wrappers

  /** The mutable part of an Animation, with the frame count. */
  datatype AnimState = AnimState(
    frameCounter: int, frameIndex: int,
    isPlaying: bool, loopRunning: bool, onceRunning: bool)

  /** The invariant the constructor establishes and every operation keeps. */
  predicate Inv(a: AnimState) {
    a.frameCounter >= 1 && 0 <= a.frameIndex < a.frameCounter
  }

  /** The state right after construction. */
  function Created(frameCounter: int): (r: AnimState)
    requires frameCounter >= 1
    ensures Inv(r) && r.frameIndex == 0 && r.frameCounter == frameCounter
    ensures !r.isPlaying && !r.loopRunning && !r.onceRunning
  {
    AnimState(frameCounter, 0, false, false, false)
  }

  /** The loop timer's action: `frameIndex = (frameIndex + 1) % frameCounter`. */
  function LoopStep(a: AnimState): (r: AnimState)
    requires Inv(a)
    ensures Inv(r)
    ensures r == a.(frameIndex := r.frameIndex)
    ensures r.frameIndex == if a.frameIndex == a.frameCounter - 1 then 0 else a.frameIndex + 1
  {
    a.(frameIndex := JavaRem(a.frameIndex + 1, a.frameCounter))
  }

  /** The once timer's action: advance; on reaching the frame count, reset, stop the once timer and stop playing. */
  function OnceStep(a: AnimState): (r: AnimState)
    requires Inv(a)
    ensures Inv(r) && r.frameCounter == a.frameCounter && r.loopRunning == a.loopRunning
    ensures a.frameIndex + 1 < a.frameCounter ==> r == a.(frameIndex := a.frameIndex + 1)
    ensures a.frameIndex + 1 == a.frameCounter ==> r.frameIndex == 0 && !r.isPlaying && !r.onceRunning
  {
    var i := a.frameIndex + 1;
    if i == a.frameCounter then a.(frameIndex := 0, onceRunning := false, isPlaying := false)
    else a.(frameIndex := i)
  }

  /** `play()`: starts the loop timer; the index is not reset. */
  function Started(a: AnimState): (r: AnimState)
    ensures r.isPlaying && r.loopRunning
    ensures r.frameIndex == a.frameIndex && r.onceRunning == a.onceRunning && r.frameCounter == a.frameCounter
    ensures Inv(a) ==> Inv(r)
  {
    a.(loopRunning := true, isPlaying := true)
  }

  /** `playOnce()`: resets the index and starts the once timer. */
  function StartedOnce(a: AnimState): (r: AnimState)
    ensures r.isPlaying && r.onceRunning && r.frameIndex == 0
    ensures r.loopRunning == a.loopRunning && r.frameCounter == a.frameCounter
    ensures Inv(a) ==> Inv(r)
  {
    a.(frameIndex := 0, onceRunning := true, isPlaying := true)
  }

  /** `stop()`: stops the loop timer only; a running once timer keeps firing. */
  function Stopped(a: AnimState): (r: AnimState)
    ensures !r.isPlaying && !r.loopRunning
    ensures r.onceRunning == a.onceRunning && r.frameIndex == a.frameIndex && r.frameCounter == a.frameCounter
    ensures Inv(a) ==> Inv(r)
  {
    a.(loopRunning := false, isPlaying := false)
  }

  /** `n` firings of the once timer. */
  function OnceTicks(a: AnimState, n: nat): (r: AnimState)
    requires Inv(a)
    ensures Inv(r)
  {
    if n == 0 then a else OnceStep(OnceTicks(a, n - 1))
  }

  /** `n` firings of the loop timer. */
  function LoopTicks(a: AnimState, n: nat): (r: AnimState)
    requires Inv(a)
    ensures Inv(r)
  {
    if n == 0 then a else LoopStep(LoopTicks(a, n - 1))
  }

  /** After `playOnce`, the first `k < frameCounter` firings show frame `k` and the animation still plays. */
  lemma {:induction false} PlayOnceShowsEachFrame(a: AnimState, k: nat)
    requires Inv(a) && k < a.frameCounter
    ensures OnceTicks(StartedOnce(a), k) == StartedOnce(a).(frameIndex := k)
  {
    if k > 0 {
      PlayOnceShowsEachFrame(a, k - 1);
    }
  }

  /** Exactly `frameCounter` firings after `playOnce` end the animation on frame 0 with the once timer stopped. */
  lemma PlayOnceEnds(a: AnimState)
    requires Inv(a)
    ensures OnceTicks(StartedOnce(a), a.frameCounter as nat)
         == a.(frameIndex := 0, isPlaying := false, onceRunning := false)
  {
    PlayOnceShowsEachFrame(a, a.frameCounter - 1);
  }

  /** Loop firings that stay below the frame count advance the index one by one. */
  lemma {:induction false} LoopTicksAdvance(a: AnimState, k: nat)
    requires Inv(a) && a.frameIndex + k < a.frameCounter
    ensures LoopTicks(a, k) == a.(frameIndex := a.frameIndex + k)
  {
    if k > 0 {
      LoopTicksAdvance(a, k - 1);
    }
  }

  /** Firings compose: `n + m` firings are `n` firings followed by `m`. */
  lemma {:induction false} LoopTicksCompose(a: AnimState, n: nat, m: nat)
    requires Inv(a)
    ensures LoopTicks(a, n + m) == LoopTicks(LoopTicks(a, n), m)
  {
    if m > 0 {
      LoopTicksCompose(a, n, m - 1);
    }
  }

  /** A full round of `frameCounter` loop firings brings the index back where it was. */
  lemma {:induction false} LoopTicksRound(a: AnimState)
    requires Inv(a)
    ensures LoopTicks(a, a.frameCounter as nat) == a
  {
    var toLast := a.frameCounter - 1 - a.frameIndex;
    var last := a.(frameIndex := a.frameCounter - 1);
    var atZero := a.(frameIndex := 0);
    assert LoopTicks(a, toLast + 1) == atZero by {
      LoopTicksAdvance(a, toLast);
      LoopStepWraps(last);
    }
    assert LoopTicks(atZero, a.frameIndex) == a by {
      LoopTicksAdvance(atZero, a.frameIndex);
    }
    LoopTicksCompose(a, toLast + 1, a.frameIndex);
  }

  /** The firing at the last frame goes back to frame 0. */
  lemma LoopStepWraps(a: AnimState)
    requires Inv(a) && a.frameIndex == a.frameCounter - 1
    ensures LoopStep(a) == a.(frameIndex := 0)
  {
  }

  /** The number of file names starting with the frame name: the constructor's counting loop. */
  function CountPrefixed(files: seq<string>, framesName: string): (n: nat)
    ensures n <= |files|
    ensures n == 0 <==> forall i :: 0 <= i < |files| ==> !StartsWith(files[i], framesName)
  {
    if files == [] then 0
    else CountPrefixed(files[..|files| - 1], framesName)
         + (if StartsWith(files[|files| - 1], framesName) then 1 else 0)
  }

  /**
   * What the constructor can throw: a NullPointerException when the folder
   * cannot be listed (`listFiles()` gives null), an IOException when no file
   * matches, and the IOException of `ImageIO.read` when frame file number
   * `number` cannot be read.
   */
  datatype Thrown = NullPointer | FramesNotFound | FrameUnreadable(number: nat)

  /** The exceptions `load` catches. */
  predicate IsIOException(t: Thrown) {
    !t.NullPointer?
  }

  /**
   * What `ImageIO.read` returns for file `framesName<number>.png`, whatever
   * that is (an image, or null for a format without a decoder).
   */
  datatype Frame = Frame(number: nat)

  /** The constructor's counting loop over the directory listing. */
  method CountFrames(files: seq<string>, framesName: string) returns (frameCounter: nat)
    ensures frameCounter == CountPrefixed(files, framesName)
  {
    frameCounter := 0;
    for i := 0 to |files|
      invariant frameCounter == CountPrefixed(files[..i], framesName)
    {
      assert files[..i + 1][..i] == files[..i];
      if StartsWith(files[i], framesName) {
        frameCounter := frameCounter + 1;
      }
    }
    assert files[..|files|] == files;
  }

  class Animation {
    /** Frame `i` is the image of file number `i + 1`. */
    const frames: array<Frame>
    const frameCounter: int
    var frameIndex: int
    var isPlaying: bool
    /** Whether the loop timer (`frameTimer`) runs. */
    var loopRunning: bool
    /** Whether the once timer (`frameOnceTimer`) runs. */
    var onceRunning: bool

    predicate Valid()
      reads this, frames
    {
      FramesLoaded() && Inv(State())
    }

    /** Frame `i` holds file number `i + 1`, for each of the `frameCounter` frames. */
    predicate FramesLoaded()
      reads frames
    {
      frames.Length == frameCounter
      && forall i :: 0 <= i < frames.Length ==> frames[i] == Frame(i + 1)
    }

    function State(): AnimState
      reads this
    {
      AnimState(frameCounter, frameIndex, isPlaying, loopRunning, onceRunning)
    }

    /**
     * The reading loop: frames 1 to `frameCounter` in order, where
     * `readable(i)` says whether file number `i` can be read; the first
     * unreadable file ends the loop with its exception.
     */
    static method ReadFrames(frameCounter: nat, readable: nat -> bool) returns (r: Result<array<Frame>, Thrown>)
      ensures r.Failure? <==> exists i :: 1 <= i <= frameCounter && !readable(i)
      ensures r.Failure? ==> r.error.FrameUnreadable? && 1 <= r.error.number <= frameCounter
                             && !readable(r.error.number)
                             && forall j :: 1 <= j < r.error.number ==> readable(j)
      ensures r.Success? ==> fresh(r.value) && r.value.Length == frameCounter
                             && forall i :: 0 <= i < frameCounter ==> r.value[i] == Frame(i + 1)
    {
      var read := new Frame[frameCounter];
      var i := 1;
      while i <= frameCounter
        invariant 1 <= i <= frameCounter + 1
        invariant forall j :: 1 <= j < i ==> readable(j)
        invariant forall j :: 0 <= j < i - 1 ==> read[j] == Frame(j + 1)
      {
        if !readable(i) {
          return Failure(FrameUnreadable(i));
        }
        read[i - 1] := Frame(i);
        i := i + 1;
      }
      return Success(read);
    }

    /** The rest of the constructor, once the frames are read. */
    constructor Frames(read: array<Frame>)
      requires read.Length >= 1
      requires forall i :: 0 <= i < read.Length ==> read[i] == Frame(i + 1)
      ensures Valid() && State() == Created(read.Length) && frames == read
    {
      this.frames := read;
      this.frameCounter := read.Length;
      this.frameIndex := 0;
      this.isPlaying := false;
      this.loopRunning := false;
      this.onceRunning := false;
    }

    /**
     * `new Animation(framesName, baseURL, frameRate)`: `listing` is what
     * `listFiles()` gives for the folder (None for null), and `readable(i)`
     * whether `ImageIO.read` can read frame file number `i`.
     */
    static method New(framesName: string, listing: Option<seq<string>>, readable: nat -> bool)
      returns (r: Result<Animation, Thrown>)
      ensures listing.None? ==> r == Failure(NullPointer)
      ensures listing.Some? && CountPrefixed(listing.value, framesName) == 0 ==> r == Failure(FramesNotFound)
      ensures listing.Some? && CountPrefixed(listing.value, framesName) > 0 ==>
                var n := CountPrefixed(listing.value, framesName);
                (r.Failure? <==> exists i :: 1 <= i <= n && !readable(i))
                && (r.Failure? ==> r.error.FrameUnreadable? && 1 <= r.error.number <= n
                                   && !readable(r.error.number)
                                   && forall j :: 1 <= j < r.error.number ==> readable(j))
      ensures r.Success? ==> listing.Some? && fresh(r.value) && fresh(r.value.frames) && r.value.Valid()
                             && r.value.State() == Created(CountPrefixed(listing.value, framesName))
    {
      if listing.None? {
        return Failure(NullPointer);
      }
      var n := CountFrames(listing.value, framesName);
      if n == 0 {
        return Failure(FramesNotFound);
      }
      var read := ReadFrames(n, readable);
      if read.Failure? {
        return Failure(read.error);
      }
      var a := new Animation.Frames(read.value);
      return Success(a);
    }

    /**
     * `Animation.load`: null instead of an IOException; the
     * NullPointerException of an unlisted folder is not caught.
     */
    static method Load(framesName: string, listing: Option<seq<string>>, readable: nat -> bool)
      returns (r: Result<Animation?, Thrown>)
      ensures listing.None? <==> r == Failure(NullPointer)
      ensures r.Success? ==> listing.Some?
      ensures r == Success(null) <==>
                listing.Some? && (CountPrefixed(listing.value, framesName) == 0
                                  || exists i :: 1 <= i <= CountPrefixed(listing.value, framesName) && !readable(i))
      ensures r.Success? && r.value != null ==>
                fresh(r.value) && r.value.Valid() && r.value.State() == Created(CountPrefixed(listing.value, framesName))
    {
      var made := New(framesName, listing, readable);
      if made.Failure? {
        if IsIOException(made.error) {
          return Success(null);
        }
        return Failure(made.error);
      }
      return Success(made.value);
    }

    /** The loop timer fires. */
    method LoopTick()
      requires Valid()
      modifies this
      ensures Valid() && State() == LoopStep(old(State()))
    {
      frameIndex := (frameIndex + 1) % frameCounter;
    }

    /** The once timer fires. */
    method OnceTick()
      requires Valid()
      modifies this
      ensures Valid() && State() == OnceStep(old(State()))
    {
      frameIndex := frameIndex + 1;
      if frameIndex == frameCounter {
        frameIndex := 0;
        onceRunning := false;
        isPlaying := false;
      }
    }

    method Play()
      requires Valid()
      modifies this
      ensures Valid() && State() == Started(old(State()))
    {
      loopRunning := true;
      isPlaying := true;
    }

    method PlayOnce()
      requires Valid()
      modifies this
      ensures Valid() && State() == StartedOnce(old(State()))
    {
      frameIndex := 0;
      onceRunning := true;
      isPlaying := true;
    }

    method Stop()
      requires Valid()
      modifies this
      ensures Valid() && State() == Stopped(old(State()))
    {
      loopRunning := false;
      isPlaying := false;
    }

    /** `getCurrentFrame()`: the index is always in bounds, and the frame shown is file number `frameIndex + 1`. */
    method GetCurrentFrame() returns (f: Frame)
      requires Valid()
      ensures f.number == frameIndex + 1 && 1 <= f.number <= frameCounter
    {
      f := frames[frameIndex];
    }
  }
}
