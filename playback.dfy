/** The slideshow: the media queue, the current position, the pause flag and the screen shown,
    changed by the timer, the keyboard, the player's buttons and the video element's events. */
module Playback {
  import opened Common
  import opened Classifier
  import Subscriptions
  import Aggregation

  datatype ViewMode = Setup | Playing

  /** `currentIndex` as the JavaScript number it is: a non-negative integer, or NaN once an advance
      has divided by an empty queue's length. */
  datatype Position = At(index: nat) | NotANumber

  /** The updater `prev => (prev + 1) % mediaItems.length` for a queue of n items. */
  function Step(p: Position, n: nat): (q: Position)
    ensures n > 0 && p.At? ==> q.At? && q.index < n
    ensures n > 0 && p.At? && p.index + 1 < n ==> q == At(p.index + 1)
    ensures n > 0 && p.At? && p.index + 1 == n ==> q == At(0)
    ensures n == 0 || p == NotANumber ==> q == NotANumber
  {
    match p
    case NotANumber => NotANumber
    case At(i) => if n == 0 then NotANumber else At((i + 1) % n)
  }

  /** m advances in a row. */
  function Steps(p: Position, n: nat, m: nat): Position {
    if m == 0 then p else Step(Steps(p, n, m - 1), n)
  }

  /** A non-zero multiple of n is at least n away from zero. */
  lemma MultipleBounds(d: int, n: nat)
    ensures d >= 1 ==> d * n >= n
    ensures d <= -1 ==> d * n + n <= 0
  {
    if d >= 1 {
      assert d * n == (d - 1) * n + n;
    } else if d <= -1 {
      assert d * n == (d + 1) * n - n;
    }
  }

  /** A multiple of n strictly between -n and n is zero. */
  lemma SmallMultiple(d: int, n: nat)
    requires n > 0 && 0 < d * n + n && d * n < n
    ensures d == 0
  {
    MultipleBounds(d, n);
  }

  /** The remainder is the only value in [0, n) that differs from a by a multiple of n. */
  lemma ModUnique(a: nat, n: nat, q: int, r: int)
    requires n > 0 && 0 <= r < n && a == q * n + r
    ensures a % n == r
  {
    var q', r' := a / n, a % n;
    assert (q - q') * n == r' - r;
    SmallMultiple(q - q', n);
  }

  lemma ModSucc(a: nat, n: nat)
    requires n > 0
    ensures (a % n + 1) % n == (a + 1) % n
  {
    var q, r := a / n, a % n;
    if r + 1 < n {
      ModUnique(a + 1, n, q, r + 1);
      ModUnique(r + 1, n, 0, r + 1);
    } else {
      assert a + 1 == (q + 1) * n;
      ModUnique(a + 1, n, q + 1, 0);
      ModUnique(r + 1, n, 1, 0);
    }
  }

  /** From index k of a non-empty queue, m advances land on (k + m) mod n. */
  lemma {:induction false} StepsCycle(k: nat, n: nat, m: nat)
    requires k < n
    ensures Steps(At(k), n, m) == At((k + m) % n)
  {
    if m > 0 {
      StepsCycle(k, n, m - 1);
      ModSucc(k + m - 1, n);
    }
  }

  /** n advances bring a non-empty queue back to where it was. */
  lemma FullCycle(k: nat, n: nat)
    requires k < n
    ensures Steps(At(k), n, n) == At(k)
  {
    StepsCycle(k, n, n);
    ModUnique(k + n, n, 1, k);
  }

  /** Starting from the first item, every item of the queue comes up, the j-th after j advances. */
  lemma VisitsEveryItem(n: nat, j: nat)
    requires j < n
    ensures Steps(At(0), n, j) == At(j)
  {
    StepsCycle(0, n, j);
  }

  /** Once NaN, always NaN: no number of advances recovers the position. */
  lemma {:induction false} NaNAbsorbs(n: nat, m: nat)
    ensures Steps(NotANumber, n, m) == NotANumber
  {
    if m > 0 {
      NaNAbsorbs(n, m - 1);
    }
  }

  /** An advance on an empty queue leaves a NaN position. */
  lemma {:induction false} EmptyQueueGivesNaN(p: Position, m: nat)
    requires m > 0
    ensures Steps(p, 0, m) == NotANumber
  {
    if m > 1 {
      EmptyQueueGivesNaN(p, m - 1);
    }
  }

  /** The component state that the playback handlers read and write. */
  class Player {
    var mediaItems: seq<MediaRef>
    var currentIndex: Position
    var isPaused: bool
    var viewMode: ViewMode
    var isLoading: bool

    /** With a non-empty queue the position names one of its items. */
    ghost predicate Valid()
      reads this
    {
      |mediaItems| > 0 ==> currentIndex.At? && currentIndex.index < |mediaItems|
    }

    /** The initial state of the component. */
    constructor ()
      ensures Valid()
      ensures mediaItems == [] && currentIndex == At(0) && !isPaused && viewMode == Setup && !isLoading
    {
      mediaItems := [];
      currentIndex := At(0);
      isPaused := false;
      viewMode := Setup;
      isLoading := false;
    }

    /** `mediaItems[currentIndex]`: undefined unless the position is an index of the queue. */
    function CurrentMedia(): (m: Option<MediaRef>)
      reads this
      ensures m.Some? <==> currentIndex.At? && currentIndex.index < |mediaItems|
      ensures m.Some? ==> m.value == mediaItems[currentIndex.index]
    {
      match currentIndex
      case At(i) => if i < |mediaItems| then Some(mediaItems[i]) else None
      case NotANumber => None
    }

    /** The player screen, with its buttons and media element, is rendered. */
    predicate PlayerShown()
      reads this
    {
      viewMode == Playing && CurrentMedia().Some?
    }

    /** The current item is rendered as a video element, whose events can fire. */
    predicate VideoShown()
      reads this
    {
      PlayerShown() && CurrentMedia().value.kind == Video
    }

    /** The interval is set only in the player with a non-empty queue and no pause. */
    predicate IntervalArmed()
      reads this
    {
      viewMode == Playing && |mediaItems| > 0 && !isPaused
    }

    /** In a valid state with the player on, the interval runs exactly when not paused. */
    lemma ArmedWhenShown()
      requires Valid() && viewMode == Playing
      ensures IntervalArmed() <==> PlayerShown() && !isPaused
    {
    }

    /** The shared advance step of every trigger. */
    method Advance()
      requires Valid()
      modifies this
      ensures Valid()
      ensures currentIndex == Step(old(currentIndex), |mediaItems|)
      ensures mediaItems == old(mediaItems) && isPaused == old(isPaused)
      ensures viewMode == old(viewMode) && isLoading == old(isLoading)
    {
      currentIndex := Step(currentIndex, |mediaItems|);
    }

    /** The interval callback, firing while the interval is armed. */
    method Tick()
      requires Valid() && IntervalArmed()
      modifies this
      ensures Valid() && PlayerShown()
      ensures currentIndex == Step(old(currentIndex), |mediaItems|)
      ensures mediaItems == old(mediaItems) && isPaused == old(isPaused)
      ensures viewMode == old(viewMode) && isLoading == old(isLoading)
    {
      Advance();
    }

    /** The window's keydown listener: only in the player, Space toggles the pause and ArrowRight
        advances; every other key, and every key on the setup screen, changes nothing. */
    method KeyDown(code: string)
      requires Valid()
      modifies this
      ensures Valid()
      ensures mediaItems == old(mediaItems) && viewMode == old(viewMode) && isLoading == old(isLoading)
      ensures isPaused == (if old(viewMode) == Playing && code == "Space" then !old(isPaused) else old(isPaused))
      ensures currentIndex == (if old(viewMode) == Playing && code == "ArrowRight"
                               then Step(old(currentIndex), |mediaItems|) else old(currentIndex))
    {
      if viewMode == Playing {
        if code == "Space" {
          isPaused := !isPaused;
        }
        if code == "ArrowRight" {
          Advance();
        }
      }
    }

    /** The Skip button. */
    method Skip()
      requires Valid() && PlayerShown()
      modifies this
      ensures Valid() && PlayerShown()
      ensures currentIndex == Step(old(currentIndex), |mediaItems|)
      ensures mediaItems == old(mediaItems) && isPaused == old(isPaused)
      ensures viewMode == old(viewMode) && isLoading == old(isLoading)
    {
      Advance();
    }

    /** The video element's `ended` event. */
    method VideoEnded()
      requires Valid() && VideoShown()
      modifies this
      ensures Valid() && PlayerShown()
      ensures currentIndex == Step(old(currentIndex), |mediaItems|)
      ensures mediaItems == old(mediaItems) && isPaused == old(isPaused)
      ensures viewMode == old(viewMode) && isLoading == old(isLoading)
    {
      Advance();
    }

    /** The video element's `error` event: the failed item is skipped like any other. */
    method VideoError()
      requires Valid() && VideoShown()
      modifies this
      ensures Valid() && PlayerShown()
      ensures currentIndex == Step(old(currentIndex), |mediaItems|)
      ensures mediaItems == old(mediaItems) && isPaused == old(isPaused)
      ensures viewMode == old(viewMode) && isLoading == old(isLoading)
    {
      Advance();
    }

    /** The Pause/Resume button: the flag flips, the position stays. */
    method PauseButton()
      requires Valid() && PlayerShown()
      modifies this
      ensures Valid() && PlayerShown()
      ensures isPaused == !old(isPaused) && currentIndex == old(currentIndex)
      ensures mediaItems == old(mediaItems) && viewMode == old(viewMode) && isLoading == old(isLoading)
    {
      isPaused := !isPaused;
    }

    /** The Configure button: back to the setup screen, the queue and position kept. */
    method Configure()
      requires Valid() && PlayerShown()
      modifies this
      ensures Valid() && viewMode == Setup && !IntervalArmed()
      ensures mediaItems == old(mediaItems) && currentIndex == old(currentIndex)
      ensures isPaused == old(isPaused) && isLoading == old(isLoading)
    {
      viewMode := Setup;
    }

    /** The end of fetchMedia: the list becomes the queue, the position goes to its start and the
        player is entered, also for an empty list, which then shows neither screen. */
    method Install(media: seq<MediaRef>)
      requires Valid()
      modifies this
      ensures Valid()
      ensures mediaItems == media && currentIndex == At(0) && viewMode == Playing && !isLoading
      ensures isPaused == old(isPaused)
      ensures media == [] ==> !PlayerShown() && viewMode != Setup
      ensures media != [] ==> PlayerShown() && CurrentMedia() == Some(media[0])
    {
      mediaItems := media;
      currentIndex := At(0);
      viewMode := Playing;
      isLoading := false;
    }

    /** The Start button's fetchMedia: gather the media of the valid subscriptions, shuffle them
        in place, and install the result. */
    method FetchMedia(subs: seq<Subscriptions.Subscription>, listing: Aggregation.Listing, flags: Flags,
                      token: Option<string>, lookup: RedgifsLookup)
      requires Valid() && viewMode == Setup
      modifies this
      ensures Valid()
      ensures multiset(mediaItems) == multiset(Aggregation.AllMedia(subs, listing, flags, token, lookup))
      ensures currentIndex == At(0) && viewMode == Playing && !isLoading && isPaused == old(isPaused)
    {
      isLoading := true;
      var media := Aggregation.Collect(subs, listing, flags, token, lookup);
      var a := new MediaRef[|media|](i requires 0 <= i < |media| => media[i]);
      assert a[..] == media;
      Aggregation.Shuffle(a);
      Install(a[..]);
    }
  }
}
