// The auto-rotating image gallery (src/components/ImageGallery.jsx).
//
// The component keeps `currentIndex` in state.  An effect keyed on the list
// length and the interval registers a recurring timer when there is more
// than one image; each firing advances the index modulo the list length.
// The indicator buttons overwrite the index without touching the timer.
// Time is modelled by explicit `Tick` events: one call means one interval
// boundary has passed.

module ImageGallery {
  import opened ContentContext

  /** `autoRotateInterval = 4000` when the prop is not given. */
  const DefaultAutoRotateInterval: nat := 4000

  /** One registered `setInterval`.  Its callback closes over the list length
      of the render that armed it. */
  datatype Timer = Timer(length: nat, period: nat)

  /** What the gallery renders. `indicators[i]` is true for the active button. */
  datatype GalleryView =
    | NoImagesPlaceholder
    | Slide(image: Image, indicators: seq<bool>)

  // ---- specification of the rotation ---------------------------------------

  /** The timer callback's update `(prevIndex + 1) % images.length`. */
  function Advance(i: nat, n: nat): (j: nat)
    requires n > 0
    ensures j < n
    ensures i < n - 1 ==> j == i + 1
    ensures i == n - 1 ==> j == 0
  {
    (i + 1) % n
  }

  /** The index after `k` firings, starting from `i`. */
  function AfterTicks(i: nat, n: nat, k: nat): nat
    requires n > 0
  {
    if k == 0 then i else Advance(AfterTicks(i, n, k - 1), n)
  }

  /** From an index in range, `k` firings land on `(i + k) mod n`. */
  lemma {:induction false} AfterTicksIsModular(i: nat, n: nat, k: nat)
    requires i < n
    ensures AfterTicks(i, n, k) == (i + k) % n
  {
    if k > 0 {
      AfterTicksIsModular(i, n, k - 1);
      var p := AfterTicks(i, n, k - 1);
      assert p == (i + k - 1) % n;
      ModSucc(i + k - 1, n);
    }
  }

  /** `((m mod n) + 1) mod n == (m + 1) mod n`. */
  lemma ModSucc(m: nat, n: nat)
    requires n > 0
    ensures ((m % n) + 1) % n == (m + 1) % n
  {
    var q, r := m / n, m % n;
    if r + 1 < n {
      ModUnique(m + 1, n, q, r + 1);
      ModUnique(r + 1, n, 0, r + 1);
    } else {
      ModUnique(m + 1, n, q + 1, 0);
      ModUnique(r + 1, n, 1, 0);
    }
  }

  /** Quotient and remainder are unique. */
  lemma ModUnique(a: int, n: int, q: int, r: int)
    requires n > 0 && 0 <= r < n && a == q * n + r
    ensures a % n == r
  {
    var q', r' := a / n, a % n;
    assert (q - q') * n == r' - r;
    if q > q' {
      MulAtLeast(q - q', n);
    } else if q < q' {
      MulAtLeast(q' - q, n);
    }
  }

  lemma MulAtLeast(d: int, n: int)
    requires d >= 1 && n > 0
    ensures d * n >= n
  {
  }

  /** A freshly mounted gallery with at least two images shows image
      `k mod n` after `k` firings. */
  lemma {:induction false} TicksFromZero(n: nat, k: nat)
    requires n >= 2
    ensures AfterTicks(0, n, k) == k % n
  {
    AfterTicksIsModular(0, n, k);
  }

  /** Indicator states for `n` images when `current` is shown: only rendered
      when there are at least two images. */
  function Indicators(n: nat, current: nat): (r: seq<bool>)
    ensures n <= 1 ==> r == []
    ensures n > 1 ==> |r| == n && forall i :: 0 <= i < n ==> (r[i] <==> i == current)
  {
    if n > 1 then seq(n, i => i == current) else []
  }

  /** Number of active indicators. */
  function CountActive(s: seq<bool>): nat {
    if s == [] then 0 else (if s[0] then 1 else 0) + CountActive(s[1..])
  }

  lemma {:induction false} CountActiveOfMarks(s: seq<bool>, c: int)
    requires forall i :: 0 <= i < |s| ==> (s[i] <==> i == c)
    ensures CountActive(s) == if 0 <= c < |s| then 1 else 0
  {
    if s != [] {
      var t := s[1..];
      forall i | 0 <= i < |t| ensures t[i] <==> i == c - 1 {
        assert t[i] == s[i + 1];
      }
      CountActiveOfMarks(t, c - 1);
    }
  }

  /** With more than one image and the index in range, exactly one indicator
      is active. */
  lemma ExactlyOneIndicatorActive(n: nat, current: nat)
    requires 1 < n && current < n
    ensures CountActive(Indicators(n, current)) == 1
  {
    CountActiveOfMarks(Indicators(n, current), current);
  }

  /** Render of the component for a given list and index.  An empty list
      gives the placeholder and no image is read; an index past the end
      reads `images[currentIndex].src` of undefined and throws. */
  function RenderGallery(images: seq<Image>, index: nat): (r: Outcome<GalleryView>)
    ensures |images| == 0 ==> r == Rendered(NoImagesPlaceholder)
    ensures 0 < |images| <= index ==> r == Threw(TypeError("src"))
    ensures index < |images| ==> r.Rendered? && r.view.Slide? && r.view.image == images[index]
    ensures index < |images| ==> r.view.indicators == Indicators(|images|, index)
  {
    if |images| == 0 then Rendered(NoImagesPlaceholder)
    else if index >= |images| then Threw(TypeError("src"))
    else Rendered(Slide(images[index], Indicators(|images|, index)))
  }

  /** The timers a mounted gallery holds after its effect has run. */
  function ArmedTimers(n: nat, period: nat): (ts: seq<Timer>)
    ensures n <= 1 ==> ts == []
    ensures n > 1 ==> ts == [Timer(n, period)]
  {
    if n <= 1 then [] else [Timer(n, period)]
  }

  // ---- the component ---------------------------------------------------------

  class Gallery {
    var images: seq<Image>
    var autoRotateInterval: nat
    var currentIndex: nat
    /** Timers registered with `setInterval` and not yet cleared. */
    var timers: seq<Timer>
    var mounted: bool

    /** At most one timer is live; it exists exactly while the gallery is
        mounted with more than one image, and it rotates over the current
        list length at the current interval.  The committed index is in
        range of a non-empty list. */
    ghost predicate Valid()
      reads this
    {
      && timers == (if mounted then ArmedTimers(|images|, autoRotateInterval) else [])
      && (|images| == 0 || currentIndex < |images|)
    }

    /** Mount: `useState(0)`, then the effect arms the timer when there is
        more than one image. */
    constructor (images: seq<Image>, interval: Option<nat>)
      ensures Valid() && mounted
      ensures this.images == images && currentIndex == 0
      ensures autoRotateInterval == (if interval.Some? then interval.value else DefaultAutoRotateInterval)
      ensures timers == ArmedTimers(|images|, autoRotateInterval)
    {
      this.images := images;
      this.autoRotateInterval := if interval.Some? then interval.value else DefaultAutoRotateInterval;
      currentIndex := 0;
      mounted := true;
      timers := [];
      new;
      RunEffect();
    }

    /** The effect body: `if (images.length <= 1) return`, else register. */
    method RunEffect()
      requires timers == []
      modifies this`timers
      ensures timers == ArmedTimers(|images|, autoRotateInterval)
    {
      if |images| <= 1 {
        return;
      }
      timers := timers + [Timer(|images|, autoRotateInterval)];
    }

    /** The effect cleanup: `clearInterval(interval)`. */
    method ClearTimers()
      modifies this`timers
      ensures timers == []
    {
      timers := [];
    }

    /** One interval boundary passes.  Each live timer fires its callback;
        with no timer nothing changes. */
    method Tick()
      requires Valid()
      modifies this`currentIndex
      ensures timers != [] ==> currentIndex == Advance(old(currentIndex), |images|)
      ensures timers != [] ==> currentIndex < |images|
      ensures timers == [] ==> currentIndex == old(currentIndex)
    {
      if timers != [] {
        var t := timers[0];
        currentIndex := Advance(currentIndex, t.length);
      }
    }

    /** `k` interval boundaries pass. */
    method TickMany(k: nat)
      requires Valid()
      modifies this`currentIndex
      ensures timers != [] ==> currentIndex == AfterTicks(old(currentIndex), |images|, k)
      ensures timers == [] ==> currentIndex == old(currentIndex)
    {
      var done := 0;
      while done < k
        invariant done <= k
        invariant timers != [] ==> currentIndex == AfterTicks(old(currentIndex), |images|, done)
        invariant timers == [] ==> currentIndex == old(currentIndex)
      {
        Tick();
        done := done + 1;
      }
    }

    /** An indicator button: `setCurrentIndex(index)`.  Buttons exist only for
        indices of the list; the timer is left as it is. */
    method GoTo(j: nat)
      requires Valid() && j < |images|
      modifies this`currentIndex
      ensures currentIndex == j && timers == old(timers)
    {
      currentIndex := j;
    }

    /** A re-render with new props.  The component renders first, with the
        kept index and the new list.  Only a render that succeeds commits:
        then the new props take effect, and the effect re-runs (cleanup, then
        arm) when the list length or the interval changed.  A render that
        throws commits nothing, so the old props and the old timer stay until
        the enclosing boundary unmounts the gallery. */
    method SetProps(newImages: seq<Image>, newInterval: nat) returns (view: Outcome<GalleryView>)
      requires Valid() && mounted
      modifies this`images, this`autoRotateInterval, this`timers
      ensures view == RenderGallery(newImages, currentIndex)
      ensures Valid() && mounted
      ensures view.Rendered? ==> images == newImages && autoRotateInterval == newInterval
      ensures (view.Rendered? && |old(images)| == |newImages| && old(autoRotateInterval) == newInterval)
                ==> timers == old(timers)
      ensures view.Threw? ==> images == old(images) && autoRotateInterval == old(autoRotateInterval)
                              && timers == old(timers)
    {
      view := RenderGallery(newImages, currentIndex);
      if view.Threw? {
        return;
      }
      var rerun := |newImages| != |images| || newInterval != autoRotateInterval;
      images, autoRotateInterval := newImages, newInterval;
      if rerun {
        ClearTimers();
        RunEffect();
      }
    }

    /** Unmount: the cleanup clears the timer.  Calling it again is harmless. */
    method Unmount()
      requires Valid()
      modifies this`timers, this`mounted
      ensures Valid() && !mounted && timers == []
    {
      ClearTimers();
      mounted := false;
    }

    /** What the component currently shows.  A committed state never throws:
        a render that would throw is never committed. */
    function Render(): (r: Outcome<GalleryView>)
      reads this
      ensures Valid() ==> r.Rendered?
      ensures Valid() && |images| > 0 ==> r.view.Slide? && r.view.image == images[currentIndex]
                                          && r.view.indicators == Indicators(|images|, currentIndex)
    {
      RenderGallery(images, currentIndex)
    }
  }

  // ---- scenarios ---------------------------------------------------------------

  function ThreeImages(): seq<Image> {
    [Image("a.jpg", "a"), Image("b.jpg", "b"), Image("c.jpg", "c")]
  }

  /** An empty list shows the placeholder and arms no timer. */
  method EmptyListScenario() returns (view: Outcome<GalleryView>, armed: nat)
    ensures view == Rendered(NoImagesPlaceholder) && armed == 0
  {
    var g := new Gallery([], Some(5000));
    g.Tick();
    view, armed := g.Render(), |g.timers|;
  }

  /** Three images at 5000 ms: two firings by 12000 ms show the third image. */
  method TwoFiringsScenario() returns (index: nat, view: Outcome<GalleryView>)
    ensures index == 2 && view == Rendered(Slide(ThreeImages()[2], [false, false, true]))
  {
    var g := new Gallery(ThreeImages(), Some(5000));
    g.Tick();
    g.Tick();
    index, view := g.currentIndex, g.Render();
    assert Indicators(3, 2) == [false, false, true];
  }

  /** Selecting image 2 does not reset the timer: the next firing wraps to 0. */
  method ManualSelectionScenario() returns (index: nat)
    ensures index == 0
  {
    var g := new Gallery(ThreeImages(), Some(5000));
    g.GoTo(2);
    g.Tick();
    index := g.currentIndex;
  }

  /** A single image: no timer, the index stays 0 however long time runs. */
  method SingleImageScenario(k: nat) returns (index: nat)
    ensures index == 0
  {
    var g := new Gallery([Image("a.jpg", "a")], None);
    g.TickMany(k);
    index := g.currentIndex;
  }

  /** After unmount no firing changes the index. */
  method TeardownScenario(k: nat) returns (before: nat, after: nat)
    ensures before == 1 && after == before
  {
    var g := new Gallery(ThreeImages(), None);
    g.Tick();
    before := g.currentIndex;
    g.Unmount();
    g.TickMany(k);
    after := g.currentIndex;
  }

  /** The index is not reset when the list shrinks: showing the last of three
      images and then receiving two makes the render throw before anything
      commits.  The old timer is not re-armed; it stays registered until the
      boundary unmounts the gallery, whose cleanup clears it. */
  method ShrinkScenario() returns (view: Outcome<GalleryView>, stale: seq<Timer>, armed: nat)
    ensures view == Threw(TypeError("src"))
    ensures stale == [Timer(3, 5000)]
    ensures armed == 0
  {
    var g := new Gallery(ThreeImages(), Some(5000));
    g.GoTo(2);
    view := g.SetProps(ThreeImages()[..2], 5000);
    stale := g.timers;
    g.Unmount();
    armed := |g.timers|;
  }
}
