// The image-loading hook (lib/useLoadedImage.ts): every change of `src`
// starts a load attempt, the previous attempt is cancelled by the effect
// cleanup, and the hook only ever returns an image loaded for the current src.
module LoadedImage {
  import opened Common

  /** A decoded bitmap, known by its natural size. */
  datatype Image = Image(naturalWidth: nat, naturalHeight: nat)

  /** The hook's `loaded` state: which src produced which image. */
  datatype Loaded = Loaded(src: string, image: Image)

  /** `!src`: the effect does nothing for a null or empty source. */
  predicate HasSource(src: Option<string>)
  {
    src.Some? && src.value != ""
  }

  class ImageLoader {
    var src: Option<string>       // the hook's argument at the latest render
    var loaded: Option<Loaded>    // the `loaded` state
    var attemptSrc: seq<string>   // the src each effect run started loading
    var cancelled: seq<bool>      // each effect run's `cancelled` flag
    var live: Option<nat>         // the effect run whose cleanup has not run yet

    ghost predicate Valid()
      reads this
    {
      && |attemptSrc| == |cancelled|
      && (live.Some? <==> HasSource(src))
      && (live.Some? ==> live.value < |cancelled| && !cancelled[live.value]
                         && attemptSrc[live.value] == src.value)
      && (forall i :: 0 <= i < |cancelled| && live != Some(i) ==> cancelled[i])
    }

    /** What the hook returns: the stored image, only when it was loaded for the current src. */
    function Current(): (r: Option<Image>)
      reads this
      ensures r.Some? ==> HasSource(src) && loaded.Some? && loaded.value.src == src.value
                          && r.value == loaded.value.image
      ensures r.None? ==> !HasSource(src) || loaded.None? || loaded.value.src != src.value
    {
      if HasSource(src) && loaded.Some? && loaded.value.src == src.value
      then Some(loaded.value.image) else None
    }

    /** First render: the effect runs once for the initial src. */
    constructor (initial: Option<string>)
      ensures Valid()
      ensures src == initial && loaded.None?
      ensures HasSource(initial) ==> attemptSrc == [initial.value] && live == Some(0)
      ensures !HasSource(initial) ==> attemptSrc == [] && live.None?
    {
      src := initial;
      loaded := None;
      if HasSource(initial) {
        attemptSrc, cancelled, live := [initial.value], [false], Some(0);
      } else {
        attemptSrc, cancelled, live := [], [], None;
      }
    }

    /** The effect cleanup: the live attempt's callbacks become no-ops. */
    method Cleanup()
      requires Valid()
      modifies this
      ensures |cancelled| == |old(cancelled)| && attemptSrc == old(attemptSrc)
      ensures forall i :: 0 <= i < |cancelled| ==> cancelled[i]
      ensures live.None? && src == old(src) && loaded == old(loaded)
    {
      if live.Some? {
        cancelled := cancelled[live.value := true];
      }
      live := None;
    }

    /**
     * A render with argument `next`. The effect depends on `src` only, so an
     * unchanged src does nothing; otherwise the old attempt is cleaned up and,
     * for a non-empty src, a new attempt starts.
     */
    method Render(next: Option<string>) returns (attempt: Option<nat>)
      requires Valid()
      modifies this
      ensures Valid()
      ensures src == next && loaded == old(loaded)
      ensures next == old(src) ==> attempt.None? && unchanged(this)
      ensures next != old(src) && HasSource(next) ==>
                attempt == Some(|old(cancelled)|) && attemptSrc == old(attemptSrc) + [next.value]
      ensures next != old(src) && !HasSource(next) ==> attempt.None? && live.None?
      ensures |cancelled| >= |old(cancelled)|
      ensures next != old(src) ==> forall i :: 0 <= i < |old(cancelled)| ==> cancelled[i]
      ensures Current() == if HasSource(next) && loaded.Some? && loaded.value.src == next.value
                           then Some(loaded.value.image) else None
    {
      attempt := None;
      if next == src {
        return;
      }
      Cleanup();
      src := next;
      if HasSource(next) {
        attempt := Some(|cancelled|);
        attemptSrc := attemptSrc + [next.value];
        cancelled := cancelled + [false];
        live := attempt;
      }
    }

    /** The component unmounts: its last attempt is cancelled. */
    method Unmount()
      requires Valid()
      modifies this
      ensures live.None? && loaded == old(loaded) && src == old(src)
      ensures forall i :: 0 <= i < |cancelled| ==> cancelled[i]
    {
      Cleanup();
    }

    /** `img.onload` of attempt `a`: a cancelled attempt changes nothing. */
    method OnLoad(a: nat, image: Image)
      requires Valid() && a < |cancelled|
      modifies this`loaded
      ensures Valid()
      ensures old(cancelled[a]) ==> loaded == old(loaded)
      ensures !old(cancelled[a]) ==> loaded == Some(Loaded(src.value, image)) && Current() == Some(image)
    {
      if cancelled[a] {
        return;
      }
      loaded := Some(Loaded(attemptSrc[a], image));
    }

    /** `img.onerror` of attempt `a`: a live attempt clears the stored image. */
    method OnError(a: nat)
      requires Valid() && a < |cancelled|
      modifies this`loaded
      ensures Valid()
      ensures old(cancelled[a]) ==> loaded == old(loaded)
      ensures !old(cancelled[a]) ==> loaded.None? && Current().None?
    {
      if cancelled[a] {
        return;
      }
      loaded := None;
    }
  }

  /**
   * A slow load for an earlier src that finishes after the src changed is
   * dropped: the hook returns the image of the src it was given last.
   */
  method StaleLoadIsIgnored(first: string, second: string, late: Image, current: Image)
    returns (shown: Option<Image>, shownBeforeLoad: Option<Image>)
    requires first != "" && second != "" && first != second
    ensures shownBeforeLoad.None?
    ensures shown == Some(current)
  {
    var hook := new ImageLoader(Some(first));
    var secondAttempt := hook.Render(Some(second));
    hook.OnLoad(0, late);
    shownBeforeLoad := hook.Current();
    hook.OnLoad(secondAttempt.value, current);
    shown := hook.Current();
  }
}
