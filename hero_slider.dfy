/** The home page's hero carousel: an index into the movie list that moves forward with
    wrap-around, backward, or to a chosen slide. The index is a JavaScript number, so it can
    become NaN: `(i + 1) % 0` is NaN when the list is empty. */
module HeroSlider {
  import opened Collections
  import opened Text
  import opened Movies

  datatype SlideIndex = At(i: int) | NaN

  /** `(currentIndex + 1) % movies.length`. */
  function Next(idx: SlideIndex, n: nat): (r: SlideIndex)
    ensures r.NaN? <==> idx.NaN? || n == 0
    ensures InRange(idx, n) ==> InRange(r, n)
  {
    match idx
    case NaN => NaN
    case At(i) => if n == 0 then NaN else At(JsRem(i + 1, n))
  }

  /** `currentIndex === 0 ? movies.length - 1 : currentIndex - 1`. */
  function Prev(idx: SlideIndex, n: nat): (r: SlideIndex)
    ensures r.NaN? <==> idx.NaN?
    ensures InRange(idx, n) ==> InRange(r, n)
  {
    match idx
    case NaN => NaN
    case At(i) => if i == 0 then At(n - 1) else At(i - 1)
  }

  predicate InRange(idx: SlideIndex, n: nat)
  {
    idx.At? && 0 <= idx.i < n
  }

  /** With a non-empty list, moving forward or back keeps a valid index valid. */
  lemma StepsStayInRange(idx: SlideIndex, n: nat)
    requires InRange(idx, n)
    ensures InRange(Next(idx, n), n) && InRange(Prev(idx, n), n)
  {
  }

  /** Moving forward from the last slide wraps to the first, and back from the first wraps
      to the last. */
  lemma Wraps(n: nat)
    requires n > 0
    ensures Next(At(n - 1), n) == At(0) && Prev(At(0), n) == At(n - 1)
  {
  }

  /** Back undoes forward, and forward undoes back, on a valid index. */
  lemma PrevUndoesNext(idx: SlideIndex, n: nat)
    requires InRange(idx, n)
    ensures Prev(Next(idx, n), n) == idx && Next(Prev(idx, n), n) == idx
  {
    WrapStep(idx.i, n);
    if idx.i > 0 {
      WrapStep(idx.i - 1, n);
    } else {
      WrapStep(n - 1, n);
    }
  }

  /** One step forward on a valid index, without `%`. */
  lemma WrapStep(i: nat, n: nat)
    requires i < n
    ensures JsRem(i + 1, n) == if i + 1 == n then 0 else i + 1
  {
    if i + 1 == n {
      ModSelf(n);
    } else {
      ModSmall(i + 1, n);
    }
  }

  lemma ModSelf(n: nat)
    requires n > 0
    ensures n % n == 0
  {
  }

  lemma ModSmall(a: nat, n: nat)
    requires a < n
    ensures a % n == a
  {
  }

  /** `k` automatic advances. */
  function NextTimes(idx: SlideIndex, n: nat, k: nat): SlideIndex
  {
    if k == 0 then idx else Next(NextTimes(idx, n, k - 1), n)
  }

  /** Advancing `k <= n - i` times from `i` moves `k` slides on, wrapping to 0 at the end. */
  lemma {:induction false} NextTimesAt(i: nat, n: nat, k: nat)
    requires i < n && i + k <= n
    ensures NextTimes(At(i), n, k) == At(if i + k == n then 0 else i + k)
  {
    if k > 0 {
      NextTimesAt(i, n, k - 1);
      WrapStep(i + k - 1, n);
    }
  }

  lemma {:induction false} NextTimesSplit(idx: SlideIndex, n: nat, j: nat, k: nat)
    ensures NextTimes(idx, n, j + k) == NextTimes(NextTimes(idx, n, j), n, k)
  {
    if k > 0 {
      NextTimesSplit(idx, n, j, k - 1);
    }
  }

  /** `n` advances bring the carousel back to where it started. */
  lemma FullCycle(i: nat, n: nat)
    requires i < n
    ensures NextTimes(At(i), n, n) == At(i)
  {
    NextTimesSplit(At(i), n, n - i, i);
    NextTimesAt(i, n, n - i);
    NextTimesAt(0, n, i);
  }

  /** Once NaN, the index stays NaN whatever the list holds later. */
  lemma NaNIsSticky(n: nat, k: nat)
    ensures NextTimes(NaN, n, k) == NaN && Prev(NaN, n) == NaN
  {
    if k > 0 {
      NaNIsSticky(n, k - 1);
    }
  }

  /** `movies[currentIndex] || {}`: `None` stands for the empty object. */
  function CurrentMovie(movies: seq<Movie>, idx: SlideIndex): (m: Option<Movie>)
    ensures m.Some? <==> InRange(idx, |movies|)
    ensures m.Some? ==> m.value == movies[idx.i]
  {
    if InRange(idx, |movies|) then Some(movies[idx.i]) else None
  }

  /** `getBackgroundImage`: the poster's CSS url, empty for the empty object. */
  function BackgroundImage(current: Option<Movie>): string
  {
    "url(" + (if current.Some? then current.value.posterUrl else "") + ")"
  }

  class HeroSliderComponent {
    var movies: seq<Movie>
    var currentIndex: SlideIndex

    constructor ()
      ensures movies == [] && currentIndex == At(0)
    {
      movies := [];
      currentIndex := At(0);
    }

    /** The `movies` input binding. */
    method SetMovies(ms: seq<Movie>)
      modifies this
      ensures movies == ms && currentIndex == old(currentIndex)
    {
      movies := ms;
    }

    method NextSlide()
      modifies this
      ensures currentIndex == Next(old(currentIndex), |movies|) && movies == old(movies)
    {
      var n := |movies|;
      if currentIndex.NaN? || n == 0 {
        currentIndex := NaN;
      } else {
        currentIndex := At(JsRem(currentIndex.i + 1, n));
      }
    }

    method PrevSlide()
      modifies this
      ensures currentIndex == Prev(old(currentIndex), |movies|) && movies == old(movies)
    {
      if currentIndex == At(0) {
        currentIndex := At(|movies| - 1);
      } else if currentIndex.At? {
        currentIndex := At(currentIndex.i - 1);
      }
    }

    /** `goToSlide`: no bounds check; the auto-advance timer restart is not modelled. */
    method GoToSlide(index: int)
      modifies this
      ensures currentIndex == At(index) && movies == old(movies)
    {
      currentIndex := At(index);
    }
  }
}
