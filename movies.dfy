/** The movie record shared by the user and admin pages, and the genre catalogue both pages
    derive from a movie list. The release date is kept out of the record: the edit form
    receives its ISO date text separately. A movie without a trailer has the empty string. */
module Movies {
  import opened Ordering

  datatype Movie = Movie(
    id: string, title: string, description: string, genre: seq<string>,
    duration: int, rating: real, posterUrl: string, trailerUrl: string, language: string, isActive: bool)

  /** Some movie of the list is tagged with genre `g`. */
  predicate HasGenre(ms: seq<Movie>, g: string)
  {
    exists i :: 0 <= i < |ms| && g in ms[i].genre
  }

  /** Every movie's genres, movie after movie. */
  function AllGenres(ms: seq<Movie>): (r: seq<string>)
    ensures forall g :: g in r <==> HasGenre(ms, g)
  {
    if ms == [] then []
    else
      var init := AllGenres(ms[..|ms| - 1]);
      assert forall g :: HasGenre(ms, g) <==> HasGenre(ms[..|ms| - 1], g) || g in ms[|ms| - 1].genre by {
        forall g
          ensures HasGenre(ms, g) <==> HasGenre(ms[..|ms| - 1], g) || g in ms[|ms| - 1].genre
        {
          if HasGenre(ms, g) {
            var i :| 0 <= i < |ms| && g in ms[i].genre;
            if i < |ms| - 1 {
              assert ms[..|ms| - 1][i] == ms[i];
            }
          }
          if HasGenre(ms[..|ms| - 1], g) {
            var i :| 0 <= i < |ms| - 1 && g in ms[..|ms| - 1][i].genre;
            assert ms[..|ms| - 1][i] == ms[i];
          }
        }
      }
      init + ms[|ms| - 1].genre
  }

  /** `Array.from(set of every genre).sort()`: each genre that tags some movie, once, in
      ascending order. */
  function GenreCatalogue(ms: seq<Movie>): (r: seq<string>)
    ensures StrictlySorted(r)
    ensures forall g :: g in r <==> HasGenre(ms, g)
  {
    SortedDistinct(AllGenres(ms))
  }

  /** The nested `forEach` that adds every genre to a set, followed by the sort: built here
      by inserting each genre into a sorted, duplicate-free list. */
  method ExtractGenres(ms: seq<Movie>) returns (genres: seq<string>)
    ensures genres == GenreCatalogue(ms)
  {
    genres := [];
    var i := 0;
    while i < |ms|
      invariant 0 <= i <= |ms|
      invariant StrictlySorted(genres)
      invariant forall y :: y in genres <==> HasGenre(ms[..i], y)
    {
      var j := 0;
      while j < |ms[i].genre|
        invariant 0 <= j <= |ms[i].genre|
        invariant StrictlySorted(genres)
        invariant forall y :: y in genres <==> HasGenre(ms[..i], y) || y in ms[i].genre[..j]
      {
        assert ms[i].genre[..j + 1] == ms[i].genre[..j] + [ms[i].genre[j]];
        genres := InsertSorted(ms[i].genre[j], genres);
        j := j + 1;
      }
      assert ms[i].genre[..j] == ms[i].genre;
      PrefixGenres(ms, i);
      i := i + 1;
    }
    assert ms[..i] == ms;
    SortedEnumerationUnique(genres, GenreCatalogue(ms));
  }

  /** The genres of one more movie. */
  lemma PrefixGenres(ms: seq<Movie>, i: nat)
    requires i < |ms|
    ensures forall y :: HasGenre(ms[..i + 1], y) <==> HasGenre(ms[..i], y) || y in ms[i].genre
  {
    forall y
      ensures HasGenre(ms[..i + 1], y) <==> HasGenre(ms[..i], y) || y in ms[i].genre
    {
      if HasGenre(ms[..i + 1], y) {
        var k :| 0 <= k < i + 1 && y in ms[..i + 1][k].genre;
        if k < i {
          assert ms[..i][k] == ms[k];
        }
      }
      if HasGenre(ms[..i], y) {
        var k :| 0 <= k < i && y in ms[..i][k].genre;
        assert ms[..i + 1][k] == ms[k];
      }
      if y in ms[i].genre {
        assert ms[..i + 1][i] == ms[i];
      }
    }
  }
}
