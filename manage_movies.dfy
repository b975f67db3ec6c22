/** The admin movie list: the genre choices, and the search, genre and rating filters. The
    rating filter compares the rating's JavaScript text with the chosen option. */
module ManageMovies {
  import opened Collections
  import opened Text
  import opened Ordering
  import opened Movies

  /** The text of `t / 10`: the whole part, then the tenths digit after a point unless it
      is zero. */
  function TenthsText(t: nat): string
  {
    NatToString(t / 10) + (if t % 10 == 0 then "" else "." + [DigitChar(t % 10)])
  }

  /** `rating.toString()` for a rating with at most one decimal place (`8` and `8.5`).
      Other ratings have no text here. */
  function RatingText(r: real): Option<string>
  {
    var tenths := (r * 10.0).Floor;
    if r < 0.0 || tenths as real != r * 10.0 then None else Some(TenthsText(tenths as nat))
  }

  lemma RatingTextExamples()
    ensures RatingText(8.5) == Some("8.5") && RatingText(8.0) == Some("8")
    ensures RatingText(10.0) == Some("10") && RatingText(8.25) == None
  {
    assert (8.5 * 10.0).Floor == 85;
    assert (8.0 * 10.0).Floor == 80;
    assert (10.0 * 10.0).Floor == 100;
    assert TenthsText(85) == "8.5" by {
      assert NatToString(8) == "8" && DigitChar(5) == '5';
    }
    assert TenthsText(80) == "8" by {
      assert NatToString(8) == "8";
    }
    assert TenthsText(100) == "10" by {
      assert NatToString(1) == "1";
    }
  }

  /** Different numbers of tenths have different texts. */
  lemma TenthsTextInjective(t1: nat, t2: nat)
    requires TenthsText(t1) == TenthsText(t2)
    ensures t1 == t2
  {
    var s := TenthsText(t1);
    var w1, w2 := NatToString(t1 / 10), NatToString(t2 / 10);
    if t1 % 10 == 0 && t2 % 10 == 0 {
      DigitsValueOfNatToString(t1 / 10);
      DigitsValueOfNatToString(t2 / 10);
      DigitsDetermine(t1, t2);
    } else if t1 % 10 != 0 && t2 % 10 != 0 {
      assert s == w1 + "." + [DigitChar(t1 % 10)] == w2 + "." + [DigitChar(t2 % 10)];
      assert s[|s| - 1] == DigitChar(t1 % 10) == DigitChar(t2 % 10);
      assert |w1| == |w2|;
      assert w1 == s[..|w1|] == w2;
      DigitsValueOfNatToString(t1 / 10);
      DigitsValueOfNatToString(t2 / 10);
      DigitsDetermine(t1, t2);
    } else if t1 % 10 == 0 {
      WholeTextHasNoPoint(t1, t2);
    } else {
      WholeTextHasNoPoint(t2, t1);
    }
  }

  /** A whole number's text is all digits, while a fractional one has a point. */
  lemma WholeTextHasNoPoint(whole: nat, frac: nat)
    requires whole % 10 == 0 && frac % 10 != 0
    ensures TenthsText(whole) != TenthsText(frac)
  {
    var s := TenthsText(frac);
    assert s[|s| - 2] == '.';
    assert AllDigits(TenthsText(whole));
  }

  lemma DigitsDetermine(t1: nat, t2: nat)
    requires t1 / 10 == t2 / 10 && t1 % 10 == t2 % 10
    ensures t1 == t2
  {
  }

  /** Different ratings never share a text, so a chosen text selects one rating. */
  lemma RatingTextInjective(a: real, b: real)
    requires RatingText(a).Some? && RatingText(a) == RatingText(b)
    ensures a == b
  {
    TenthsTextInjective((a * 10.0).Floor as nat, (b * 10.0).Floor as nat);
  }

  /** The movie list's criteria; an empty string means the criterion is off. */
  datatype Criteria = Criteria(searchTerm: string, selectedGenre: string, selectedRating: string)

  /** Title, or a non-empty description, contains the term, ignoring case. */
  predicate MatchesSearch(m: Movie, term: string)
  {
    term == [] || ContainsIgnoringCase(m.title, term) ||
    (m.description != [] && ContainsIgnoringCase(m.description, term))
  }

  /** A zero rating is falsy, so it never matches a chosen rating. */
  predicate MatchesRating(m: Movie, selected: string)
  {
    selected == [] || (m.rating != 0.0 && RatingText(m.rating) == Some(selected))
  }

  predicate Matches(m: Movie, c: Criteria)
  {
    MatchesSearch(m, c.searchTerm) &&
    (c.selectedGenre == [] || c.selectedGenre in m.genre) &&
    MatchesRating(m, c.selectedRating)
  }

  function MatchesAll(c: Criteria): Movie -> bool
  {
    (m: Movie) => Matches(m, c)
  }

  /** `filterMovies`: the movies meeting every criterion, in their listed order. */
  function FilteredMovies(ms: seq<Movie>, c: Criteria): (r: seq<Movie>)
    ensures SubsequenceOf(r, ms)
    ensures forall m :: m in r <==> m in ms && Matches(m, c)
  {
    Filter(ms, MatchesAll(c))
  }

  /** With no criterion set, every movie is listed. */
  lemma NoCriteriaKeepsAll(ms: seq<Movie>)
    ensures FilteredMovies(ms, Criteria("", "", "")) == ms
  {
    FilterAll(ms, MatchesAll(Criteria("", "", "")));
  }

  /** Choosing the text of a non-zero rating keeps exactly the movies with that rating
      (among those the other criteria keep). */
  lemma RatingFilterSelects(ms: seq<Movie>, c: Criteria, x: real)
    requires x != 0.0 && RatingText(x).Some? && c.selectedRating == RatingText(x).value
    ensures forall m :: m in FilteredMovies(ms, c) <==>
              m in ms && m.rating == x && Matches(m, c.(selectedRating := ""))
  {
    forall m | m in ms
      ensures Matches(m, c) <==> m.rating == x && Matches(m, c.(selectedRating := ""))
    {
      if m.rating != 0.0 && RatingText(m.rating) == Some(c.selectedRating) {
        RatingTextInjective(m.rating, x);
      }
    }
  }

  /** A movie rated 0 is never listed once a rating is chosen, even the text `0`. */
  lemma ZeroRatingNeverMatches(ms: seq<Movie>, c: Criteria)
    requires c.selectedRating != []
    ensures forall m :: m in FilteredMovies(ms, c) ==> m.rating != 0.0
  {
  }

  class ManageMoviesComponent {
    var movies: seq<Movie>
    var filteredMovies: seq<Movie>
    var criteria: Criteria

    constructor ()
      ensures movies == [] && filteredMovies == [] && criteria == Criteria("", "", "")
    {
      movies := [];
      filteredMovies := [];
      criteria := Criteria("", "", "");
    }

    /** The `availableGenres` getter: every genre once, sorted. */
    method AvailableGenres() returns (genres: seq<string>)
      ensures genres == GenreCatalogue(movies)
      ensures StrictlySorted(genres) && forall g :: g in genres <==> HasGenre(movies, g)
    {
      genres := ExtractGenres(movies);
    }

    /** `loadMovies`' reply, then `filterMovies`. */
    method LoadMovies(reply: seq<Movie>)
      modifies this
      ensures movies == reply && filteredMovies == FilteredMovies(reply, criteria) && criteria == old(criteria)
    {
      movies := reply;
      FilterMovies();
    }

    method FilterMovies()
      modifies this
      ensures filteredMovies == FilteredMovies(movies, criteria)
      ensures movies == old(movies) && criteria == old(criteria)
    {
      filteredMovies := Filter(movies, MatchesAll(criteria));
    }

    /** `onSearch` and `onFilterChange` after the bound controls change. */
    method OnFilterChange(c: Criteria)
      modifies this
      ensures criteria == c && filteredMovies == FilteredMovies(movies, c) && movies == old(movies)
    {
      criteria := c;
      FilterMovies();
    }
  }
}
