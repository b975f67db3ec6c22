/** The user home page: the active movies, the genre buttons built from them, and the
    search-and-genre filter over them. */
module Home {
  import opened Collections
  import opened Text
  import opened Ordering
  import opened Movies

  const AllGenresLabel := "All"

  function IsActive(m: Movie): bool { m.isActive }

  /** `movies.filter(movie => movie.isActive)`. */
  function ActiveMovies(ms: seq<Movie>): (r: seq<Movie>)
    ensures SubsequenceOf(r, ms)
    ensures forall m :: m in r <==> m in ms && m.isActive
  {
    Filter(ms, IsActive)
  }

  /** The title or one of the genres contains the search term, ignoring case. */
  predicate MatchesSearch(m: Movie, term: string)
  {
    ContainsIgnoringCase(m.title, term) || exists g :: g in m.genre && ContainsIgnoringCase(g, term)
  }

  predicate MatchesGenre(m: Movie, selected: string)
  {
    selected == AllGenresLabel || selected in m.genre
  }

  function Shown(term: string, selected: string): Movie -> bool
  {
    (m: Movie) => MatchesSearch(m, term) && MatchesGenre(m, selected)
  }

  /** `filterMovies`: the movies matching the search and the selected genre, in order. */
  function FilteredMovies(ms: seq<Movie>, term: string, selected: string): (r: seq<Movie>)
    ensures SubsequenceOf(r, ms)
    ensures forall m :: m in r <==> m in ms && MatchesSearch(m, term) && MatchesGenre(m, selected)
  {
    Filter(ms, Shown(term, selected))
  }

  /** An empty search with the `All` genre lists every movie. */
  lemma NoCriteriaKeepsAll(ms: seq<Movie>)
    ensures FilteredMovies(ms, "", AllGenresLabel) == ms
  {
    forall i | 0 <= i < |ms|
      ensures Shown("", AllGenresLabel)(ms[i])
    {
      EmptyTermMatches(ms[i].title);
    }
    FilterAll(ms, Shown("", AllGenresLabel));
  }

  /** Selecting a genre that no movie carries lists nothing. */
  lemma UnknownGenreListsNothing(ms: seq<Movie>, term: string, selected: string)
    requires selected != AllGenresLabel && !HasGenre(ms, selected)
    ensures FilteredMovies(ms, term, selected) == []
  {
  }

  /** The genre buttons: `All`, then every genre of the active movies once, sorted. */
  function GenreButtons(active: seq<Movie>): (r: seq<string>)
    ensures |r| >= 1 && r[0] == AllGenresLabel && StrictlySorted(r[1..])
    ensures forall g :: g in r[1..] <==> HasGenre(active, g)
  {
    var catalogue := GenreCatalogue(active);
    assert ([AllGenresLabel] + catalogue)[1..] == catalogue;
    [AllGenresLabel] + catalogue
  }

  class HomeComponent {
    var movies: seq<Movie>
    var filteredMovies: seq<Movie>
    var searchTerm: string
    var selectedGenre: string
    var genres: seq<string>

    constructor ()
      ensures movies == [] && filteredMovies == [] && searchTerm == "" && selectedGenre == AllGenresLabel
      ensures genres == [AllGenresLabel]
    {
      movies := [];
      filteredMovies := [];
      searchTerm := "";
      selectedGenre := AllGenresLabel;
      genres := [AllGenresLabel];
    }

    /** `loadMovies`' reply: only active movies are kept and all of them are shown,
        whatever search or genre is current; the genre buttons are rebuilt. */
    method LoadMovies(reply: seq<Movie>)
      modifies this
      ensures movies == ActiveMovies(reply) && filteredMovies == movies
      ensures genres == GenreButtons(movies)
      ensures searchTerm == old(searchTerm) && selectedGenre == old(selectedGenre)
    {
      movies := Filter(reply, IsActive);
      filteredMovies := movies;
      ExtractGenresInto();
    }

    /** `extractGenres`. */
    method ExtractGenresInto()
      modifies this
      ensures genres == GenreButtons(movies)
      ensures movies == old(movies) && filteredMovies == old(filteredMovies)
      ensures searchTerm == old(searchTerm) && selectedGenre == old(selectedGenre)
    {
      var catalogue := ExtractGenres(movies);
      genres := [AllGenresLabel] + catalogue;
    }

    /** `onSearch` with the bound search text. */
    method OnSearch(term: string)
      modifies this
      ensures searchTerm == term && filteredMovies == FilteredMovies(movies, term, selectedGenre)
      ensures movies == old(movies) && selectedGenre == old(selectedGenre) && genres == old(genres)
    {
      searchTerm := term;
      filteredMovies := Filter(movies, Shown(searchTerm, selectedGenre));
    }

    method OnGenreFilter(genre: string)
      modifies this
      ensures selectedGenre == genre && filteredMovies == FilteredMovies(movies, searchTerm, genre)
      ensures movies == old(movies) && searchTerm == old(searchTerm) && genres == old(genres)
    {
      selectedGenre := genre;
      filteredMovies := Filter(movies, Shown(searchTerm, selectedGenre));
    }
  }
}
