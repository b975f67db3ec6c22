/** The admin movie form: its validators, the error text shown under a control, the
    comma-separated genre field and the request a submit produces. */
module AddMovie {
  import opened Collections
  import opened Text
  import Movies
  import Alerts

  /** The characters `String.prototype.trim` removes: white space and line terminators. */
  predicate IsSpace(c: char)
  {
    var n := c as int;
    (0x09 <= n <= 0x0D) || n == 0x20 || n == 0xA0 || n == 0x1680 || (0x2000 <= n <= 0x200A) ||
    n == 0x2028 || n == 0x2029 || n == 0x202F || n == 0x205F || n == 0x3000 || n == 0xFEFF
  }

  /** The white space before the first other character is cut, and nothing else. */
  function TrimStart(s: string): (r: string)
    ensures |r| <= |s| && r == s[|s| - |r|..]
    ensures r != [] ==> !IsSpace(r[0])
    ensures forall i :: 0 <= i < |s| - |r| ==> IsSpace(s[i])
  {
    if s != [] && IsSpace(s[0]) then TrimStart(s[1..]) else s
  }

  /** The white space after the last other character is cut, and nothing else. */
  function TrimEnd(s: string): (r: string)
    ensures |r| <= |s| && r == s[..|r|]
    ensures r != [] ==> !IsSpace(r[|r| - 1])
    ensures forall i :: |r| <= i < |s| ==> IsSpace(s[i])
  {
    if s != [] && IsSpace(s[|s| - 1]) then TrimEnd(s[..|s| - 1]) else s
  }

  /** `s.trim()`. */
  function Trim(s: string): string
  {
    TrimEnd(TrimStart(s))
  }

  /** No white space at either end. */
  predicate Trimmed(s: string)
  {
    s == [] || (!IsSpace(s[0]) && !IsSpace(s[|s| - 1]))
  }

  /** Trimming yields a trimmed piece of the input, and leaves a trimmed string alone:
      `Trim(s)` is `s` with a run of white space cut from each end, and nothing else. */
  lemma TrimMeaning(s: string)
    ensures Trimmed(Trim(s))
    ensures Trimmed(s) ==> Trim(s) == s
    ensures exists a, b :: 0 <= a <= b <= |s| && Trim(s) == s[a..b] &&
                           (forall i :: 0 <= i < a ==> IsSpace(s[i])) &&
                           (forall i :: b <= i < |s| ==> IsSpace(s[i]))
  {
    var t := TrimStart(s);
    var r := TrimEnd(t);
    if r != [] {
      assert r[0] == t[0];
    }
    var a := |s| - |t|;
    var b := a + |r|;
    assert r == s[a..b];
    forall i | b <= i < |s|
      ensures IsSpace(s[i])
    {
      assert s[i] == t[i - a];
    }
  }

  /** `s.split(',')`: the pieces between commas; a string without commas is one piece. */
  function SplitOnComma(s: string): (r: seq<string>)
    ensures |r| >= 1
    decreases |s|
  {
    if s == [] then [""]
    else if s[0] == ',' then [""] + SplitOnComma(s[1..])
    else
      var rest := SplitOnComma(s[1..]);
      [[s[0]] + rest[0]] + rest[1..]
  }

  /** `pieces.join(sep)`. */
  function Join(pieces: seq<string>, sep: string): string
  {
    if pieces == [] then ""
    else if |pieces| == 1 then pieces[0]
    else pieces[0] + sep + Join(pieces[1..], sep)
  }

  function TrimAll(pieces: seq<string>): (r: seq<string>)
    ensures |r| == |pieces|
    ensures forall i :: 0 <= i < |r| ==> r[i] == Trim(pieces[i])
  {
    Map(pieces, Trim)
  }

  function NonEmpty(s: string): bool { s != [] }

  /** The genre list a submit sends: `genre ? genre.split(',').map(trim).filter(nonEmpty) : []`. */
  function ParseGenres(text: string): seq<string>
  {
    if text == [] then [] else Filter(TrimAll(SplitOnComma(text)), NonEmpty)
  }

  /** Every parsed genre is non-empty, trimmed and free of commas. */
  lemma ParsedGenresAreGood(text: string)
    ensures forall g :: g in ParseGenres(text) ==> GoodGenre(g)
  {
    if text != [] {
      var pieces := TrimAll(SplitOnComma(text));
      forall g | g in ParseGenres(text)
        ensures GoodGenre(g)
      {
        var i :| 0 <= i < |pieces| && pieces[i] == g;
        TrimMeaning(SplitOnComma(text)[i]);
        TrimmedPieceHasNoComma(text, i);
      }
    }
  }

  /** A genre that survives the round trip through the form: non-empty, trimmed, comma-free. */
  predicate GoodGenre(g: string)
  {
    g != [] && Trimmed(g) && ',' !in g
  }

  /** The text the edit form shows for a genre list: `genre.join(', ')`. */
  function GenreText(genres: seq<string>): string
  {
    Join(genres, ", ")
  }

  /** No piece of a split holds a comma, and trimming keeps it so. */
  lemma {:induction false} TrimmedPieceHasNoComma(text: string, i: nat)
    requires i < |SplitOnComma(text)|
    ensures ',' !in SplitOnComma(text)[i] && ',' !in Trim(SplitOnComma(text)[i])
    decreases |text|
  {
    var p := SplitOnComma(text)[i];
    if text == [] {
    } else if text[0] == ',' {
      if i > 0 {
        TrimmedPieceHasNoComma(text[1..], i - 1);
      }
    } else {
      TrimmedPieceHasNoComma(text[1..], i);
      if i > 0 {
        TrimmedPieceHasNoComma(text[1..], i + 0);
        var rest := SplitOnComma(text[1..]);
        assert p == rest[i];
      }
    }
    var t := TrimStart(p);
    assert ',' !in t;
    assert ',' !in TrimEnd(t);
  }

  /** Splitting at the first comma. */
  lemma {:induction false} SplitAtComma(a: string, b: string)
    requires ',' !in a
    ensures SplitOnComma(a + "," + b) == [a] + SplitOnComma(b)
    decreases |a|
  {
    if a == [] {
      assert a + "," + b == [','] + b;
    } else {
      assert (a + "," + b)[1..] == a[1..] + "," + b;
      assert (a + "," + b)[0] == a[0] != ',';
      SplitAtComma(a[1..], b);
      assert [a[0]] + a[1..] == a;
    }
  }

  /** A string without commas is a single piece. */
  lemma {:induction false} SplitNoComma(a: string)
    requires ',' !in a
    ensures SplitOnComma(a) == [a]
    decreases |a|
  {
    if a != [] {
      SplitNoComma(a[1..]);
      assert [a[0]] + a[1..] == a;
    }
  }

  /** Leading white space only changes the first piece, and trimming removes it again. */
  lemma {:induction false} TrimAllLeadingSpace(c: char, s: string)
    requires IsSpace(c)
    ensures TrimAll(SplitOnComma([c] + s)) == TrimAll(SplitOnComma(s))
  {
    var rest := SplitOnComma(s);
    assert ([c] + s)[1..] == s;
    assert SplitOnComma([c] + s) == [[c] + rest[0]] + rest[1..];
    assert Trim([c] + rest[0]) == Trim(rest[0]) by {
      assert ([c] + rest[0])[1..] == rest[0];
    }
  }

  /** Joining two or more pieces: the first, the comma, then a space before the rest. */
  lemma JoinStep(genres: seq<string>)
    requires |genres| >= 2
    ensures GenreText(genres) == genres[0] + "," + ([' '] + GenreText(genres[1..]))
  {
    assert ", " == "," + [' '];
  }

  lemma TrimAllCons(x: string, xs: seq<string>)
    ensures TrimAll([x] + xs) == [Trim(x)] + TrimAll(xs)
  {
    assert ([x] + xs)[1..] == xs;
  }

  /** The pieces of a joined list of good genres are those genres. */
  lemma {:induction false} JoinedPieces(genres: seq<string>)
    requires genres != []
    requires forall g :: g in genres ==> GoodGenre(g)
    ensures TrimAll(SplitOnComma(GenreText(genres))) == genres
  {
    var g := genres[0];
    assert genres == [g] + genres[1..];
    assert GoodGenre(g) by {
      assert g in genres;
    }
    TrimMeaning(g);
    if |genres| == 1 {
      SplitNoComma(g);
    } else {
      var tail := GenreText(genres[1..]);
      JoinStep(genres);
      SplitAtComma(g, [' '] + tail);
      TrimAllCons(g, SplitOnComma([' '] + tail));
      TrimAllLeadingSpace(' ', tail);
      JoinedPieces(genres[1..]);
    }
  }

  /** The edit round trip: the genre text the form shows for a list of good genres parses
      back to that list. */
  lemma GenreRoundTrip(genres: seq<string>)
    requires forall g :: g in genres ==> GoodGenre(g)
    ensures ParseGenres(GenreText(genres)) == genres
  {
    if genres != [] {
      var text := GenreText(genres);
      JoinedPieces(genres);
      if |genres| == 1 {
        assert genres[0] in genres;
        assert text == genres[0];
      } else {
        JoinStep(genres);
      }
      assert text != [];
      assert ParseGenres(text) == Filter(genres, NonEmpty);
      assert forall i :: 0 <= i < |genres| ==> NonEmpty(genres[i]) by {
        forall i | 0 <= i < |genres|
          ensures NonEmpty(genres[i])
        {
          assert genres[i] in genres;
        }
      }
      FilterAll(genres, NonEmpty);
    }
  }

  /** Parsing normalises: a parsed list survives another edit and submit unchanged. */
  lemma ParseIdempotent(text: string)
    ensures ParseGenres(GenreText(ParseGenres(text))) == ParseGenres(text)
  {
    ParsedGenresAreGood(text);
    GenreRoundTrip(ParseGenres(text));
  }

  /** The form's nine controls. */
  datatype Field = Title | Description | Duration | Rating | Genre | Language | ReleaseDate | PosterUrl | TrailerUrl

  const AllFields: seq<Field> := [Title, Description, Duration, Rating, Genre, Language, ReleaseDate, PosterUrl, TrailerUrl]

  /** The control name a template passes to `getFieldError`. */
  function FieldName(f: Field): string
  {
    match f
    case Title => "title"
    case Description => "description"
    case Duration => "duration"
    case Rating => "rating"
    case Genre => "genre"
    case Language => "language"
    case ReleaseDate => "releaseDate"
    case PosterUrl => "posterUrl"
    case TrailerUrl => "trailerUrl"
  }

  /** The control values. Text controls hold strings (empty for `null` too, which the
      validators treat alike); the number controls hold `None` when empty. */
  datatype MovieForm = MovieForm(
    title: string, description: string, duration: Option<real>, rating: Option<real>,
    genre: string, language: string, releaseDate: string, posterUrl: string, trailerUrl: string)

  const InitialForm := MovieForm("", "", None, None, "", "English", "", "", "")

  /** The validator failures a control can report, in `getFieldError`'s order of checking. */
  datatype ControlError = Required | MinLength(length: nat) | Min(bound: nat) | Max(bound: nat)

  /** The validators attached to each control. `required` fails on an empty value, while
      `minLength`, `min` and `max` pass an empty value. */
  function ErrorsOf(form: MovieForm, f: Field): seq<ControlError>
  {
    match f
    case Title => if form.title == [] then [Required] else if |form.title| < 2 then [MinLength(2)] else []
    case Description => if form.description == [] then [Required] else if |form.description| < 10 then [MinLength(10)] else []
    case Duration => if form.duration.None? then [Required] else if form.duration.value < 1.0 then [Min(1)] else []
    case Rating =>
      if form.rating.None? then [Required]
      else if form.rating.value < 0.0 then [Min(0)]
      else if form.rating.value > 10.0 then [Max(10)]
      else []
    case Genre => if form.genre == [] then [Required] else []
    case Language => if form.language == [] then [Required] else []
    case ReleaseDate => if form.releaseDate == [] then [Required] else []
    case PosterUrl => []
    case TrailerUrl => []
  }

  /** `movieForm.valid`: no control reports an error. */
  predicate FormValid(form: MovieForm)
  {
    forall f :: ErrorsOf(form, f) == []
  }

  /** The rules in words: title of at least 2 characters, description of at least 10,
      duration at least 1, rating within 0..10, genre, language and release date present. */
  lemma FormRules(form: MovieForm)
    ensures FormValid(form) <==>
              |form.title| >= 2 && |form.description| >= 10 &&
              form.duration.Some? && form.duration.value >= 1.0 &&
              form.rating.Some? && 0.0 <= form.rating.value <= 10.0 &&
              form.genre != [] && form.language != [] && form.releaseDate != []
  {
    if FormValid(form) {
      assert ErrorsOf(form, Title) == [] && ErrorsOf(form, Description) == [];
      assert ErrorsOf(form, Duration) == [] && ErrorsOf(form, Rating) == [];
      assert ErrorsOf(form, Genre) == [] && ErrorsOf(form, Language) == [] && ErrorsOf(form, ReleaseDate) == [];
    }
  }

  /** The control name with its first letter upper-cased. */
  function Capitalised(name: string): string
  {
    if name == [] then [] else [UpperChar(name[0])] + name[1..]
  }

  /** The text for one validator failure. */
  function ErrorText(name: string, e: ControlError): (m: string)
    ensures m != []
  {
    match e
    case Required => Capitalised(name) + " is required"
    case MinLength(_) => Capitalised(name) + " is too short"
    case Min(b) => "Value must be greater than " + NatToString(b)
    case Max(b) => "Value must be less than " + NatToString(b)
  }

  /** `getFieldError`: the text of the first failure in the order required, minlength, min,
      max; empty when the control reports none. */
  function FieldError(form: MovieForm, f: Field): (m: string)
    ensures m == [] <==> ErrorsOf(form, f) == []
    ensures ErrorsOf(form, f) != [] ==> m == ErrorText(FieldName(f), ErrorsOf(form, f)[0])
  {
    var errors := ErrorsOf(form, f);
    if errors == [] then "" else ErrorText(FieldName(f), errors[0])
  }

  /** The form is valid exactly when no control shows an error text. */
  lemma ValidIffNoErrorText(form: MovieForm)
    ensures FormValid(form) <==> forall f :: FieldError(form, f) == ""
  {
    forall f
      ensures FieldError(form, f) == "" <==> ErrorsOf(form, f) == []
    {
    }
  }

  /** The text under a text control: an empty one names itself capitalised, and a short
      one says it is too short. */
  lemma TextControlErrors(form: MovieForm)
    ensures form.title == [] ==> FieldError(form, Title) == "Title" + " is required"
    ensures 0 < |form.title| < 2 ==> FieldError(form, Title) == "Title" + " is too short"
    ensures form.description == [] ==> FieldError(form, Description) == "Description" + " is required"
    ensures 0 < |form.description| < 10 ==> FieldError(form, Description) == "Description" + " is too short"
  {
    if form.title == [] || |form.title| < 2 {
      CapitalisedName("title", "Title");
    }
    if form.description == [] || |form.description| < 10 {
      CapitalisedName("description", "Description");
    }
  }

  /** The text under a number control: an empty one names itself capitalised, and a value
      out of range states the bound it broke. */
  lemma NumberControlErrors(form: MovieForm)
    ensures form.duration.None? ==> FieldError(form, Duration) == "Duration" + " is required"
    ensures form.duration.Some? && form.duration.value < 1.0 ==>
              FieldError(form, Duration) == "Value must be greater than " + "1"
    ensures form.rating.None? ==> FieldError(form, Rating) == "Rating" + " is required"
    ensures form.rating.Some? && form.rating.value < 0.0 ==>
              FieldError(form, Rating) == "Value must be greater than " + "0"
    ensures form.rating.Some? && form.rating.value > 10.0 ==>
              FieldError(form, Rating) == "Value must be less than " + "10"
  {
    BoundTexts();
    if form.duration.None? {
      CapitalisedName("duration", "Duration");
    }
    if form.rating.None? {
      CapitalisedName("rating", "Rating");
    }
  }

  /** The text under the other controls: the required ones name themselves capitalised when
      empty, and the optional URLs never show a text. */
  lemma RequiredControlErrors(form: MovieForm)
    ensures form.genre == [] ==> FieldError(form, Genre) == "Genre" + " is required"
    ensures form.language == [] ==> FieldError(form, Language) == "Language" + " is required"
    ensures form.releaseDate == [] ==> FieldError(form, ReleaseDate) == "ReleaseDate" + " is required"
    ensures FieldError(form, PosterUrl) == "" && FieldError(form, TrailerUrl) == ""
  {
    if form.genre == [] {
      CapitalisedName("genre", "Genre");
    }
    if form.language == [] {
      CapitalisedName("language", "Language");
    }
    if form.releaseDate == [] {
      CapitalisedName("releaseDate", "ReleaseDate");
    }
  }

  /** `name` with its first letter upper-cased is `shown`. */
  lemma CapitalisedName(name: string, shown: string)
    requires |name| == |shown| > 0 && 'a' <= name[0] <= 'z'
    requires shown[0] as int == name[0] as int - 32 && shown[1..] == name[1..]
    ensures Capitalised(name) == shown
  {
    assert shown == [shown[0]] + shown[1..];
  }

  /** The bounds as the range texts print them. */
  lemma BoundTexts()
    ensures NatToString(0) == "0" && NatToString(1) == "1" && NatToString(10) == "10"
  {
    assert NatToString(1) == "1";
  }

  /** An empty required control names itself, capitalised. */
  lemma RequiredText()
    ensures FieldError(InitialForm, Title) == "Title is required"
    ensures FieldError(InitialForm, Language) == ""
  {
  }

  /** A short title and an out-of-range rating. */
  lemma RangeTexts()
    ensures FieldError(InitialForm.(title := "A"), Title) == "Title is too short"
    ensures FieldError(InitialForm.(rating := Some(11.0)), Rating) == "Value must be less than 10"
  {
    assert NatToString(10) == "10" by {
      assert NatToString(1) == "1";
    }
  }

  /** Every control appears in the list the submit walks. */
  lemma EveryFieldListed(f: Field)
    ensures f in AllFields
  {
    match f
    case Title => assert AllFields[0] == f;
    case Description => assert AllFields[1] == f;
    case Duration => assert AllFields[2] == f;
    case Rating => assert AllFields[3] == f;
    case Genre => assert AllFields[4] == f;
    case Language => assert AllFields[5] == f;
    case ReleaseDate => assert AllFields[6] == f;
    case PosterUrl => assert AllFields[7] == f;
    case TrailerUrl => assert AllFields[8] == f;
  }

  function PageTitle(isEditMode: bool): (t: string)
    ensures t == "Edit Movie" <==> isEditMode
  {
    if isEditMode then "Edit Movie" else "Add New Movie"
  }

  function SubmitButtonText(isEditMode: bool): (t: string)
    ensures t == "Update Movie" <==> isEditMode
  {
    if isEditMode then "Update Movie" else "Add Movie"
  }

  /** The `movieData` record sent to the server. */
  datatype MovieData = MovieData(
    title: string, description: string, duration: int, rating: real, genre: seq<string>,
    language: string, releaseDate: string, posterUrl: Option<string>, trailerUrl: Option<string>,
    isActive: bool)

  /** `x || undefined`. */
  function Defined(s: string): Option<string>
  {
    if s == [] then None else Some(s)
  }

  /** The record for a valid form; `parseInt` of a duration of at least 1 is its floor. */
  function MovieDataOf(form: MovieForm): (d: MovieData)
    requires FormValid(form)
    ensures d.isActive && d.duration >= 1 && 0.0 <= d.rating <= 10.0
    ensures d.genre == ParseGenres(form.genre)
  {
    FormRules(form);
    MovieData(form.title, form.description, form.duration.value.Floor, form.rating.value,
              ParseGenres(form.genre), form.language, form.releaseDate,
              Defined(form.posterUrl), Defined(form.trailerUrl), true)
  }

  /** The form the edit page shows for a stored movie and its release-date text. */
  function EditForm(m: Movies.Movie, releaseDate: string): MovieForm
  {
    MovieForm(m.title, m.description, Some(m.duration as real), Some(m.rating),
              GenreText(m.genre), if m.language == [] then "English" else m.language,
              releaseDate, m.posterUrl, m.trailerUrl)
  }

  /** Editing a movie whose genres are good and saving it sends its genres unchanged. */
  lemma EditKeepsGenres(m: Movies.Movie, releaseDate: string)
    requires forall g :: g in m.genre ==> GoodGenre(g)
    ensures ParseGenres(EditForm(m, releaseDate).genre) == m.genre
  {
    GenreRoundTrip(m.genre);
  }

  /** Saving an edit form that shows a stored movie unchanged sends the movie back as it was
      stored: the same texts, number values, genres, poster and trailer, with the release
      date text passed in and an empty language shown as English. */
  lemma UnchangedEditResends(m: Movies.Movie, releaseDate: string)
    requires FormValid(EditForm(m, releaseDate))
    requires forall g :: g in m.genre ==> GoodGenre(g)
    ensures var d := MovieDataOf(EditForm(m, releaseDate));
            && d.title == m.title && d.description == m.description
            && d.duration == m.duration && d.rating == m.rating && d.genre == m.genre
            && d.language == (if m.language == [] then "English" else m.language)
            && d.releaseDate == releaseDate
            && d.posterUrl == Defined(m.posterUrl) && d.trailerUrl == Defined(m.trailerUrl)
            && (m.trailerUrl != [] ==> d.trailerUrl == Some(m.trailerUrl))
  {
    EditKeepsGenres(m, releaseDate);
  }

  /** What a submit asks of the movie service. */
  datatype MovieRequest = UpdateMovie(id: string, data: MovieData) | AddMovie(data: MovieData)

  const InvalidFormMessage := "Please fill all required fields correctly"

  class AddMovieComponent {
    var form: MovieForm
    var touched: set<Field>
    var isEditMode: bool
    var editingMovieId: Option<string>
    var submitting: bool

    constructor ()
      ensures form == InitialForm && touched == {} && !isEditMode && editingMovieId.None? && !submitting
    {
      form := InitialForm;
      touched := {};
      isEditMode := false;
      editingMovieId := None;
      submitting := false;
    }

    /** The `edit` query parameter switches to edit mode for that id. */
    method OnEditParam(id: string)
      modifies this
      requires id != []
      ensures isEditMode && editingMovieId == Some(id)
      ensures form == old(form) && touched == old(touched) && submitting == old(submitting)
    {
      isEditMode := true;
      editingMovieId := Some(id);
    }

    /** `loadMovieForEdit`'s reply: the form shows the stored movie. */
    method LoadMovieForEdit(m: Movies.Movie, releaseDate: string)
      modifies this
      ensures form == EditForm(m, releaseDate)
      ensures touched == old(touched) && isEditMode == old(isEditMode)
      ensures editingMovieId == old(editingMovieId) && submitting == old(submitting)
    {
      form := EditForm(m, releaseDate);
    }

    /** The user typing into the form. */
    method SetForm(f: MovieForm)
      modifies this
      ensures form == f
      ensures touched == old(touched) && isEditMode == old(isEditMode)
      ensures editingMovieId == old(editingMovieId) && submitting == old(submitting)
    {
      form := f;
    }

    /** `onSubmit`: a valid form becomes an update of the edited movie or an addition; an
        invalid one marks every control touched, raises one error alert and sends nothing. */
    method OnSubmit(alerts: Alerts.AlertService, now: nat) returns (request: Option<MovieRequest>)
      modifies this, alerts
      ensures request.Some? <==> FormValid(old(form))
      ensures request.Some? ==>
                submitting && touched == old(touched) && alerts.alerts == old(alerts.alerts) &&
                request.value.data == MovieDataOf(old(form)) &&
                (request.value.UpdateMovie? <==> old(isEditMode) && old(editingMovieId).Some? && old(editingMovieId).value != []) &&
                (request.value.UpdateMovie? ==> request.value.id == old(editingMovieId).value)
      ensures request.None? ==>
                submitting == old(submitting) &&
                (forall f :: f in touched) &&
                alerts.alerts == old(alerts.alerts) + [Alerts.NewAlert(Alerts.Error, InvalidFormMessage, false, now)]
      ensures form == old(form) && isEditMode == old(isEditMode) && editingMovieId == old(editingMovieId)
    {
      if FormValid(form) {
        submitting := true;
        var data := MovieDataOf(form);
        if isEditMode && editingMovieId.Some? && editingMovieId.value != [] {
          request := Some(UpdateMovie(editingMovieId.value, data));
        } else {
          request := Some(AddMovie(data));
        }
      } else {
        var i := 0;
        while i < |AllFields|
          invariant 0 <= i <= |AllFields|
          invariant forall j :: 0 <= j < i ==> AllFields[j] in touched
          invariant form == old(form) && submitting == old(submitting)
          invariant isEditMode == old(isEditMode) && editingMovieId == old(editingMovieId)
          invariant alerts.alerts == old(alerts.alerts)
        {
          touched := touched + {AllFields[i]};
          i := i + 1;
        }
        forall f: Field
          ensures f in touched
        {
          EveryFieldListed(f);
        }
        var _ := alerts.Error(InvalidFormMessage, now);
        request := None;
      }
    }
  }
}
