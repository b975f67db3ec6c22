/** The user profile page's favourite genres, toggled on and off in place, and the password
    form's check that the new password was typed the same way twice. The simulated server
    delay is split into the call and a separate completion step. */
module Profile {
  import opened Text
  import opened Alerts

  const AvailableGenres: seq<string> := ["Action", "Comedy", "Drama", "Horror", "Romance", "Sci-Fi", "Thriller"]
  const InitialFavourites: seq<string> := ["Action", "Sci-Fi"]

  /** `s.indexOf(x)`: the first position holding `x`, or -1. */
  function IndexOf<T(==)>(s: seq<T>, x: T): (r: int)
    ensures -1 <= r < |s|
    ensures r == -1 <==> x !in s
    ensures r >= 0 ==> s[r] == x && x !in s[..r]
  {
    if s == [] then -1
    else if s[0] == x then 0
    else
      var k := IndexOf(s[1..], x);
      assert k >= 0 ==> s[1..][..k] == s[1..k + 1];
      if k == -1 then -1 else k + 1
  }

  /** `toggleGenre` on a list of genres: splice out the first occurrence, or push. */
  function Toggled(s: seq<string>, genre: string): (r: seq<string>)
    ensures |r| == if genre in s then |s| - 1 else |s| + 1
  {
    var index := IndexOf(s, genre);
    if index > -1 then s[..index] + s[index + 1..] else s + [genre]
  }

  /** No genre is listed twice. */
  predicate NoDuplicates(s: seq<string>)
  {
    forall i, j :: 0 <= i < j < |s| ==> s[i] != s[j]
  }

  /** An absent genre is added at the end. */
  lemma ToggleAbsentAppends(s: seq<string>, genre: string)
    requires genre !in s
    ensures Toggled(s, genre) == s + [genre]
    ensures genre in Toggled(s, genre)
  {
  }

  /** A present genre loses exactly its first occurrence: the genres before it and after it
      stay, in order, and one copy of it is gone. */
  lemma TogglePresentRemovesFirst(s: seq<string>, genre: string)
    requires genre in s
    ensures exists k :: 0 <= k < |s| && s[k] == genre && genre !in s[..k] &&
                        Toggled(s, genre) == s[..k] + s[k + 1..]
    ensures multiset(Toggled(s, genre)) == multiset(s) - multiset{genre}
  {
    var k := IndexOf(s, genre);
    assert s == s[..k] + [s[k]] + s[k + 1..];
  }

  /** Toggling changes no other genre's membership. */
  lemma ToggleKeepsOthers(s: seq<string>, genre: string, other: string)
    requires other != genre
    ensures other in Toggled(s, genre) <==> other in s
  {
    var k := IndexOf(s, genre);
    if k > -1 {
      assert s == s[..k] + [s[k]] + s[k + 1..];
    }
  }

  /** On a list without duplicates a toggle flips the genre's membership and keeps the
      list free of duplicates. */
  lemma ToggleFlips(s: seq<string>, genre: string)
    requires NoDuplicates(s)
    ensures genre in Toggled(s, genre) <==> genre !in s
    ensures NoDuplicates(Toggled(s, genre))
  {
    var k := IndexOf(s, genre);
    if k > -1 {
      var r := s[..k] + s[k + 1..];
      assert forall i :: 0 <= i < |r| ==> r[i] == (if i < k then s[i] else s[i + 1]);
      assert genre !in r by {
        forall i | 0 <= i < |r|
          ensures r[i] != genre
        {
          if i >= k {
            assert s[k] != s[i + 1];
          }
        }
      }
    }
  }

  /** Toggling the same genre twice restores its membership, and restores the list itself
      when the genre was absent. */
  lemma ToggleTwice(s: seq<string>, genre: string)
    requires NoDuplicates(s)
    ensures genre in Toggled(Toggled(s, genre), genre) <==> genre in s
    ensures genre !in s ==> Toggled(Toggled(s, genre), genre) == s
  {
    ToggleFlips(s, genre);
    ToggleFlips(Toggled(s, genre), genre);
    if genre !in s {
      var t := s + [genre];
      assert IndexOf(t, genre) == |s| by {
        assert t[|s|] == genre && t[..|s|] == s;
      }
      assert t[..|s|] + t[|s| + 1..] == s;
    }
  }

  /** The initial favourites are distinct and all offered on the page. */
  lemma InitialFavouritesAreOffered()
    ensures NoDuplicates(InitialFavourites)
    ensures forall g :: g in InitialFavourites ==> g in AvailableGenres
  {
    assert InitialFavourites[0] == AvailableGenres[0] && InitialFavourites[1] == AvailableGenres[5];
  }

  /** The password form; `reset()` leaves nulls, which the validators treat like `""`. */
  datatype PasswordForm = PasswordForm(currentPassword: string, newPassword: string, confirmPassword: string)

  const EmptyPasswordForm := PasswordForm("", "", "")

  /** Every control is required, and the new password has at least 6 characters. */
  predicate PasswordFormValid(f: PasswordForm)
  {
    f.currentPassword != [] && f.newPassword != [] && |f.newPassword| >= 6 && f.confirmPassword != []
  }

  /** What `changePassword` does with a form. */
  datatype PasswordOutcome = Ignored | Mismatch | Pending

  function PasswordCheck(f: PasswordForm): (o: PasswordOutcome)
    ensures o == Ignored <==> !PasswordFormValid(f)
    ensures o == Mismatch <==> PasswordFormValid(f) && f.newPassword != f.confirmPassword
    ensures o == Pending ==> |f.confirmPassword| >= 6
  {
    if !PasswordFormValid(f) then Ignored
    else if f.newPassword != f.confirmPassword then Mismatch
    else Pending
  }

  const MismatchMessage := "Passwords do not match!"
  const PasswordChangedMessage := "Password changed successfully!"

  class ProfileComponent {
    var favoriteGenres: seq<string>
    var passwordForm: PasswordForm
    var loading: bool

    constructor ()
      ensures favoriteGenres == InitialFavourites && passwordForm == EmptyPasswordForm && !loading
    {
      favoriteGenres := InitialFavourites;
      passwordForm := EmptyPasswordForm;
      loading := false;
    }

    /** `isGenreSelected`, as the toggle sees it: selected exactly when `indexOf` finds it. */
    function IsGenreSelected(genre: string): (selected: bool)
      reads this
      ensures selected <==> IndexOf(favoriteGenres, genre) > -1
    {
      genre in favoriteGenres
    }

    /** `toggleGenre`: the list is changed in place, and a list without duplicates keeps
        none and has the genre's selection flipped. */
    method ToggleGenre(genre: string)
      modifies this
      ensures favoriteGenres == Toggled(old(favoriteGenres), genre)
      ensures NoDuplicates(old(favoriteGenres)) ==>
                NoDuplicates(favoriteGenres) && (IsGenreSelected(genre) <==> !old(IsGenreSelected(genre)))
      ensures passwordForm == old(passwordForm) && loading == old(loading)
    {
      var index := IndexOf(favoriteGenres, genre);
      if index > -1 {
        favoriteGenres := favoriteGenres[..index] + favoriteGenres[index + 1..];
      } else {
        favoriteGenres := favoriteGenres + [genre];
      }
      if NoDuplicates(old(favoriteGenres)) {
        ToggleFlips(old(favoriteGenres), genre);
      }
    }

    method SetPasswordForm(f: PasswordForm)
      modifies this
      ensures passwordForm == f && favoriteGenres == old(favoriteGenres) && loading == old(loading)
    {
      passwordForm := f;
    }

    /** `changePassword`: an invalid form is ignored; different new and confirmed passwords
        raise an error alert and leave `loading` as it was; otherwise the change starts. */
    method ChangePassword(alerts: AlertService, now: nat) returns (outcome: PasswordOutcome)
      modifies this, alerts
      ensures outcome == PasswordCheck(old(passwordForm))
      ensures outcome == Mismatch ==>
                alerts.alerts == old(alerts.alerts) + [Alert(NatToString(now), AlertType.Error, MismatchMessage, false)]
      ensures outcome != Mismatch ==> alerts.alerts == old(alerts.alerts)
      ensures loading == (if outcome == Pending then true else old(loading))
      ensures passwordForm == old(passwordForm) && favoriteGenres == old(favoriteGenres)
    {
      outcome := PasswordCheck(passwordForm);
      if outcome == Mismatch {
        var _ := alerts.Error(MismatchMessage, now);
      } else if outcome == Pending {
        loading := true;
      }
    }

    /** The simulated call completes: a success alert, the form reset, `loading` cleared. */
    method PasswordChangeCompleted(alerts: AlertService, now: nat)
      modifies this, alerts
      ensures alerts.alerts == old(alerts.alerts) + [Alert(NatToString(now), AlertType.Success, PasswordChangedMessage, true)]
      ensures passwordForm == EmptyPasswordForm && !loading && favoriteGenres == old(favoriteGenres)
      ensures !PasswordFormValid(passwordForm)
    {
      var _ := alerts.Success(PasswordChangedMessage, now);
      passwordForm := EmptyPasswordForm;
      loading := false;
    }
  }
}
