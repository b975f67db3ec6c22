/** The admin theatre list: a form that either edits an existing theatre in place or appends a
    new one, and a per-theatre active switch. The list is held in memory; the clock reading
    that becomes a new theatre's id is a parameter. */
module ManageTheatres {
  import opened Collections

  datatype Theatre = Theatre(
    id: int, name: string, location: string, address: string, totalScreens: int,
    isActive: bool, imageUrl: Option<string>)

  /** The form's four controls. A reset control holds `null`; for the three text controls
      that is written `""`, since `required` rejects both alike. */
  datatype TheatreForm = TheatreForm(name: string, location: string, address: string, totalScreens: Option<int>)

  /** The controls as the form builder creates them. */
  const InitialForm := TheatreForm("", "", "", Some(1))

  /** The controls after `reset()`. */
  const ResetForm := TheatreForm("", "", "", None)

  /** `required` on every control, and `min(1)` on the screen count. */
  predicate FormValid(f: TheatreForm)
  {
    f.name != [] && f.location != [] && f.address != [] && f.totalScreens.Some? && f.totalScreens.value >= 1
  }

  /** `patchValue(theatre)`: the controls take the theatre's fields of the same name. */
  function FormOf(t: Theatre): TheatreForm
  {
    TheatreForm(t.name, t.location, t.address, Some(t.totalScreens))
  }

  const InitialTheatres: seq<Theatre> := [
    Theatre(1, "PVR Cinemas", "Mumbai", "Phoenix Mall, Mumbai", 8, true, Some("assets/images/theaters/PVR.png")),
    Theatre(2, "INOX", "Delhi", "Select City Walk, Delhi", 6, true, Some("assets/images/theaters/inox.png")),
    Theatre(3, "Cinepolis", "Bangalore", "Forum Mall, Bangalore", 5, false, Some("assets/images/theaters/cinepolis.png"))
  ]

  /** `findIndex(t => t.id === id)`: the first position holding that id, if any. */
  function FindIndex(ts: seq<Theatre>, id: int): (k: Option<nat>)
    ensures k.Some? ==> k.value < |ts| && ts[k.value].id == id
    ensures k.Some? ==> forall j :: 0 <= j < k.value ==> ts[j].id != id
    ensures k.None? <==> forall j :: 0 <= j < |ts| ==> ts[j].id != id
  {
    if ts == [] then None
    else if ts[0].id == id then Some(0)
    else
      match FindIndex(ts[1..], id)
      case None => None
      case Some(k) => Some(k + 1)
  }

  /** `{ ...editingTheatre, ...formData }` on a valid form: the id, status and image stay,
      the four form fields are replaced. */
  function Merged(base: Theatre, f: TheatreForm): Theatre
    requires FormValid(f)
  {
    Theatre(base.id, f.name, f.location, f.address, f.totalScreens.value, base.isActive, base.imageUrl)
  }

  /** `{ id: Date.now(), ...formData, isActive: true }`: a new theatre has no image. */
  function NewTheatre(f: TheatreForm, now: int): Theatre
    requires FormValid(f)
  {
    Theatre(now, f.name, f.location, f.address, f.totalScreens.value, true, None)
  }

  /** The list after `onSubmit`, given the edited theatre's current value (`None` when
      adding). An edit writes the first entry carrying the edited id; when no entry carries
      it, the write lands on index -1, which is not an element, and the list is unchanged. */
  function Submitted(ts: seq<Theatre>, editing: Option<Theatre>, f: TheatreForm, now: int): seq<Theatre>
  {
    if !FormValid(f) then ts
    else if editing.None? then ts + [NewTheatre(f, now)]
    else
      match FindIndex(ts, editing.value.id)
      case None => ts
      case Some(k) => ts[k := Merged(editing.value, f)]
  }

  /** `toggleStatus`: only that theatre's active flag flips. */
  function Toggled(ts: seq<Theatre>, i: nat): (r: seq<Theatre>)
    requires i < |ts|
  {
    ts[i := ts[i].(isActive := !ts[i].isActive)]
  }

  function IdsOf(ts: seq<Theatre>): (ids: seq<int>)
    ensures |ids| == |ts|
    ensures forall i :: 0 <= i < |ts| ==> ids[i] == ts[i].id
  {
    if ts == [] then [] else [ts[0].id] + IdsOf(ts[1..])
  }

  predicate DistinctIds(ts: seq<Theatre>)
  {
    forall i, j :: 0 <= i < j < |ts| ==> ts[i].id != ts[j].id
  }

  /** An invalid form leaves the list as it was, whether adding or editing. */
  lemma InvalidSubmitKeepsList(ts: seq<Theatre>, editing: Option<Theatre>, f: TheatreForm, now: int)
    requires !FormValid(f)
    ensures Submitted(ts, editing, f, now) == ts
  {
  }

  /** A valid add appends exactly one active theatre, stamped with the clock, carrying the
      form's values. */
  lemma AddAppendsActiveTheatre(ts: seq<Theatre>, f: TheatreForm, now: int)
    requires FormValid(f)
    ensures var r := Submitted(ts, None, f, now);
            |r| == |ts| + 1 && r[..|ts|] == ts &&
            r[|ts|].isActive && r[|ts|].id == now && FormOf(r[|ts|]) == f
  {
  }

  /** A valid edit of a listed theatre keeps the length and the ids. It rewrites exactly one
      entry, the first one with the edited id, which takes the form's values and keeps its id,
      status and image from the edited theatre. */
  lemma EditRewritesFirstMatch(ts: seq<Theatre>, e: nat, f: TheatreForm, now: int)
    requires e < |ts| && FormValid(f)
    ensures var r := Submitted(ts, Some(ts[e]), f, now);
            var k := FindIndex(ts, ts[e].id);
            k.Some? && k.value <= e &&
            |r| == |ts| && IdsOf(r) == IdsOf(ts) &&
            FormOf(r[k.value]) == f &&
            r[k.value].isActive == ts[e].isActive && r[k.value].imageUrl == ts[e].imageUrl &&
            (forall j :: 0 <= j < |ts| && j != k.value ==> r[j] == ts[j])
  {
    var k := FindIndex(ts, ts[e].id);
    assert k.Some?;
    var r := Submitted(ts, Some(ts[e]), f, now);
    assert r == ts[k.value := Merged(ts[e], f)];
    assert IdsOf(r) == IdsOf(ts) by {
      assert forall j :: 0 <= j < |ts| ==> IdsOf(r)[j] == IdsOf(ts)[j];
    }
  }

  /** With distinct ids, the entry an edit rewrites is the edited entry itself. */
  lemma DistinctEditRewritesEdited(ts: seq<Theatre>, e: nat, f: TheatreForm, now: int)
    requires e < |ts| && FormValid(f) && DistinctIds(ts)
    ensures Submitted(ts, Some(ts[e]), f, now) == ts[e := Merged(ts[e], f)]
  {
    var k := FindIndex(ts, ts[e].id);
    EditRewritesFirstMatch(ts, e, f, now);
    assert k.value == e;
  }

  /** Distinct ids stay distinct through an edit, and through an add whose clock reading is
      not already an id. */
  lemma SubmitKeepsIdsDistinct(ts: seq<Theatre>, editing: Option<Theatre>, f: TheatreForm, now: int)
    requires DistinctIds(ts)
    requires editing.Some? ==> editing.value in ts
    requires editing.None? ==> now !in IdsOf(ts)
    ensures DistinctIds(Submitted(ts, editing, f, now))
  {
    if FormValid(f) {
      if editing.Some? {
        var e :| 0 <= e < |ts| && ts[e] == editing.value;
        EditRewritesFirstMatch(ts, e, f, now);
        var r := Submitted(ts, editing, f, now);
        assert forall i :: 0 <= i < |r| ==> r[i].id == IdsOf(ts)[i];
      } else {
        var r := Submitted(ts, editing, f, now);
        assert forall i :: 0 <= i < |ts| ==> r[i].id == IdsOf(ts)[i];
      }
    }
  }

  /** Toggling flips one flag and keeps everything else, and toggling twice restores the list. */
  lemma ToggleFlipsOnlyOne(ts: seq<Theatre>, i: nat)
    requires i < |ts|
    ensures var r := Toggled(ts, i);
            |r| == |ts| && r[i].isActive == !ts[i].isActive &&
            r[i] == ts[i].(isActive := r[i].isActive) &&
            (forall j :: 0 <= j < |ts| && j != i ==> r[j] == ts[j])
    ensures Toggled(Toggled(ts, i), i) == ts
  {
  }

  class ManageTheatresComponent {
    var theatres: seq<Theatre>
    var form: TheatreForm
    var showForm: bool
    /** The position of the theatre `editingTheatre` refers to, or `None` when adding. */
    var editing: Option<nat>

    predicate Valid()
      reads this
    {
      editing.Some? ==> editing.value < |theatres|
    }

    /** Construction followed by `ngOnInit`, which loads the three sample theatres. */
    constructor ()
      ensures Valid()
      ensures theatres == InitialTheatres && form == InitialForm && !showForm && editing.None?
    {
      theatres := InitialTheatres;
      form := InitialForm;
      showForm := false;
      editing := None;
    }

    /** `addTheatre`: an empty form in add mode. */
    method AddTheatre()
      modifies this
      ensures showForm && editing.None? && form == ResetForm && theatres == old(theatres)
      ensures Valid()
    {
      showForm := true;
      editing := None;
      form := ResetForm;
    }

    /** `editTheatre`: the form shows the chosen theatre's values. */
    method EditTheatre(i: nat)
      requires i < |theatres|
      modifies this
      ensures theatres == old(theatres) && showForm && editing == Some(i) && form == FormOf(theatres[i])
      ensures Valid()
    {
      showForm := true;
      editing := Some(i);
      form := FormOf(theatres[i]);
    }

    /** The user typing into the form. */
    method SetForm(f: TheatreForm)
      modifies this
      requires Valid()
      ensures form == f && theatres == old(theatres) && showForm == old(showForm) && editing == old(editing)
      ensures Valid()
    {
      form := f;
    }

    /** `onSubmit`: nothing happens on an invalid form; otherwise the list is updated, and
        the form is hidden and reset. The edit reference is kept. */
    method OnSubmit(now: int)
      requires Valid()
      modifies this
      ensures var base := if old(editing).Some? then Some(old(theatres)[old(editing).value]) else None;
              theatres == Submitted(old(theatres), base, old(form), now)
      ensures FormValid(old(form)) ==> !showForm && form == ResetForm
      ensures !FormValid(old(form)) ==> showForm == old(showForm) && form == old(form)
      ensures editing == old(editing)
      ensures Valid()
    {
      if FormValid(form) {
        if editing.Some? {
          var base := theatres[editing.value];
          var k := FindIndex(theatres, base.id);
          if k.Some? {
            theatres := theatres[k.value := Merged(base, form)];
          }
        } else {
          theatres := theatres + [NewTheatre(form, now)];
        }
        showForm := false;
        form := ResetForm;
      }
    }

    method ToggleStatus(i: nat)
      requires i < |theatres|
      requires Valid()
      modifies this
      ensures theatres == Toggled(old(theatres), i)
      ensures form == old(form) && showForm == old(showForm) && editing == old(editing)
      ensures Valid()
    {
      theatres := theatres[i := theatres[i].(isActive := !theatres[i].isActive)];
    }

    /** `cancelForm`: hides and resets the form, keeping the list and the edit reference. */
    method CancelForm()
      requires Valid()
      modifies this
      ensures !showForm && form == ResetForm && theatres == old(theatres) && editing == old(editing)
      ensures Valid()
    {
      showForm := false;
      form := ResetForm;
    }
  }
}
