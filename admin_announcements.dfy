/** The administrator's announcement list: create, edit, delete and switch
    announcements on and off. Dates are kept as millisecond timestamps. */
module AdminAnnouncements {
  import opened Seqs
  import opened Text

  datatype Announcement = Announcement(
    id: string, message: string, url: Option<string>, isActive: bool, startDate: int, endDate: int)

  /** The create form. */
  datatype Draft = Draft(message: string, url: Option<string>, isActive: bool, startDate: int, endDate: int)

  /** The form as it opens and is reset: active, running from now for a month. */
  function BlankDraft(now: int, monthLater: int): Draft {
    Draft("", Some(""), true, now, monthLater)
  }

  /** `ann-${Date.now()}`. */
  function AnnouncementId(stamp: nat): string {
    "ann-" + NatToString(stamp)
  }

  /** Creations at different instants get different ids. */
  lemma AnnouncementIdsDiffer(s: nat, t: nat)
    requires s != t
    ensures AnnouncementId(s) != AnnouncementId(t)
  {
    NatToStringInjective(s, t);
    var a, b := AnnouncementId(s), AnnouncementId(t);
    assert a[4..] == NatToString(s) && b[4..] == NatToString(t);
  }

  function Created(d: Draft, stamp: nat): (a: Announcement)
    ensures a.id == AnnouncementId(stamp) && a.message == d.message && a.url == d.url
    ensures a.isActive == d.isActive && a.startDate == d.startDate && a.endDate == d.endDate
  {
    Announcement(AnnouncementId(stamp), d.message, d.url, d.isActive, d.startDate, d.endDate)
  }

  function IdIs(id: string): Announcement -> bool { (a: Announcement) => a.id == id }
  function IdIsNot(id: string): Announcement -> bool { (a: Announcement) => a.id != id }
  function Flip(): Announcement -> Announcement { (a: Announcement) => a.(isActive := !a.isActive) }
  function Becomes(b: Announcement): Announcement -> Announcement { (_: Announcement) => b }

  /** `toggleStatus`: every announcement with the id switches state. */
  function Toggled(list: seq<Announcement>, id: string): (r: seq<Announcement>)
    ensures |r| == |list|
    ensures forall i :: 0 <= i < |r| && list[i].id == id ==> r[i] == list[i].(isActive := !list[i].isActive)
    ensures forall i :: 0 <= i < |r| && list[i].id != id ==> r[i] == list[i]
  {
    MapWhere(list, IdIs(id), Flip())
  }

  /** Switching twice restores the list. */
  lemma ToggleTwice(list: seq<Announcement>, id: string)
    ensures Toggled(Toggled(list, id), id) == list
  {
    var once := Toggled(list, id);
    var twice := Toggled(once, id);
    assert forall i :: 0 <= i < |list| ==> twice[i] == list[i];
  }

  /** `handleUpdate`: the announcements with the edited one's id become it. */
  function Updated(list: seq<Announcement>, edited: Announcement): (r: seq<Announcement>)
    ensures |r| == |list|
    ensures forall i :: 0 <= i < |r| && list[i].id == edited.id ==> r[i] == edited
    ensures forall i :: 0 <= i < |r| && list[i].id != edited.id ==> r[i] == list[i]
  {
    MapWhere(list, IdIs(edited.id), Becomes(edited))
  }

  /** `handleDelete`. */
  function Deleted(list: seq<Announcement>, id: string): (r: seq<Announcement>)
    ensures forall a :: a in r <==> a in list && a.id != id
    ensures forall a :: multiset(r)[a] == if a.id != id then multiset(list)[a] else 0
    ensures |r| <= |list|
  {
    Filter(list, IdIsNot(id))
  }

  /** The state the toast reports after a switch: that of the first
      announcement with the id, and "deactivated" when there is none. */
  function ActiveAfter(list: seq<Announcement>, id: string): (r: bool)
    ensures r <==> exists i :: 0 <= i < |list| && list[i].id == id && list[i].isActive &&
                              forall j :: 0 <= j < i ==> list[j].id != id
  {
    if list == [] then false
    else if list[0].id == id then list[0].isActive
    else
      var r := ActiveAfter(list[1..], id);
      assert r ==> exists i :: 0 <= i < |list| && list[i].id == id && list[i].isActive &&
                              forall j :: 0 <= j < i ==> list[j].id != id by {
        if r {
          var i :| 0 <= i < |list[1..]| && list[1..][i].id == id && list[1..][i].isActive &&
                   forall j :: 0 <= j < i ==> list[1..][j].id != id;
          assert forall j :: 0 <= j < i + 1 ==> list[j].id != id by {
            forall j | 0 <= j < i + 1 ensures list[j].id != id {
              if j > 0 { assert list[j] == list[1..][j - 1]; }
            }
          }
        }
      }
      assert (exists i :: 0 <= i < |list| && list[i].id == id && list[i].isActive &&
                          forall j :: 0 <= j < i ==> list[j].id != id) ==> r by {
        if exists i :: 0 <= i < |list| && list[i].id == id && list[i].isActive &&
                       forall j :: 0 <= j < i ==> list[j].id != id {
          var i :| 0 <= i < |list| && list[i].id == id && list[i].isActive &&
                   forall j :: 0 <= j < i ==> list[j].id != id;
          assert i > 0;
          assert list[1..][i - 1] == list[i];
          assert forall j :: 0 <= j < i - 1 ==> list[1..][j].id != id by {
            forall j | 0 <= j < i - 1 ensures list[1..][j].id != id {
              assert list[1..][j] == list[j + 1];
            }
          }
        }
      }
      r
  }

  class Board {
    var list: seq<Announcement>
    var draft: Draft
    var editing: Option<Announcement>

    constructor (initial: seq<Announcement>, now: int, monthLater: int)
      ensures list == initial && draft == BlankDraft(now, monthLater) && editing == None
    {
      list := initial;
      draft := BlankDraft(now, monthLater);
      editing := None;
    }

    method EditDraft(d: Draft)
      modifies this`draft
      ensures draft == d
    {
      draft := d;
    }

    /** `handleCreate`, given the clock: disabled for an empty message;
        otherwise the announcement is appended and the form reset. */
    method Create(stamp: nat, now: int, monthLater: int)
      modifies this`list, this`draft
      ensures old(draft).message == "" ==> list == old(list) && draft == old(draft)
      ensures old(draft).message != "" ==>
        list == old(list) + [Created(old(draft), stamp)] && draft == BlankDraft(now, monthLater)
    {
      if draft.message == "" {
        return;
      }
      list := list + [Created(draft, stamp)];
      draft := BlankDraft(now, monthLater);
    }

    /** The pencil button, the edit form's inputs and its Cancel button. */
    method SetEditing(a: Option<Announcement>)
      modifies this`editing
      ensures editing == a
    {
      editing := a;
    }

    /** `handleUpdate`: nothing without an announcement being edited, and the
        button is disabled while its message is empty. */
    method SaveEdit()
      modifies this`list, this`editing
      ensures old(editing).None? || old(editing).value.message == "" ==>
        list == old(list) && editing == old(editing)
      ensures old(editing).Some? && old(editing).value.message != "" ==>
        list == Updated(old(list), old(editing).value) && editing == None
    {
      if editing.None? || editing.value.message == "" {
        return;
      }
      list := Updated(list, editing.value);
      editing := None;
    }

    method Delete(id: string)
      modifies this`list
      ensures list == Deleted(old(list), id)
    {
      list := Deleted(list, id);
    }

    /** `toggleStatus`: returns whether the toast says "activated". */
    method Toggle(id: string) returns (activated: bool)
      modifies this`list
      ensures list == Toggled(old(list), id)
      ensures activated == ActiveAfter(list, id)
    {
      list := Toggled(list, id);
      activated := ActiveAfter(list, id);
    }
  }
}
