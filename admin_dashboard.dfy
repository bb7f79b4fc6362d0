/** The administrator's roster editor (components/AdminDashboard.tsx): its
    search filter and the edit buffer behind the per-contact edit form. */
module AdminDashboard {
  import opened Types
  import opened Strings
  import opened Seqs

  /** The search predicate: the lower-cased name or the id as stored contains
      the lower-cased term. */
  predicate MatchesAdminSearch(c: Contact, term: string) {
    Includes(ToLower(c.name), ToLower(term)) || Includes(c.id, ToLower(term))
  }

  /** `filteredContacts`. */
  function AdminFiltered(contacts: seq<Contact>, term: string): (r: seq<Contact>)
    ensures |r| <= |contacts|
  {
    Filter((c: Contact) => MatchesAdminSearch(c, term), contacts)
  }

  /** The table shows exactly the matching contacts in roster order; an empty
      term shows the whole roster. */
  lemma AdminSearchProperties(contacts: seq<Contact>, term: string)
    ensures forall c :: c in AdminFiltered(contacts, term) <==> c in contacts && MatchesAdminSearch(c, term)
    ensures IsSubsequence(AdminFiltered(contacts, term), contacts)
    ensures term == "" ==> AdminFiltered(contacts, term) == contacts
  {
    var keep := (c: Contact) => MatchesAdminSearch(c, term);
    forall c ensures c in Filter(keep, contacts) <==> c in contacts && MatchesAdminSearch(c, term) {
      FilterMembership(keep, contacts, c);
    }
    FilterIsSubsequence(keep, contacts);
    if term == "" {
      forall i | 0 <= i < |contacts| ensures keep(contacts[i]) {
        IncludesEmpty(contacts[i].id);
      }
      FilterKeepsAll(keep, contacts);
    }
  }

  /** Unlike the sidebar's search, this one looks at the term only through
      `toLowerCase`, so two terms that lower-case alike select the same rows. */
  lemma {:induction false} AdminSearchIgnoresCase(contacts: seq<Contact>, t: string, t': string)
    requires ToLower(t) == ToLower(t')
    ensures AdminFiltered(contacts, t) == AdminFiltered(contacts, t')
  {
    if contacts != [] {
      AdminSearchIgnoresCase(contacts[1..], t, t');
    }
  }

  /** Every contact shown for a longer term is shown for each of its prefixes. */
  lemma AdminSearchNarrows(contacts: seq<Contact>, t: string, u: string)
    ensures forall c :: c in AdminFiltered(contacts, t + u) ==> c in AdminFiltered(contacts, t)
  {
    var long := (c: Contact) => MatchesAdminSearch(c, t + u);
    var short := (c: Contact) => MatchesAdminSearch(c, t);
    assert ToLower(t + u) == ToLower(t) + ToLower(u);
    forall c | c in Filter(long, contacts) ensures c in Filter(short, contacts) {
      FilterMembership(long, contacts, c);
      FilterMembership(short, contacts, c);
      if Includes(ToLower(c.name), ToLower(t + u)) {
        IncludesPrefix(ToLower(c.name), ToLower(t), ToLower(u));
      } else {
        IncludesPrefix(c.id, ToLower(t), ToLower(u));
      }
    }
  }

  /** The changes `handleSave` passes to `onUpdateContact`: exactly the name and
      the avatar for that id. */
  datatype ContactUpdate = ContactUpdate(id: string, name: string, avatarUrl: string)

  /** `editingId`, `editName` and `editAvatar`. */
  datatype EditBuffer = EditBuffer(editingId: Option<string>, editName: string, editAvatar: string)

  const Closed: EditBuffer := EditBuffer(None, "", "")

  /** `editingId === contact.id`: the row shows its edit form and the save and
      cancel buttons. */
  predicate EditsRow(b: EditBuffer, c: Contact) {
    b.editingId == Some(c.id)
  }

  /** `handleEdit`: the buffer takes the contact's id, name and avatar (an
      absent avatar as the empty string). */
  function StartEdit(b: EditBuffer, c: Contact): (r: EditBuffer)
    ensures r.editingId == Some(c.id) && r.editName == c.name
    ensures r.editAvatar == if Truthy(c.avatarUrl) then c.avatarUrl.value else ""
  {
    EditBuffer(Some(c.id), c.name, OrElse(c.avatarUrl, ""))
  }

  /** `handleSave`: with a (non-empty) id being edited, the update for it and a
      closed form; otherwise nothing at all. */
  function SaveEdit(b: EditBuffer): (r: (EditBuffer, Option<ContactUpdate>))
    ensures r.1.Some? <==> Truthy(b.editingId)
    ensures r.1.Some? ==> r.1.value == ContactUpdate(b.editingId.value, b.editName, b.editAvatar)
    ensures r.1.Some? ==> r.0 == b.(editingId := None)
    ensures r.1.None? ==> r.0 == b
  {
    if Truthy(b.editingId) then (b.(editingId := None), Some(ContactUpdate(b.editingId.value, b.editName, b.editAvatar)))
    else (b, None)
  }

  /** The cancel button: the form closes and nothing is sent. */
  function CancelEdit(b: EditBuffer): (r: EditBuffer)
    ensures r.editingId == None && r.editName == b.editName && r.editAvatar == b.editAvatar
  {
    b.(editingId := None)
  }

  /** `handleFileChange`: a chosen file's data URL replaces the avatar being
      edited; without a file nothing changes. */
  function AvatarChosen(b: EditBuffer, dataUrl: Option<string>): (r: EditBuffer)
    ensures dataUrl.Some? ==> r == b.(editAvatar := dataUrl.value)
    ensures dataUrl.None? ==> r == b
  {
    if dataUrl.Some? then b.(editAvatar := dataUrl.value) else b
  }

  /** Opening a contact and saving at once sends back its own name and avatar. */
  lemma EditThenSaveSendsContact(b: EditBuffer, c: Contact)
    requires c.id != ""
    ensures SaveEdit(StartEdit(b, c)).1 == Some(ContactUpdate(c.id, c.name, OrElse(c.avatarUrl, "")))
  {
  }

  /** After a cancel or a save, saving again sends nothing. */
  lemma NothingAfterClose(b: EditBuffer)
    ensures SaveEdit(CancelEdit(b)).1 == None
    ensures SaveEdit(SaveEdit(b).0).1 == None
  {
  }

  /** A picked picture is what the next save sends. */
  lemma ChosenAvatarIsSaved(b: EditBuffer, c: Contact, dataUrl: string)
    requires c.id != ""
    ensures SaveEdit(AvatarChosen(StartEdit(b, c), Some(dataUrl))).1 ==
            Some(ContactUpdate(c.id, c.name, dataUrl))
  {
  }

  /** The dashboard's search term and edit buffer. */
  /** Which row shows its form: after the edit button exactly the rows of that
      contact's id; after cancel none; after a save of a non-empty id none,
      while a form open for the empty id cannot be saved and stays open;
      picking a file keeps the open form. */
  lemma EditFormFollowsButtons(b: EditBuffer, c: Contact, d: Contact, dataUrl: Option<string>)
    ensures EditsRow(StartEdit(b, c), d) <==> d.id == c.id
    ensures !EditsRow(CancelEdit(b), d)
    ensures Truthy(b.editingId) ==> !EditsRow(SaveEdit(b).0, d)
    ensures !Truthy(b.editingId) ==> (EditsRow(SaveEdit(b).0, d) <==> EditsRow(b, d))
    ensures EditsRow(AvatarChosen(b, dataUrl), d) <==> EditsRow(b, d)
  {
  }

  class AdminEditor {
    var searchTerm: string
    var editingId: Option<string>
    var editName: string
    var editAvatar: string

    constructor ()
      ensures searchTerm == "" && Buffer() == Closed
    {
      searchTerm := "";
      editingId, editName, editAvatar := None, "", "";
    }

    function Buffer(): EditBuffer
      reads this
    {
      EditBuffer(editingId, editName, editAvatar)
    }

    /** The row shows its edit form. */
    predicate IsEditing(c: Contact)
      reads this
    {
      EditsRow(Buffer(), c)
    }

    method Edit(c: Contact)
      modifies this
      ensures Buffer() == StartEdit(old(Buffer()), c) && searchTerm == old(searchTerm)
      ensures forall d: Contact :: IsEditing(d) <==> d.id == c.id
    {
      editingId, editName, editAvatar := Some(c.id), c.name, OrElse(c.avatarUrl, "");
    }

    /** Returns the update handed to `onUpdateContact`, if any. */
    method Save() returns (update: Option<ContactUpdate>)
      modifies this
      ensures (Buffer(), update) == SaveEdit(old(Buffer())) && searchTerm == old(searchTerm)
      ensures update.Some? ==> forall d: Contact :: !IsEditing(d)
    {
      update := None;
      if Truthy(editingId) {
        update := Some(ContactUpdate(editingId.value, editName, editAvatar));
        editingId := None;
      }
    }

    method Cancel()
      modifies this
      ensures Buffer() == CancelEdit(old(Buffer())) && searchTerm == old(searchTerm)
      ensures forall d: Contact :: !IsEditing(d)
    {
      editingId := None;
    }

    method FileChosen(dataUrl: Option<string>)
      modifies this
      ensures Buffer() == AvatarChosen(old(Buffer()), dataUrl) && searchTerm == old(searchTerm)
    {
      if dataUrl.Some? {
        editAvatar := dataUrl.value;
      }
    }

    method SetSearchTerm(term: string)
      modifies this
      ensures searchTerm == term && Buffer() == old(Buffer())
    {
      searchTerm := term;
    }
  }
}
