/** The sidebar (components/ContactList.tsx): the search filter and what each
    row derives from its contact. */
module ContactList {
  import opened Types
  import opened Strings
  import opened Seqs
  import Store

  /** The search predicate: the lower-cased name contains the lower-cased term,
      or the number contains the term as typed. */
  predicate MatchesSearch(c: Contact, term: string) {
    Includes(ToLower(c.name), ToLower(term)) || Includes(c.phoneNumber, term)
  }

  /** `filteredContacts`. */
  function FilteredContacts(contacts: seq<Contact>, term: string): (r: seq<Contact>)
    ensures |r| <= |contacts|
  {
    Filter((c: Contact) => MatchesSearch(c, term), contacts)
  }

  /** The list shows exactly the matching contacts in roster order, and an
      empty term shows the whole roster. */
  lemma SearchProperties(contacts: seq<Contact>, term: string)
    ensures forall c :: c in FilteredContacts(contacts, term) <==> c in contacts && MatchesSearch(c, term)
    ensures IsSubsequence(FilteredContacts(contacts, term), contacts)
    ensures term == "" ==> FilteredContacts(contacts, term) == contacts
  {
    var keep := (c: Contact) => MatchesSearch(c, term);
    forall c ensures c in Filter(keep, contacts) <==> c in contacts && MatchesSearch(c, term) {
      FilterMembership(keep, contacts, c);
    }
    FilterIsSubsequence(keep, contacts);
    if term == "" {
      forall i | 0 <= i < |contacts| ensures keep(contacts[i]) {
        IncludesEmpty(contacts[i].phoneNumber);
      }
      FilterKeepsAll(keep, contacts);
    }
  }

  /** Typing further characters only narrows the list: every contact that
      matches the longer term already matched the shorter one. */
  lemma SearchNarrows(contacts: seq<Contact>, t: string, u: string)
    ensures forall c :: c in FilteredContacts(contacts, t + u) ==> c in FilteredContacts(contacts, t)
  {
    var long := (c: Contact) => MatchesSearch(c, t + u);
    var short := (c: Contact) => MatchesSearch(c, t);
    assert ToLower(t + u) == ToLower(t) + ToLower(u);
    forall c | c in Filter(long, contacts) ensures c in Filter(short, contacts) {
      FilterMembership(long, contacts, c);
      FilterMembership(short, contacts, c);
      if Includes(ToLower(c.name), ToLower(t + u)) {
        IncludesPrefix(ToLower(c.name), ToLower(t), ToLower(u));
      } else {
        IncludesPrefix(c.phoneNumber, t, u);
      }
    }
  }

  /** The name half of the match ignores ASCII case: terms that lower-case
      alike match the same names. */
  lemma NameMatchIgnoresCase(c: Contact, t: string, t': string)
    requires ToLower(t) == ToLower(t')
    requires Includes(ToLower(c.name), ToLower(t))
    ensures MatchesSearch(c, t) && MatchesSearch(c, t')
  {
  }

  const PhonePrefix: string := "Tel: "
  const AvatarBase: string := "https://picsum.photos/seed/"

  /** The row's second line: the last message, or the number when there is none
      (an empty last message counts as none). */
  function Preview(c: Contact): (r: string)
    ensures Truthy(c.lastMessage) ==> r == c.lastMessage.value
    ensures !Truthy(c.lastMessage) ==> r == PhonePrefix + c.phoneNumber
  {
    OrElse(c.lastMessage, PhonePrefix + c.phoneNumber)
  }

  /** The unread badge is drawn only for a present, non-zero counter. */
  predicate ShowsBadge(c: Contact) {
    c.unreadCount.Some? && c.unreadCount.value != 0
  }

  /** The time is drawn only for a present, non-zero timestamp; a timestamp of
      0 is falsy, and the heading then shows the number itself instead. */
  predicate ShowsTime(c: Contact) {
    c.lastMessageTime.Some? && c.lastMessageTime.value != 0
  }

  /** The avatar source: the contact's picture, or a placeholder seeded by its id. */
  function AvatarSource(c: Contact): (r: string)
    ensures Truthy(c.avatarUrl) ==> r == c.avatarUrl.value
    ensures !Truthy(c.avatarUrl) ==> r == AvatarBase + c.id + "/200"
  {
    OrElse(c.avatarUrl, AvatarBase + c.id + "/200")
  }

  /** A freshly added contact shows its number as preview, no badge and the
      placeholder avatar. */
  lemma NewContactRow(name: string, phoneNumber: string, id: string, now: int)
    ensures var c := Store.NewContact(name, phoneNumber, id, now);
            && Preview(c) == PhonePrefix + phoneNumber
            && !ShowsBadge(c)
            && AvatarSource(c) == AvatarBase + id + "/200"
            && (ShowsTime(c) <==> now != 0)
  {
  }

  /** After a message the row previews its text (when non-empty) and shows a
      badge exactly when a contact wrote outside the open conversation. */
  lemma RowAfterMessage(c: Contact, text: string, sender: Sender, now: int, activeId: Option<string>)
    ensures var t := Store.Touch(c, text, sender, now, activeId);
            && (text != "" ==> Preview(t) == text)
            && (ShowsBadge(t) <==> sender == ContactSender && activeId != Some(c.id))
            && (ShowsTime(t) <==> now != 0)
  {
  }

  /** Opening a conversation removes the badges of rows with that id and no others. */
  lemma SelectingClearsBadge(contacts: seq<Contact>, id: string, i: int)
    requires 0 <= i < |contacts|
    ensures var r := Store.ClearUnread(contacts, id);
            && (contacts[i].id == id ==> !ShowsBadge(r[i]))
            && (contacts[i].id != id ==> (ShowsBadge(r[i]) <==> ShowsBadge(contacts[i])))
  {
  }
}
