/** The conversation store of the top-level component (App.tsx): the contact
    roster, the per-contact message lists and the active conversation, with
    the seed merge on load and the append, send, select and add operations. */
module Store {
  import opened Types
  import opened Seqs
  import Seed
  import Gemini

  // ---------------------------------------------------------------------------
  // Seed merge on load
  // ---------------------------------------------------------------------------

  /** The seed contacts whose id does not occur in the saved roster, in seed
      order, followed by the saved roster. */
  function MergeSeedContacts(seed: seq<Contact>, saved: seq<Contact>): (r: seq<Contact>)
    ensures |saved| <= |r| <= |seed| + |saved|
    ensures r[|r| - |saved|..] == saved
  {
    Filter((c: Contact) => c.id !in Ids(saved), seed) + saved
  }

  /** The prepended part holds exactly the seed contacts missing from the saved
      roster, in their seed order; the saved roster follows unchanged. */
  lemma MergeSeedContactsPrefix(seed: seq<Contact>, saved: seq<Contact>)
    ensures var r := MergeSeedContacts(seed, saved);
            var added := r[..|r| - |saved|];
            && r == added + saved
            && IsSubsequence(added, seed)
            && (forall c :: c in added <==> c in seed && c.id !in Ids(saved))
  {
    var keep := (c: Contact) => c.id !in Ids(saved);
    var r := MergeSeedContacts(seed, saved);
    assert r[..|r| - |saved|] == Filter(keep, seed);
    FilterIsSubsequence(keep, seed);
    forall c ensures c in Filter(keep, seed) <==> c in seed && c.id !in Ids(saved) {
      FilterMembership(keep, seed, c);
    }
  }

  /** After the merge every seed id is present, and looking up an id the saved
      roster has finds the saved contact: saved data wins on a collision. */
  lemma MergeSeedContactsSavedWins(seed: seq<Contact>, saved: seq<Contact>, id: string)
    ensures var r := MergeSeedContacts(seed, saved);
            && (id in Ids(seed) ==> id in Ids(r))
            && (id in Ids(saved) ==> Find(r, id) == Find(saved, id))
  {
    var keep := (c: Contact) => c.id !in Ids(saved);
    var added := Filter(keep, seed);
    var r := MergeSeedContacts(seed, saved);
    FindInConcat(added, saved, id);
    if id !in Ids(saved) && id in Ids(seed) {
      var i :| 0 <= i < |seed| && Ids(seed)[i] == id;
      FilterMembership(keep, seed, seed[i]);
      IdOfMember(added, seed[i]);
      IdsOfConcat(added, saved);
    }
  }

  lemma IdOfMember(cs: seq<Contact>, c: Contact)
    requires c in cs
    ensures c.id in Ids(cs)
  {
    var i :| 0 <= i < |cs| && cs[i] == c;
    assert Ids(cs)[i] == c.id;
  }

  lemma {:induction false} FindInConcat(a: seq<Contact>, b: seq<Contact>, id: string)
    ensures Find(a + b, id) == if id in Ids(a) then Find(a, id) else Find(b, id)
  {
    if a == [] {
      assert a + b == b;
    } else {
      assert (a + b)[1..] == a[1..] + b;
      FindInConcat(a[1..], b, id);
      assert Ids(a) == [a[0].id] + Ids(a[1..]);
    }
  }

  /** The contacts initialiser: the seed merge when a roster was saved, the
      seed roster otherwise. */
  function InitialContacts(saved: Option<seq<Contact>>, now: int): (r: seq<Contact>)
    ensures saved.None? ==> r == Seed.SeedContacts(now)
    ensures saved.Some? ==> r == MergeSeedContacts(Seed.SeedContacts(now), saved.value)
  {
    match saved
    case None => Seed.SeedContacts(now)
    case Some(roster) => MergeSeedContacts(Seed.SeedContacts(now), roster)
  }

  /** The messages initialiser's loop: copy the saved map, then insert each
      seed list whose key the copy does not have. */
  method MergeSeedMessages(saved: ChatState, seed: ChatState) returns (merged: ChatState)
    ensures merged.Keys == saved.Keys + seed.Keys
    ensures forall k :: k in saved ==> merged[k] == saved[k]
    ensures forall k :: k in seed && k !in saved ==> merged[k] == seed[k]
  {
    merged := saved;
    var pending := seed.Keys;
    while pending != {}
      invariant pending <= seed.Keys
      invariant merged.Keys == saved.Keys + (seed.Keys - pending)
      invariant forall k :: k in saved ==> merged[k] == saved[k]
      invariant forall k :: k in seed && k !in pending && k !in saved ==> merged[k] == seed[k]
      decreases pending
    {
      var key :| key in pending;
      if key !in merged {
        merged := merged[key := seed[key]];
      }
      pending := pending - {key};
    }
  }

  // ---------------------------------------------------------------------------
  // Appending a message
  // ---------------------------------------------------------------------------

  function StatusFor(sender: Sender): (s: Status)
    ensures s == Sent <==> sender == User
    ensures s != Read
  {
    if sender == User then Sent else Delivered
  }

  function NewMessage(text: string, sender: Sender, contactId: string, id: string, now: int): (m: Message)
    ensures m.contactId == contactId && m.sender == sender && m.text == text
    ensures m.id == id && m.timestamp == now && m.imageUrl.None?
    ensures m.status == StatusFor(sender)
  {
    Message(id, contactId, sender, text, None, now, StatusFor(sender))
  }

  /** The contact's message list, an absent one read as empty. */
  function MessagesOf(chat: ChatState, contactId: string): seq<Message> {
    if contactId in chat then chat[contactId] else []
  }

  /** Adds `msg` at the end of one contact's list, creating the list if needed. */
  function AppendToChat(chat: ChatState, contactId: string, msg: Message): (r: ChatState)
    ensures r.Keys == chat.Keys + {contactId}
    ensures r[contactId] == MessagesOf(chat, contactId) + [msg]
    ensures forall k :: k in chat && k != contactId ==> r[k] == chat[k]
  {
    chat[contactId := MessagesOf(chat, contactId) + [msg]]
  }

  /** The unread counter of the target after a message: one more than before
      (a missing counter read as 0) for a contact's message outside the
      conversation that was active, and 0 otherwise. */
  function UnreadAfter(c: Contact, sender: Sender, activeId: Option<string>): (n: nat)
    ensures n != 0 <==> sender == ContactSender && activeId != Some(c.id)
    ensures n != 0 ==> n == c.unreadCount.GetOr(0) + 1
  {
    if sender == ContactSender && activeId != Some(c.id) then c.unreadCount.GetOr(0) + 1 else 0
  }

  /** The target contact with its preview, time and unread counter updated. */
  function Touch(c: Contact, text: string, sender: Sender, now: int, activeId: Option<string>): (t: Contact)
    ensures t.id == c.id && t.name == c.name && t.phoneNumber == c.phoneNumber
    ensures t.avatarUrl == c.avatarUrl && t.coverUrl == c.coverUrl
    ensures t.lastMessage == Some(text) && t.lastMessageTime == Some(now)
    ensures t.unreadCount == Some(UnreadAfter(c, sender, activeId))
  {
    c.(lastMessage := Some(text), lastMessageTime := Some(now),
       unreadCount := Some(UnreadAfter(c, sender, activeId)))
  }

  /** `contacts.map(c => c.id === contactId ? {...} : c)`. */
  function TouchContact(contacts: seq<Contact>, contactId: string, text: string, sender: Sender,
                        now: int, activeId: Option<string>): (r: seq<Contact>)
    ensures |r| == |contacts|
    ensures forall i :: 0 <= i < |contacts| ==>
              r[i] == if contacts[i].id == contactId then Touch(contacts[i], text, sender, now, activeId)
                      else contacts[i]
    ensures Ids(r) == Ids(contacts)
  {
    if contacts == [] then []
    else
      var head := if contacts[0].id == contactId then Touch(contacts[0], text, sender, now, activeId)
                  else contacts[0];
      [head] + TouchContact(contacts[1..], contactId, text, sender, now, activeId)
  }

  /** The sort key `c.lastMessageTime || 0`. */
  function Recency(c: Contact): int {
    c.lastMessageTime.GetOr(0)
  }

  ghost predicate SortedByRecency(s: seq<Contact>) {
    forall i, j :: 0 <= i < j < |s| ==> Recency(s[i]) >= Recency(s[j])
  }

  /** Inserts `c` before the first element that is not more recent. */
  function Insert(c: Contact, s: seq<Contact>): (r: seq<Contact>)
    requires SortedByRecency(s)
    ensures SortedByRecency(r)
    ensures multiset(r) == multiset(s) + multiset{c}
  {
    if s == [] then [c]
    else if Recency(c) >= Recency(s[0]) then [c] + s
    else
      var rest := Insert(c, s[1..]);
      RestBelowHead(c, s, rest);
      assert s == [s[0]] + s[1..];
      [s[0]] + rest
  }

  /** Everything inserted behind the head of a sorted roster is no more recent
      than that head. */
  lemma RestBelowHead(c: Contact, s: seq<Contact>, rest: seq<Contact>)
    requires s != [] && SortedByRecency(s) && Recency(c) < Recency(s[0])
    requires multiset(rest) == multiset(s[1..]) + multiset{c}
    ensures forall i :: 0 <= i < |rest| ==> Recency(rest[i]) <= Recency(s[0])
  {
    forall i | 0 <= i < |rest| ensures Recency(rest[i]) <= Recency(s[0]) {
      assert rest[i] in multiset(rest);
      if rest[i] != c {
        assert rest[i] in multiset(s[1..]);
        var j :| 0 <= j < |s[1..]| && s[1..][j] == rest[i];
        assert s[j + 1] == rest[i];
      }
    }
  }

  /** Rosters holding the same contacts hold the same ids. */
  lemma {:induction false} PermutedIds(a: seq<Contact>, b: seq<Contact>)
    requires multiset(a) == multiset(b)
    ensures multiset(Ids(a)) == multiset(Ids(b))
    decreases |a|
  {
    if a != [] {
      assert a[0] in multiset(b);
      var j :| 0 <= j < |b| && b[j] == a[0];
      RemoveMatched(a, b, j);
      PermutedIds(a[1..], b[..j] + b[j + 1..]);
      IdsAroundMatched(a, b, j);
    }
  }

  lemma RemoveMatched(a: seq<Contact>, b: seq<Contact>, j: nat)
    requires multiset(a) == multiset(b) && a != [] && j < |b| && b[j] == a[0]
    ensures multiset(a[1..]) == multiset(b[..j] + b[j + 1..])
  {
    assert a[1..] == a[..0] + a[1..];
    MultisetRemove(a, 0, a[1..]);
    MultisetRemove(b, j, b[..j] + b[j + 1..]);
    forall y ensures multiset(a[1..])[y] == multiset(b[..j] + b[j + 1..])[y] {
      assert multiset(a)[y] == multiset(b)[y];
    }
  }

  lemma IdsAroundMatched(a: seq<Contact>, b: seq<Contact>, j: nat)
    requires a != [] && j < |b| && b[j] == a[0]
    requires multiset(Ids(a[1..])) == multiset(Ids(b[..j] + b[j + 1..]))
    ensures multiset(Ids(a)) == multiset(Ids(b))
  {
    IdsWithout(b, j);
    IdsTail(a);
  }

  /** `sort((a, b) => (b.lastMessageTime || 0) - (a.lastMessageTime || 0))`: a
      stable sort, most recent first. */
  function SortByRecency(s: seq<Contact>): (r: seq<Contact>)
    ensures SortedByRecency(r)
    ensures multiset(r) == multiset(s)
  {
    if s == [] then []
    else
      assert s == [s[0]] + s[1..];
      Insert(s[0], SortByRecency(s[1..]))
  }

  /** The roster after a message to `contactId`. */
  function RosterAfterMessage(contacts: seq<Contact>, contactId: string, text: string, sender: Sender,
                              now: int, activeId: Option<string>): (r: seq<Contact>)
    ensures SortedByRecency(r) && |r| == |contacts|
    ensures multiset(r) == multiset(TouchContact(contacts, contactId, text, sender, now, activeId))
  {
    var t := TouchContact(contacts, contactId, text, sender, now, activeId);
    var r := SortByRecency(t);
    assert |multiset(r)| == |multiset(t)|;
    r
  }

  /** After a message the roster holds the same ids as before (as a multiset)
      and is ordered most recent first. */
  lemma RosterAfterMessageIsSortedPermutation(contacts: seq<Contact>, contactId: string, text: string,
                                              sender: Sender, now: int, activeId: Option<string>)
    ensures var r := RosterAfterMessage(contacts, contactId, text, sender, now, activeId);
            && SortedByRecency(r)
            && multiset(Ids(r)) == multiset(Ids(contacts))
            && multiset(r) == multiset(TouchContact(contacts, contactId, text, sender, now, activeId))
  {
    var t := TouchContact(contacts, contactId, text, sender, now, activeId);
    PermutedIds(SortByRecency(t), t);
  }

  /** Only the target changes: every other contact is kept with all its fields,
      and every contact with the target id now carries the new preview, time
      and unread counter. */
  lemma RosterAfterMessageOnlyTargetChanges(contacts: seq<Contact>, contactId: string, text: string,
                                            sender: Sender, now: int, activeId: Option<string>)
    ensures var r := RosterAfterMessage(contacts, contactId, text, sender, now, activeId);
            && (forall c :: c in contacts && c.id != contactId ==> c in r)
            && (forall c :: c in contacts && c.id == contactId ==> Touch(c, text, sender, now, activeId) in r)
            && (forall x :: x in r ==>
                  || (x in contacts && x.id != contactId)
                  || (x.id == contactId && x.lastMessage == Some(text) && x.lastMessageTime == Some(now)))
  {
    var t := TouchContact(contacts, contactId, text, sender, now, activeId);
    var r := RosterAfterMessage(contacts, contactId, text, sender, now, activeId);
    TouchContactMembers(contacts, contactId, text, sender, now, activeId);
    SameMembers(r, t);
  }

  /** The same three facts about the map, before the sort. */
  lemma TouchContactMembers(contacts: seq<Contact>, contactId: string, text: string,
                            sender: Sender, now: int, activeId: Option<string>)
    ensures var t := TouchContact(contacts, contactId, text, sender, now, activeId);
            && (forall c :: c in contacts && c.id != contactId ==> c in t)
            && (forall c :: c in contacts && c.id == contactId ==> Touch(c, text, sender, now, activeId) in t)
            && (forall x :: x in t ==>
                  || (x in contacts && x.id != contactId)
                  || (x.id == contactId && x.lastMessage == Some(text) && x.lastMessageTime == Some(now)))
  {
    var t := TouchContact(contacts, contactId, text, sender, now, activeId);
    forall c | c in contacts
      ensures c.id != contactId ==> c in t
      ensures c.id == contactId ==> Touch(c, text, sender, now, activeId) in t
    {
      var i :| 0 <= i < |contacts| && contacts[i] == c;
      assert t[i] in t;
    }
    forall x | x in t
      ensures (x in contacts && x.id != contactId) ||
              (x.id == contactId && x.lastMessage == Some(text) && x.lastMessageTime == Some(now))
    {
      var i :| 0 <= i < |t| && t[i] == x;
      assert contacts[i] in contacts;
    }
  }

  /** The unread counter of the target: one more (missing read as 0) for a
      contact's message while another conversation (or none) is active,
      and 0 otherwise. */
  lemma UnreadCounterAfterMessage(contacts: seq<Contact>, contactId: string, text: string,
                                  sender: Sender, now: int, activeId: Option<string>, c: Contact)
    requires c in contacts && c.id == contactId
    ensures var x := Touch(c, text, sender, now, activeId);
            && x in RosterAfterMessage(contacts, contactId, text, sender, now, activeId)
            && (sender == ContactSender && activeId != Some(contactId) ==>
                  x.unreadCount == Some(c.unreadCount.GetOr(0) + 1))
            && (sender == User || activeId == Some(contactId) ==> x.unreadCount == Some(0))
  {
    RosterAfterMessageOnlyTargetChanges(contacts, contactId, text, sender, now, activeId);
  }

  /** Every conversation belongs to a contact of the roster. */
  ghost predicate ConversationsOwned(contacts: seq<Contact>, chat: ChatState) {
    forall k :: k in chat ==> k in Ids(contacts)
  }

  /** Appending to a contact of the roster keeps every conversation owned. */
  lemma AppendKeepsConversationsOwned(contacts: seq<Contact>, chat: ChatState, contactId: string,
                                      text: string, sender: Sender, now: int, activeId: Option<string>,
                                      msg: Message)
    requires ConversationsOwned(contacts, chat) && contactId in Ids(contacts)
    ensures ConversationsOwned(RosterAfterMessage(contacts, contactId, text, sender, now, activeId),
                               AppendToChat(chat, contactId, msg))
  {
    var r := RosterAfterMessage(contacts, contactId, text, sender, now, activeId);
    RosterAfterMessageIsSortedPermutation(contacts, contactId, text, sender, now, activeId);
    forall k | k in AppendToChat(chat, contactId, msg) ensures k in Ids(r) {
      assert k in multiset(Ids(contacts));
    }
  }

  /** Appending messages one after another, as a sequence of calls would. */
  function Replay(chat: ChatState, msgs: seq<Message>): (r: ChatState)
    ensures chat.Keys <= r.Keys
    ensures forall m :: m in msgs ==> m.contactId in r
    ensures forall k :: k in r ==> k in chat || exists m :: m in msgs && m.contactId == k
    decreases |msgs|
  {
    if msgs == [] then chat
    else Replay(AppendToChat(chat, msgs[0].contactId, msgs[0]), msgs[1..])
  }

  /** After any sequence of appends, each contact's list is its old list
      followed by exactly the messages addressed to it, in call order. */
  lemma {:induction false} ReplayGroupsByContact(chat: ChatState, msgs: seq<Message>, k: string)
    ensures MessagesOf(Replay(chat, msgs), k) ==
            MessagesOf(chat, k) + Filter((m: Message) => m.contactId == k, msgs)
    decreases |msgs|
  {
    var f := (m: Message) => m.contactId == k;
    if msgs != [] {
      var next := AppendToChat(chat, msgs[0].contactId, msgs[0]);
      ReplayGroupsByContact(next, msgs[1..], k);
      if msgs[0].contactId == k {
        assert MessagesOf(next, k) == MessagesOf(chat, k) + [msgs[0]];
      } else {
        assert MessagesOf(next, k) == MessagesOf(chat, k);
      }
    }
  }

  // ---------------------------------------------------------------------------
  // Select and add
  // ---------------------------------------------------------------------------

  /** `contacts.map(c => c.id === id ? {...c, unreadCount: 0} : c)`. */
  function ClearUnread(contacts: seq<Contact>, id: string): (r: seq<Contact>)
    ensures |r| == |contacts|
    ensures forall i :: 0 <= i < |contacts| ==>
              r[i] == if contacts[i].id == id then contacts[i].(unreadCount := Some(0)) else contacts[i]
  {
    if contacts == [] then []
    else
      var head := if contacts[0].id == id then contacts[0].(unreadCount := Some(0)) else contacts[0];
      [head] + ClearUnread(contacts[1..], id)
  }

  /** Selecting clears the counter of that id only, keeps the roster's order,
      and selecting again changes nothing more. */
  lemma ClearUnreadProperties(contacts: seq<Contact>, id: string)
    ensures var r := ClearUnread(contacts, id);
            && Ids(r) == Ids(contacts)
            && (forall i :: 0 <= i < |r| && r[i].id == id ==> r[i].unreadCount == Some(0))
            && (forall i :: 0 <= i < |r| && r[i].id != id ==> r[i] == contacts[i])
            && ClearUnread(r, id) == r
  {
    var r := ClearUnread(contacts, id);
    assert Ids(r) == Ids(contacts);
    assert ClearUnread(r, id) == r;
  }

  /** The contact created by add-contact: no avatar and an empty preview. */
  function NewContact(name: string, phoneNumber: string, id: string, now: int): (c: Contact)
    ensures c.id == id && c.name == name && c.phoneNumber == phoneNumber
    ensures c.lastMessage == Some("") && c.lastMessageTime == Some(now)
    ensures c.avatarUrl.None? && c.coverUrl.None? && c.unreadCount.None?
  {
    Contact(id, name, phoneNumber, None, None, Some(""), Some(now), None)
  }

  /** A text message request waiting for the AI reply: what the send handler
      captured before it awaited the service. */
  datatype PendingReply = PendingReply(
    contactId: string,
    contact: Option<Contact>,
    history: seq<Message>,
    userMessage: string)

  // ---------------------------------------------------------------------------
  // The store
  // ---------------------------------------------------------------------------

  class ConversationStore {
    var contacts: seq<Contact>
    var chatState: ChatState
    var activeContactId: Option<string>
    var typingStatus: map<string, bool>

    /** The three state initialisers: saved data (absent when the storage key
        is missing or empty) merged with the seed. */
    constructor Load(savedContacts: Option<seq<Contact>>, savedMessages: Option<ChatState>, now: int)
      ensures contacts == InitialContacts(savedContacts, now)
      ensures savedMessages.None? ==> chatState == Seed.SeedMessages(now)
      ensures savedMessages.Some? ==>
                && chatState.Keys == savedMessages.value.Keys + Seed.SeedMessages(now).Keys
                && (forall k :: k in savedMessages.value ==> chatState[k] == savedMessages.value[k])
                && (forall k :: k in Seed.SeedMessages(now) && k !in savedMessages.value ==>
                      chatState[k] == Seed.SeedMessages(now)[k])
      ensures activeContactId.None? && typingStatus == map[]
    {
      var chat := Seed.SeedMessages(now);
      if savedMessages.Some? {
        chat := MergeSeedMessages(savedMessages.value, Seed.SeedMessages(now));
      }
      contacts := InitialContacts(savedContacts, now);
      chatState := chat;
      activeContactId := None;
      typingStatus := map[];
    }

    /** `addMessageToState`, with the active id the calling handler captured. */
    method AppendMessage(text: string, sender: Sender, contactId: string, capturedActive: Option<string>,
                         id: string, now: int) returns (msg: Message)
      modifies this
      ensures msg == NewMessage(text, sender, contactId, id, now)
      ensures chatState == AppendToChat(old(chatState), contactId, msg)
      ensures contacts == RosterAfterMessage(old(contacts), contactId, text, sender, now, capturedActive)
      ensures activeContactId == old(activeContactId) && typingStatus == old(typingStatus)
    {
      msg := NewMessage(text, sender, contactId, id, now);
      var chat := AppendToChat(chatState, contactId, msg);
      var roster := RosterAfterMessage(contacts, contactId, text, sender, now, capturedActive);
      chatState, contacts := chat, roster;
    }

    /** The first half of `handleSendMessage`, up to the await: nothing happens
        without an active conversation; otherwise the user's message is
        appended, the contact is marked typing, and the request context (the
        history as it was before this message) is captured. */
    method BeginSend(text: string, id: string, now: int) returns (pending: Option<PendingReply>)
      modifies this
      ensures !Truthy(old(activeContactId)) ==>
                pending.None? && contacts == old(contacts) && chatState == old(chatState)
                && typingStatus == old(typingStatus)
      ensures Truthy(old(activeContactId)) ==>
                var active := old(activeContactId).value;
                && pending == Some(PendingReply(active, Find(old(contacts), active),
                                                MessagesOf(old(chatState), active), text))
                && chatState == AppendToChat(old(chatState), active, NewMessage(text, User, active, id, now))
                && contacts == RosterAfterMessage(old(contacts), active, text, User, now, old(activeContactId))
                && typingStatus == old(typingStatus)[active := true]
      ensures activeContactId == old(activeContactId)
    {
      if !Truthy(activeContactId) {
        return None;
      }
      var active := activeContactId.value;
      var history := MessagesOf(chatState, active);
      var contact := Find(contacts, active);
      var _ := AppendMessage(text, User, active, activeContactId, id, now);
      typingStatus := typingStatus[active := true];
      pending := Some(PendingReply(active, contact, history, text));
    }

    /** The second half of `handleSendMessage`, after the service answered: the
        reply (when the call resolved) is appended as the contact's message
        under the active id captured at send time, so its unread counter is
        reset; a rejected call leaves everything, the typing flag included, as it was. */
    method CompleteSend(pending: PendingReply, clientAvailable: bool, outcome: Gemini.ServiceOutcome,
                        id: string, now: int)
      modifies this
      ensures var reply := Gemini.GenerateReply(clientAvailable, pending.contact, pending.history,
                                                pending.userMessage, outcome);
              && (reply.None? ==> contacts == old(contacts) && chatState == old(chatState)
                                  && typingStatus == old(typingStatus))
              && (reply.Some? ==>
                    && typingStatus == old(typingStatus)[pending.contactId := false]
                    && chatState == AppendToChat(old(chatState), pending.contactId,
                                                 NewMessage(reply.value, ContactSender, pending.contactId, id, now))
                    && contacts == RosterAfterMessage(old(contacts), pending.contactId, reply.value,
                                                      ContactSender, now, Some(pending.contactId)))
      ensures activeContactId == old(activeContactId)
    {
      var reply := Gemini.GenerateReply(clientAvailable, pending.contact, pending.history,
                                        pending.userMessage, outcome);
      if reply.Some? {
        typingStatus := typingStatus[pending.contactId := false];
        var _ := AppendMessage(reply.value, ContactSender, pending.contactId, Some(pending.contactId), id, now);
      }
    }

    /** `handleVoiceMessage`: a transcript line appended to the active conversation. */
    method VoiceMessage(text: string, sender: Sender, id: string, now: int) returns (appended: bool)
      modifies this
      ensures appended == Truthy(old(activeContactId))
      ensures !appended ==> contacts == old(contacts) && chatState == old(chatState)
      ensures appended ==>
                var active := old(activeContactId).value;
                && chatState == AppendToChat(old(chatState), active, NewMessage(text, sender, active, id, now))
                && contacts == RosterAfterMessage(old(contacts), active, text, sender, now, old(activeContactId))
      ensures activeContactId == old(activeContactId) && typingStatus == old(typingStatus)
    {
      appended := Truthy(activeContactId);
      if appended {
        var _ := AppendMessage(text, sender, activeContactId.value, activeContactId, id, now);
      }
    }

    /** `handleAddContact`: prepends the new contact and opens its conversation;
        no message list is created. */
    method AddContact(name: string, phoneNumber: string, id: string, now: int)
      modifies this
      ensures contacts == [NewContact(name, phoneNumber, id, now)] + old(contacts)
      ensures activeContactId == Some(id)
      ensures chatState == old(chatState) && typingStatus == old(typingStatus)
    {
      contacts := [NewContact(name, phoneNumber, id, now)] + contacts;
      activeContactId := Some(id);
    }

    /** `handleSelectContact`. */
    method SelectContact(id: string)
      modifies this
      ensures activeContactId == Some(id)
      ensures contacts == ClearUnread(old(contacts), id)
      ensures chatState == old(chatState) && typingStatus == old(typingStatus)
    {
      activeContactId := Some(id);
      contacts := ClearUnread(contacts, id);
    }

    /** The chat window's back button: no conversation is active any more. */
    method CloseConversation()
      modifies this
      ensures activeContactId.None?
      ensures contacts == old(contacts) && chatState == old(chatState) && typingStatus == old(typingStatus)
    {
      activeContactId := None;
    }

    /** The messages shown for the active conversation. */
    function ActiveMessages(): (r: seq<Message>)
      reads this
      ensures !Truthy(activeContactId) ==> r == []
      ensures Truthy(activeContactId) ==> r == MessagesOf(chatState, activeContactId.value)
    {
      if Truthy(activeContactId) then MessagesOf(chatState, activeContactId.value) else []
    }
  }
}
