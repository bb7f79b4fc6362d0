/** The shared data shapes of the chat application: contacts, messages and the
    per-contact conversation map. Optional TypeScript fields become `Option`s. */
module Types {
  import Seqs

  datatype Option<+T> = None | Some(value: T) {
    function GetOr(default: T): T {
      match this
      case Some(v) => v
      case None => default
    }
  }

  /** JavaScript truthiness of a `string | null | undefined` value: the empty
      string is falsy, like a missing value. */
  predicate Truthy(s: Option<string>) {
    s.Some? && s.value != ""
  }

  /** `a || b` on an optional string. */
  function OrElse(s: Option<string>, fallback: string): (r: string)
    ensures Truthy(s) ==> r == s.value
    ensures !Truthy(s) ==> r == fallback
  {
    if s.Some? && s.value != "" then s.value else fallback
  }

  datatype Sender = User | ContactSender

  datatype Status = Sent | Delivered | Read

  datatype Contact = Contact(
    id: string,
    name: string,
    phoneNumber: string,
    avatarUrl: Option<string>,
    coverUrl: Option<string>,
    lastMessage: Option<string>,
    lastMessageTime: Option<int>,
    unreadCount: Option<nat>)

  datatype Message = Message(
    id: string,
    contactId: string,
    sender: Sender,
    text: string,
    imageUrl: Option<string>,
    timestamp: int,
    status: Status)

  /** Messages of each contact, keyed by contact id, in insertion order. */
  type ChatState = map<string, seq<Message>>

  /** The ids of a roster, in roster order. */
  function Ids(contacts: seq<Contact>): (ids: seq<string>)
    ensures |ids| == |contacts|
    ensures forall i :: 0 <= i < |contacts| ==> ids[i] == contacts[i].id
  {
    seq(|contacts|, i requires 0 <= i < |contacts| => contacts[i].id)
  }

  /** The ids of two rosters joined are their ids joined. */
  lemma IdsOfConcat(a: seq<Contact>, b: seq<Contact>)
    ensures Ids(a + b) == Ids(a) + Ids(b)
  {
    assert forall i :: 0 <= i < |a + b| ==> Ids(a + b)[i] == (Ids(a) + Ids(b))[i];
  }

  /** The ids of a roster without position `j` are its ids without position `j`. */
  lemma IdsAround(b: seq<Contact>, j: nat)
    requires j < |b|
    ensures Ids(b[..j] + b[j + 1..]) == Ids(b)[..j] + Ids(b)[j + 1..]
  {
    var x := Ids(b);
    assert Ids(b[..j]) == x[..j];
    assert Ids(b[j + 1..]) == x[j + 1..];
    IdsOfConcat(b[..j], b[j + 1..]);
  }

  /** The ids of a non-empty roster are the head's id and the tail's ids. */
  lemma IdsTail(a: seq<Contact>)
    requires a != []
    ensures multiset(Ids(a)) == multiset(Ids(a[1..])) + multiset{a[0].id}
  {
    assert Ids(a) == [a[0].id] + Ids(a[1..]);
  }

  /** Taking one contact out of a roster takes its id out of the ids. */
  lemma IdsWithout(b: seq<Contact>, j: nat)
    requires j < |b|
    ensures multiset(Ids(b)) == multiset(Ids(b[..j] + b[j + 1..])) + multiset{b[j].id}
  {
    IdsAround(b, j);
    Seqs.MultisetRemove(Ids(b), j, Ids(b[..j] + b[j + 1..]));
  }

  /** `contacts.find(c => c.id === id)`: the first contact with that id. */
  function Find(contacts: seq<Contact>, id: string): (r: Option<Contact>)
    ensures r.Some? <==> id in Ids(contacts)
    ensures r.Some? ==> r.value in contacts && r.value.id == id
    ensures r.Some? ==>
              exists i :: 0 <= i < |contacts| && contacts[i] == r.value &&
                (forall j :: 0 <= j < i ==> contacts[j].id != id)
  {
    if contacts == [] then None
    else if contacts[0].id == id then Some(contacts[0])
    else Find(contacts[1..], id)
  }
}
