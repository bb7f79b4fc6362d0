/** The reply-context builder of the text-chat AI service (services/geminiService.ts):
    which history goes into a request, how senders map to roles, which persona
    prompt is chosen, and how the service's outcome becomes the reply text. */
module Gemini {
  import opened Types
  import opened Strings

  /** How many of the most recent messages are sent as context. */
  const HistoryWindow: nat := 10

  const UnavailableReply: string := "Error: AI Service Unavailable"
  const EmptyReply: string := "..."
  const FailureReply: string := "Sorry, I can't reply right now."

  datatype Role = UserRole | ModelRole

  /** One entry of the request's `contents`, with its single text part. */
  datatype Content = Content(role: Role, text: string)

  /** The system instruction: one of the five fixed persona prompts (named,
      their wording is not reproduced), or the generic prompt text. */
  datatype Instruction =
    | NaraPersona | YahPersona | MarcPersona | SarahPersona | AlexPersona
    | Generic(text: string)

  datatype Request = Request(contents: seq<Content>, instruction: Instruction)

  /** What the generation call did: answered with a possibly missing or empty
      text, or threw. */
  datatype ServiceOutcome = Answered(text: Option<string>) | Threw

  /** `history.slice(-10)`. */
  function RecentHistory(history: seq<Message>): (r: seq<Message>)
    ensures |r| == if |history| < HistoryWindow then |history| else HistoryWindow
    ensures r == history[|history| - |r|..]
  {
    if |history| <= HistoryWindow then history else history[|history| - HistoryWindow..]
  }

  function RoleOf(sender: Sender): (r: Role)
    ensures r == UserRole <==> sender == User
  {
    match sender
    case User => UserRole
    case ContactSender => ModelRole
  }

  function ToContent(m: Message): (c: Content)
    ensures c.text == m.text
    ensures c.role == UserRole <==> m.sender == User
  {
    Content(RoleOf(m.sender), m.text)
  }

  function ToContents(history: seq<Message>): (r: seq<Content>)
    ensures |r| == |history|
    ensures forall i :: 0 <= i < |history| ==> r[i] == ToContent(history[i])
  {
    if history == [] then [] else [ToContent(history[0])] + ToContents(history[1..])
  }

  /** The recent history mapped to roles, followed by the new user turn. */
  function BuildContents(history: seq<Message>, userMessage: string): (r: seq<Content>)
    ensures 1 <= |r| <= HistoryWindow + 1
    ensures r[|r| - 1] == Content(UserRole, userMessage)
  {
    ToContents(RecentHistory(history)) + [Content(UserRole, userMessage)]
  }

  /** The request holds the last min(10, n) messages in their original order,
      each with its role and text, and then the user's new message. */
  lemma BuildContentsShape(history: seq<Message>, userMessage: string)
    ensures var r := BuildContents(history, userMessage);
            var n := if |history| < HistoryWindow then |history| else HistoryWindow;
            && |r| == n + 1
            && r[n] == Content(UserRole, userMessage)
            && (forall i :: 0 <= i < n ==>
                  r[i].text == history[|history| - n + i].text
                  && (r[i].role == UserRole <==> history[|history| - n + i].sender == User))
  {
  }

  const PromptHead: string := "You are simulating a person named \""
  const PromptMiddle: string := "\". \n        You are chatting with a user on a messaging app called ASILTCOM.\n        Your phone number is "
  const PromptTail: string := ".\n        Keep your responses relatively short, casual, and natural for a chat application.\n        Do not be overly formal unless the user is formal.\n        If the user speaks a specific language, reply in that same language."

  /** The generic system instruction, with the contact's name and number spliced in. */
  function DefaultInstruction(name: string, phoneNumber: string): (r: string)
    ensures Includes(r, name) && Includes(r, phoneNumber)
  {
    var r := PromptHead + name + (PromptMiddle + phoneNumber + PromptTail);
    OccursInConcat(PromptHead, name, PromptMiddle + phoneNumber + PromptTail);
    OccursInConcat(PromptHead + name + PromptMiddle, phoneNumber, PromptTail);
    assert r == PromptHead + name + PromptMiddle + phoneNumber + PromptTail;
    r
  }

  /** The system instruction is chosen by the contact id: five ids have a fixed
      persona, every other contact gets the generic prompt about its name and number. */
  function SelectInstruction(contact: Contact): (p: Instruction)
    ensures p.Generic? <==>
              contact.id !in {"ai-nara", "ai-yah", "dev-marc", "dev-sarah", "dev-alex"}
    ensures p.Generic? ==> Includes(p.text, contact.name) && Includes(p.text, contact.phoneNumber)
    ensures contact.id == "ai-nara" ==> p == NaraPersona
    ensures contact.id == "ai-yah" ==> p == YahPersona
    ensures contact.id == "dev-marc" ==> p == MarcPersona
    ensures contact.id == "dev-sarah" ==> p == SarahPersona
    ensures contact.id == "dev-alex" ==> p == AlexPersona
  {
    if contact.id == "ai-nara" then NaraPersona
    else if contact.id == "ai-yah" then YahPersona
    else if contact.id == "dev-marc" then MarcPersona
    else if contact.id == "dev-sarah" then SarahPersona
    else if contact.id == "dev-alex" then AlexPersona
    else Generic(DefaultInstruction(contact.name, contact.phoneNumber))
  }

  /** Contacts with the same id get the same instruction unless the generic
      prompt applies, which looks only at the name and the number as well. */
  lemma {:induction false} InstructionDependsOnId(a: Contact, b: Contact)
    requires a.id == b.id
    ensures SelectInstruction(a).Generic? == SelectInstruction(b).Generic?
    ensures !SelectInstruction(a).Generic? ==> SelectInstruction(a) == SelectInstruction(b)
    ensures a.name == b.name && a.phoneNumber == b.phoneNumber ==>
              SelectInstruction(a) == SelectInstruction(b)
  {
  }

  /** The reply text for what the service did. */
  function ReplyText(outcome: ServiceOutcome): (r: string)
    ensures outcome.Threw? ==> r == FailureReply
    ensures outcome.Answered? && Truthy(outcome.text) ==> r == outcome.text.value
    ensures outcome.Answered? && !Truthy(outcome.text) ==> r == EmptyReply
  {
    match outcome
    case Threw => FailureReply
    case Answered(text) => OrElse(text, EmptyReply)
  }

  /** `generateReply`. Without a client it answers at once; otherwise it reads
      the contact (a missing one makes the call reject, here `None`), builds the
      request and maps the service's outcome to text. */
  function GenerateReply(clientAvailable: bool, contact: Option<Contact>, history: seq<Message>,
                         userMessage: string, outcome: ServiceOutcome): (r: Option<string>)
    ensures !clientAvailable ==> r == Some(UnavailableReply)
    ensures clientAvailable && contact.None? ==> r.None?
    ensures clientAvailable && contact.Some? ==> r == Some(ReplyText(outcome))
  {
    if !clientAvailable then Some(UnavailableReply)
    else if contact.None? then None
    else Some(ReplyText(outcome))
  }

  /** The request sent to the service when a client and a contact are present. */
  function RequestFor(contact: Contact, history: seq<Message>, userMessage: string): (r: Request)
    ensures r.instruction == SelectInstruction(contact)
    ensures |r.contents| >= 1 && r.contents[|r.contents| - 1] == Content(UserRole, userMessage)
  {
    Request(BuildContents(history, userMessage), SelectInstruction(contact))
  }
}
