# ASILTCOM in Dafny

ASILTCOM is a browser chat application. Its roster mixes AI personas, developer
bots and user-added contacts. This project models the application's core logic
and proves properties of that model:

- The **conversation store** (App.tsx). It builds the state from saved data and
  built-in seed data. It appends a message to a conversation and then updates and
  re-sorts the roster. It sends a message and waits for the AI reply. It also
  logs voice transcripts, adds contacts, and opens and closes conversations.
- The **reply-context builder** of the text-chat AI service
  (services/geminiService.ts). It takes the last ten messages, maps each sender
  to a role, appends the user's turn, picks the persona and maps the service
  result to a fallback reply.
- The **voice-call session** (components/VoiceCallModal.tsx). This covers the
  audio byte/binary-string loops, the gapless playback scheduler, the transcript
  buffers and their flush, the status callbacks guarded by `active`, the
  teardown and muting.
- The **social profile page** (components/SocialProfileView.tsx). This covers
  the generated profile, the choice between the stored and the generated
  profile, and creating, liking, deleting and editing posts. It also covers the
  choice between generating and editing a post image.
- The **forms and lists**:
  - the add-contact form with its phone-number regular expression
    (components/AddContactModal.tsx);
  - the sidebar search and row derivations (components/ContactList.tsx);
  - the admin search and edit buffer (components/AdminDashboard.tsx);
  - the admin login decision (components/AdminLoginModal.tsx);
  - the message composer (components/ChatWindow.tsx).

The model's conventions:

- JavaScript truthiness is explicit. An optional string is truthy when it is
  present and non-empty (`Types.Truthy`), and `a || b` is `Types.OrElse`.
- Clock readings, generated ids, random draws, the user's answer to
  `window.confirm` and the outcomes of AI calls are parameters.
- Components that update state in place are classes. Their methods `ensure`
  the new state in terms of pure transition functions, and the properties are
  proved about those functions.

The files are:

- types.dfy: entity shapes, `Option`, id lookup.
- strings.dfy: `trim`, `\s`, `toLowerCase`, `includes`, number rendering.
- seqs.dfy: `filter` and subsequences.
- seed.dfy: the seed roster and conversations.
- The rest: one file per core source file.

Some behaviours of the code are easy to miss; the model keeps each of them:

- The voice call's status is not terminal. The open callback checks only
  `active` (components/VoiceCallModal.tsx:251-254), so a late open reports
  "connected" again, even after an error or an end (`Voice.StatusNotFinal`).
- Closing the call modal does not show "ended", and it discards untranscribed
  text instead of flushing it. The close effect sets `active` to false
  (components/VoiceCallModal.tsx:85-94) before `cleanup` checks it
  (components/VoiceCallModal.tsx:97-137); see `Voice.DeactivateKeepsStatus`
  and `Voice.Cleaned`.
- The server's close callback flushes the transcripts whether or not the
  session is active; only the status change is guarded
  (components/VoiceCallModal.tsx:367-371, `Voice.ServerClosed`).
- The stored roster and messages are parsed without recovery
  (App.tsx:168 and App.tsx:179). Corrupt storage makes the initialiser throw,
  which the model does not represent.
- A failed AI reply is one fixed string (services/geminiService.ts:93-95).
  There is no second reply path (`Gemini.GenerateReply`).

## Model

| member | source | states |
|---|---|---|
| Types.Find | App.tsx:204 | `contacts.find` by id: finds a contact exactly when the id is in the roster, and what it finds is the first member with that id |
| Seed.SeedContacts | App.tsx:10-71 | the seven built-in contacts |
| Seed.SeedMessages | App.tsx:73-162 | the seed conversations are keyed by exactly the seven seed ids |
| Seed.SeedConversationsHaveContacts | App.tsx:10-163 | every seeded conversation belongs to a seeded contact |
| Store.MergeSeedContacts | App.tsx:165-174 | the merged roster ends with the saved roster unchanged |
| Store.MergeSeedContactsPrefix | App.tsx:170-171 | the prepended part holds exactly the seed contacts whose id is not saved, in seed order |
| Store.MergeSeedContactsSavedWins | App.tsx:170-171 | every seed id is present after the merge, and a lookup of a saved id finds the saved contact |
| Store.InitialContacts | App.tsx:165-174 | the seed roster without saved data; otherwise the seed merge |
| Store.MergeSeedMessages | App.tsx:176-190 | keys are saved ∪ seed; saved lists are kept; a seed list is inserted only where no list was saved |
| Store.StatusFor | App.tsx:215 | a user's message is 'sent', a contact's is 'delivered'; never 'read' |
| Store.NewMessage | App.tsx:209-216 | the new message carries the given id, contact, sender, text, time and the sender's status |
| Store.AppendToChat | App.tsx:218-221 | the message goes at the end of its contact's list (created if missing); every other list is unchanged |
| Store.UnreadAfter | App.tsx:230 | the counter is non-zero exactly for a contact's message outside the active conversation, and then it is the old count (missing as 0) plus one |
| Store.Touch | App.tsx:226-231 | the target keeps its identity and pictures and takes the preview, the time and the new counter |
| Store.TouchContact | App.tsx:223-232 | the map changes exactly the contacts with the id and keeps the ids in order |
| Store.Insert | App.tsx:233 | inserting into a most-recent-first roster keeps it sorted and adds exactly one element |
| Store.SortByRecency | App.tsx:233 | the sort's result is ordered most recent first (missing time as 0) and is a permutation of its input |
| Store.PermutedIds | App.tsx:233 | rosters holding the same contacts hold the same multiset of ids |
| Store.RosterAfterMessage | App.tsx:223-234 | the new roster is sorted most recent first, keeps its length and holds the touched contacts |
| Store.RosterAfterMessageIsSortedPermutation | App.tsx:223-234 | after a message the roster is sorted most recent first and holds the same ids as before |
| Store.RosterAfterMessageOnlyTargetChanges | App.tsx:223-234 | every other contact survives unchanged, and every contact in the result is an old non-target or a target with the new preview and time |
| Store.TouchContactMembers | App.tsx:223-232 | before the sort: every non-target survives, every target appears touched, and nothing else appears |
| Store.UnreadCounterAfterMessage | App.tsx:230 | the target's counter goes up by one for a contact's message outside the active conversation and is 0 otherwise |
| Store.AppendKeepsConversationsOwned | App.tsx:218-234 | appending to a roster contact keeps every conversation owned by a roster contact |
| Store.Replay | App.tsx:218-221 | every existing conversation is kept, every addressed contact gets one, and no other key appears |
| Store.ReplayGroupsByContact | App.tsx:218-221 | replaying appends groups messages per contact in arrival order: each list grows by exactly the messages for that id |
| Store.ClearUnread | App.tsx:282-284 | the map resets the counter of the contacts with the id to 0 and keeps the others |
| Store.ClearUnreadProperties | App.tsx:282-284 | selecting keeps the ids, zeroes the target's counter, keeps other contacts, and is idempotent |
| Store.NewContact | App.tsx:269-275 | the added contact has the given id, name and number, an empty preview, and no avatar or counter |
| Store.ConversationStore.Load | App.tsx:165-194 | the three initialisers: the roster merge, the message merge, no active conversation, nobody typing |
| Store.ConversationStore.AppendMessage | App.tsx:208-235 | appends the new message to the conversation and replaces the roster by the touched and re-sorted one |
| Store.ConversationStore.BeginSend | App.tsx:238-247 | without an active conversation nothing changes; otherwise the user's message is appended, the contact is typing, and the pre-send history is captured |
| Store.ConversationStore.CompleteSend | App.tsx:250-259 | a resolved reply clears the typing flag and is appended as the contact's message under the id captured at send time; a rejected call changes nothing |
| Store.ConversationStore.VoiceMessage | App.tsx:263-266 | a transcript line is appended to the active conversation only when one is active |
| Store.ConversationStore.AddContact | App.tsx:268-278 | the new contact is prepended and its conversation opened; messages are untouched |
| Store.ConversationStore.SelectContact | App.tsx:280-285 | opens the conversation and clears its unread counter |
| Store.ConversationStore.CloseConversation | App.tsx:309 | the back button leaves no conversation active and changes nothing else |
| Store.ConversationStore.ActiveMessages | App.tsx:205 | the active conversation's messages, or none without an active id |
| Gemini.RecentHistory | services/geminiService.ts:22 | `slice(-10)`: the last min(10, n) messages |
| Gemini.RoleOf | services/geminiService.ts:27 | the user role exactly for the user's messages |
| Gemini.ToContent | services/geminiService.ts:26-29 | a message becomes one content entry with its text and its sender's role |
| Gemini.ToContents | services/geminiService.ts:26-29 | the map keeps length and order |
| Gemini.BuildContents | services/geminiService.ts:22-35 | at most eleven entries, the last of which is the user's new message |
| Gemini.BuildContentsShape | services/geminiService.ts:22-35 | the request holds the last min(10, n) messages in order, with text and role, then the user's new turn |
| Gemini.DefaultInstruction | services/geminiService.ts:38-43 | the generic prompt contains the contact's name and number |
| Gemini.SelectInstruction | services/geminiService.ts:38-79 | five ids each have their own fixed persona (Nara, Yah, Marc, Sarah, Alex); every other contact gets the generic prompt about its name and number |
| Gemini.InstructionDependsOnId | services/geminiService.ts:46-79 | the persona depends only on the id, and the generic prompt only adds the name and number |
| Gemini.ReplyText | services/geminiService.ts:92-96 | the answer's text if non-empty, "..." for an empty answer, the apology when the call throws |
| Gemini.GenerateReply | services/geminiService.ts:13-96 | without a client the unavailable message; a missing contact rejects; otherwise the reply text for the outcome |
| Gemini.RequestFor | services/geminiService.ts:26-90 | the request's instruction is the persona selection and its last entry is the user's new turn |
| AddContact.MatchesPhonePattern | components/AddContactModal.tsx:28-29 | an accepted number has a digit right after its optional `+` and `(` |
| AddContact.MatchesPhonePatternIsPattern | components/AddContactModal.tsx:28-29 | the one-pass test accepts exactly the strings of `^[+]?[(]?[0-9]{1,4}[)]?[-\s./0-9]*$` |
| AddContact.MessageExampleAccepted | components/AddContactModal.tsx:28-30 | the number shown in the error message passes the pattern |
| AddContact.PlaceholderExampleAccepted | components/AddContactModal.tsx:77 | the number shown as the input's placeholder passes the pattern |
| AddContact.BracketedExampleAccepted | components/AddContactModal.tsx:28 | a bracketed area code with a dash passes |
| AddContact.UnbalancedBracketsAccepted | components/AddContactModal.tsx:28 | an unclosed `(` and an unopened `)` both pass |
| AddContact.RejectedForms | components/AddContactModal.tsx:28 | a character outside every class rejects, leading whitespace rejects, and five digits before `)` reject |
| AddContact.TrailingSpaceAccepted | components/AddContactModal.tsx:28 | trailing whitespace is part of the tail class |
| AddContact.Decide | components/AddContactModal.tsx:23-34 | saved exactly when both fields are non-blank and the number matches, with the untrimmed values; otherwise the blank-field message takes priority over the pattern message |
| AddContact.SavedUntrimmed | components/AddContactModal.tsx:23-34 | whitespace around a saved name and after a saved number is kept |
| AddContact.LeadingSpaceRejected | components/AddContactModal.tsx:23-31 | a number with leading whitespace passes the blank check and fails the pattern |
| AddContact.AddContactForm.constructor | components/AddContactModal.tsx:15-17 | all three fields start empty |
| AddContact.AddContactForm.Submit | components/AddContactModal.tsx:21-39 | a rejection shows its message and keeps the values; a save clears all three fields |
| Voice.Flushed | components/VoiceCallModal.tsx:139-148 | both buffers end blank and nothing else changes; no line is emitted exactly when both buffers are blank; no source stops |
| Voice.ScheduleParts | components/VoiceCallModal.tsx:317-353 | the parts loop never moves the cursor back, drops no live source, and changes only the speaking flag, cursor, sources and playbacks |
| Voice.Receive | components/VoiceCallModal.tsx:302-365 | an inactive session ignores the message; status, mute and `active` never change; lines appear only at a turn end or an interruption (and then exactly the flushed buffers, by `Voice.TurnEndFlushes`); without an interruption no source stops, with one every live source stops |
| Voice.ServerClosed | components/VoiceCallModal.tsx:367-371 | the flush happens whatever `active` is; only an active session's status becomes ended; no source stops |
| Voice.Apply | components/VoiceCallModal.tsx:76-396 | only the open and close effects change `active`, only the mute button changes mute, lines come only from a server message or the close callback, sources stop only on closing or a server message |
| Voice.BatchArrivesInTime | components/VoiceCallModal.tsx:325-346 | parts that all arrive by the starting cursor arrive in time for the gapless playback lemma |
| Voice.BinaryOf | components/VoiceCallModal.tsx:14-19 | one char per byte, with the byte's code |
| Voice.BytesOf | components/VoiceCallModal.tsx:24-31 | one byte per char, keeping the code's low eight bits |
| Voice.BytesRoundTrip | components/VoiceCallModal.tsx:14-31 | decoding an encoded binary string gives back the bytes |
| Voice.BinaryRoundTrip | components/VoiceCallModal.tsx:14-31 | a string survives the trip through bytes exactly when every char is below 256 |
| Voice.EncodeAudio | components/VoiceCallModal.tsx:14-19 | the loop builds the binary string of the whole array |
| Voice.DecodeAudio | components/VoiceCallModal.tsx:24-31 | the loop fills a fresh array with the bytes of the string |
| Voice.InitialValid | components/VoiceCallModal.tsx:55-74 | the initial state satisfies the session invariant |
| Voice.LineIsTrimmed | components/VoiceCallModal.tsx:140-146 | an emitted line is non-empty, has the buffer's sender, has no whitespace at either end, and trims to itself |
| Voice.DrainedIsBlank | components/VoiceCallModal.tsx:139-148 | a flushed buffer is blank, so it stays and emits nothing on the next flush |
| Voice.FlushProperties | components/VoiceCallModal.tsx:139-148 | at most two lines, the user's before the contact's, each trimmed and non-empty; a second flush emits nothing and changes nothing |
| Voice.AfterPart | components/VoiceCallModal.tsx:321-347 | a part without data changes nothing; audio raises the speaking flag and moves the cursor to max(cursor, now); a decoded buffer starts there as a new live source and pushes the cursor past its end |
| Voice.HandlesBetween | components/VoiceCallModal.tsx:347 | the handles in a range, as a set |
| Voice.ScheduleTimeline | components/VoiceCallModal.tsx:317-353 | scheduling only adds sources with consecutive handles and keeps the other fields; the cursor never moves back; new playbacks lie between the old and new cursor, each after the one before |
| Voice.ScheduleShape | components/VoiceCallModal.tsx:317-353 | the parts loop adds one live source and one playback per decoded part, with consecutive handles, raises the speaking flag exactly when some part has audio, and changes nothing else |
| Voice.ScheduleOrder | components/VoiceCallModal.tsx:325-346 | the cursor never moves back, and the new playbacks lie between the old and the new cursor without overlapping |
| Voice.BackToBack | components/VoiceCallModal.tsx:325-346 | parts each arriving by the cursor the parts before them leave play gaplessly: the first starts at the old cursor, each next where the last ends, and the cursor ends at the last end |
| Voice.ScheduleKeepsValid | components/VoiceCallModal.tsx:317-353 | scheduling keeps live sources non-overlapping and all ending by the cursor |
| Voice.Cleaned | components/VoiceCallModal.tsx:97-137 | every live source is stopped; the cursor goes to 0 and both buffers are discarded unemitted; an active session becomes ended and silent |
| Voice.CleanupIdempotent | components/VoiceCallModal.tsx:97-137 | a second cleanup stops nothing and changes nothing |
| Voice.TurnEndFlushes | components/VoiceCallModal.tsx:305-358 | at a turn end or an interruption the lines emitted are exactly the trimmed, non-blank buffers with the message's fragments appended, the user's first, and both buffers end blank; both signals together flush once |
| Voice.InterruptStopsEverything | components/VoiceCallModal.tsx:355-365 | an interruption flushes the transcripts, emitting the buffered lines and leaving both buffers blank; it stops every live source, leaves none and a silent contact, and moves the cursor to the interruption time |
| Voice.FragmentsAccumulate | components/VoiceCallModal.tsx:306-311 | without turn end or interruption nothing is emitted and the fragments are appended in order |
| Voice.DecodeFailureKeepsSpeaking | components/VoiceCallModal.tsx:321-350 | a part that fails to decode adds no source but leaves the speaking flag up |
| Voice.ApplyKeepsValid | components/VoiceCallModal.tsx:76-396 | every event keeps the session invariant |
| Voice.ReceiveKeepsValid | components/VoiceCallModal.tsx:303-366 | a server message keeps the session invariant |
| Voice.ServerClosedKeepsValid | components/VoiceCallModal.tsx:367-371 | the close callback keeps the session invariant |
| Voice.InactiveCallbacksInert | components/VoiceCallModal.tsx:251-375 | in an inactive session the open, message, close and error callbacks change nothing and emit nothing |
| Voice.DeactivateKeepsStatus | components/VoiceCallModal.tsx:85-94 | closing the modal leaves the status as it was and the session inactive |
| Voice.StatusNotFinal | components/VoiceCallModal.tsx:251-254 | after an error or an end, an open callback in an active session reports connected |
| Voice.VoiceSession.constructor | components/VoiceCallModal.tsx:55-74 | the component's initial state |
| Voice.VoiceSession.Activate | components/VoiceCallModal.tsx:79-83 | the open-modal effect marks the session active and keeps the invariant |
| Voice.VoiceSession.Cleanup | components/VoiceCallModal.tsx:97-137 | the state and stopped sources are those of `Cleaned` |
| Voice.VoiceSession.Deactivate | components/VoiceCallModal.tsx:85-94 | the close-modal effect and the teardown, as the `Deactivate` event, keeping the invariant |
| Voice.VoiceSession.Connect | components/VoiceCallModal.tsx:201 | the session start reports connecting |
| Voice.VoiceSession.SetupFailed | components/VoiceCallModal.tsx:388-391 | a setup failure reports an error without checking `active` |
| Voice.VoiceSession.Flush | components/VoiceCallModal.tsx:139-148 | the new state and emitted lines are those of `Flushed` |
| Voice.VoiceSession.OnOpen | components/VoiceCallModal.tsx:251-254 | an active session becomes connected |
| Voice.VoiceSession.CaptureFrame | components/VoiceCallModal.tsx:271-289 | a frame is sent exactly when active and not muted when capture began, as the binary string of its bytes |
| Voice.VoiceSession.SchedulePart | components/VoiceCallModal.tsx:321-347 | one part, as `AfterPart` |
| Voice.VoiceSession.ScheduleAll | components/VoiceCallModal.tsx:317-353 | the parts loop, as `ScheduleParts` |
| Voice.VoiceSession.OnMessage | components/VoiceCallModal.tsx:303-366 | the new state, emitted lines and stopped sources are those of `Receive`, keeping the invariant |
| Voice.VoiceSession.AppendFragments | components/VoiceCallModal.tsx:306-311 | the message's transcription fragments are appended to their buffers; nothing else changes |
| Voice.VoiceSession.Interrupt | components/VoiceCallModal.tsx:355-365 | the live sources are returned as stopped, none remain, the cursor takes the interruption time and the contact falls silent |
| Voice.VoiceSession.OnClose | components/VoiceCallModal.tsx:367-371 | an unconditional flush, then ended only if active |
| Voice.VoiceSession.OnError | components/VoiceCallModal.tsx:372-375 | an active session reports an error |
| Voice.VoiceSession.OnSourceEnded | components/VoiceCallModal.tsx:338-343 | the source leaves the live set, and the speaking flag drops when the set empties |
| Voice.VoiceSession.ToggleMute | components/VoiceCallModal.tsx:394-396 | flips the mute flag |
| Social.Keywords | components/SocialProfileView.tsx:58-66 | the two image keywords of the personas, tech and coffee otherwise |
| Social.IntroByContact | components/SocialProfileView.tsx:53-66 | the personas have their own intro; otherwise the developer intro exactly when the id starts with `dev` |
| Social.PostId | components/SocialProfileView.tsx:69 | generated post ids start with `post-` |
| Social.GenerateProfile | components/SocialProfileView.tsx:52-92 | 5 posts and 3 stories, not a friend, status none, the drawn follower and following counts; post i has id `post-<id>-<i>`, time now − i days, label `<i+1> j`, caption i mod 4, likes below 200, shares below 20, unliked, no comments |
| Social.GeneratedPost | components/SocialProfileView.tsx:68-79 | a generated post's image asks for its keyword and carries the contact id; its id starts with `post-`, it is no later than now, unliked, uncommented and collapsed |
| Social.Story | components/SocialProfileView.tsx:87-89 | a story image asks for its keyword and carries the contact id |
| Social.GeneratedPostIdsDistinct | components/SocialProfileView.tsx:69 | the generated posts' ids are pairwise different |
| Social.GeneratedTimeline | components/SocialProfileView.tsx:70-72 | the generated feed is newest first, one day apart, with captions of period four |
| Social.GeneratedImagesUseKeywords | components/SocialProfileView.tsx:73-89 | every generated image and story asks for the keyword of its index and carries the contact id |
| Social.LoadedProfile | components/SocialProfileView.tsx:114-128 | the stored profile when the stored text is non-empty and parses with a `posts` array, the generated one otherwise |
| Social.NewPost | components/SocialProfileView.tsx:216-227 | a new post has id `new-<now>`, the draft text, the draft image or the fallback URL, no likes, shares or comments |
| Social.WithNewPost | components/SocialProfileView.tsx:214-229 | no profile stays none; otherwise exactly one post is put in front and everything else is kept |
| Social.Toggled | components/SocialProfileView.tsx:243-244 | the like flag flips and the count moves by one the same way; nothing else changes |
| Social.LikeToggled | components/SocialProfileView.tsx:241-247 | only posts with the id are toggled; length and order are kept |
| Social.LikeTwiceRestores | components/SocialProfileView.tsx:241-247 | liking twice restores the feed |
| Social.LikeKeepsIds | components/SocialProfileView.tsx:241-247 | liking keeps each post's id and text |
| Social.WithoutPost | components/SocialProfileView.tsx:254 | the delete filter never lengthens the feed |
| Social.DeleteProperties | components/SocialProfileView.tsx:254 | deleting removes every post with the id, keeps every other in order, and is a no-op for an absent id |
| Social.WithEditedText | components/SocialProfileView.tsx:300 | only posts with the id take the new text, all their other fields kept |
| Social.EditIdempotent | components/SocialProfileView.tsx:300 | saving the same edit twice is saving it once, and saving unchanged text is no change |
| Social.LikeAndEditCommute | components/SocialProfileView.tsx:241-300 | likes and edits commute |
| Social.ImageRequestFor | components/SocialProfileView.tsx:181-197 | no call for blank text; with a draft image an edit of it, otherwise a generation, each prompted with the text |
| Social.ImageAfter | components/SocialProfileView.tsx:199-200 | the draft image is replaced only by a non-empty URL |
| Social.ImageToast | components/SocialProfileView.tsx:199-207 | "ready" exactly for a non-empty URL, the technical error exactly when the call throws, the failure message exactly for a missing or empty URL |
| Social.ProfileView.constructor | components/SocialProfileView.tsx:95-108 | the page's initial state |
| Social.ProfileView.Load | components/SocialProfileView.tsx:114-128 | the profile becomes the loaded or generated one; nothing else changes |
| Social.ProfileView.CreatePost | components/SocialProfileView.tsx:212-233 | no-op without text or image; otherwise the post is prepended and both drafts are cleared |
| Social.ProfileView.Like | components/SocialProfileView.tsx:235-250 | toggles the posts with the id, if a profile is loaded |
| Social.ProfileView.DeletePost | components/SocialProfileView.tsx:252-258 | a confirmed delete removes the posts with the id; the menu closes either way |
| Social.ProfileView.StartEditPost | components/SocialProfileView.tsx:260-264 | editing starts on the post with its text, and the menu closes |
| Social.ProfileView.CancelEdit | components/SocialProfileView.tsx:541 | leaves editing without saving |
| Social.ProfileView.SaveEditPost | components/SocialProfileView.tsx:296-305 | no-op unless a post is being edited; otherwise the text is saved and editing ends |
| Social.ProfileView.GenerateOrEditImage | components/SocialProfileView.tsx:180-210 | the call made is `ImageRequestFor` the drafts; blank text only warns; otherwise the draft image and toast follow the outcome |
| ContactList.SearchProperties | components/ContactList.tsx:28-31 | the list shows exactly the contacts whose lower-cased name contains the lower-cased term or whose number contains the term, in roster order; an empty term shows all |
| ContactList.FilteredContacts | components/ContactList.tsx:28-31 | the filter never lengthens the roster |
| ContactList.SearchNarrows | components/ContactList.tsx:28-31 | typing more characters never brings a contact back |
| ContactList.NameMatchIgnoresCase | components/ContactList.tsx:29 | the name half of the match ignores case |
| ContactList.Preview | components/ContactList.tsx:161 | the last message, or `Tel: <number>` when it is missing or empty |
| ContactList.AvatarSource | components/ContactList.tsx:142 | the contact's picture, or the placeholder seeded by its id |
| ContactList.NewContactRow | components/ContactList.tsx:142-167 | a new contact shows its number, no badge and the placeholder avatar; its time is shown exactly when the clock reading is non-zero (a reading of 0 is falsy, and React then renders a literal "0" in the heading) |
| ContactList.RowAfterMessage | components/ContactList.tsx:153-167 | after a message the row previews its text, shows a badge exactly for a contact's message outside the open conversation, and shows the time exactly when the reading is non-zero (0 renders a literal "0") |
| ContactList.SelectingClearsBadge | components/ContactList.tsx:163-167 | opening a conversation removes the badge of that contact only |
| AdminDashboard.AdminSearchProperties | components/AdminDashboard.tsx:67-70 | the table shows exactly the contacts whose lower-cased name or id contains the lower-cased term, in order; an empty term shows all |
| AdminDashboard.AdminFiltered | components/AdminDashboard.tsx:67-70 | the filter never lengthens the roster |
| AdminDashboard.AdminSearchIgnoresCase | components/AdminDashboard.tsx:67-70 | terms that lower-case alike show the same rows |
| AdminDashboard.AdminSearchNarrows | components/AdminDashboard.tsx:67-70 | typing more characters never brings a contact back |
| AdminDashboard.StartEdit | components/AdminDashboard.tsx:32-36 | the buffer takes the contact's id, name and avatar (missing as empty) |
| AdminDashboard.SaveEdit | components/AdminDashboard.tsx:38-46 | with a non-empty id being edited, exactly {name, avatar} for it and a closed form; otherwise nothing |
| AdminDashboard.CancelEdit | components/AdminDashboard.tsx:180 | cancel closes the form and keeps the typed values |
| AdminDashboard.AvatarChosen | components/AdminDashboard.tsx:48-58 | a chosen file's data URL replaces the avatar being edited |
| AdminDashboard.EditThenSaveSendsContact | components/AdminDashboard.tsx:32-46 | editing then saving at once sends back the contact's own name and avatar |
| AdminDashboard.NothingAfterClose | components/AdminDashboard.tsx:38-46 | after a cancel or a save, saving sends nothing |
| AdminDashboard.ChosenAvatarIsSaved | components/AdminDashboard.tsx:32-58 | a picked picture is what the next save sends |
| AdminDashboard.AdminEditor.constructor | components/AdminDashboard.tsx:22-27 | empty term, closed buffer |
| AdminDashboard.EditFormFollowsButtons | components/AdminDashboard.tsx:149-180 | `editingId === contact.id`: after edit exactly that id's rows show the form, after cancel none, after saving a non-empty id none; a form open for the empty id cannot be saved and stays open; choosing a file keeps the open form |
| AdminDashboard.AdminEditor.Edit | components/AdminDashboard.tsx:32-36 | as `StartEdit`; exactly the edited contact's rows show the form |
| AdminDashboard.AdminEditor.Save | components/AdminDashboard.tsx:38-46 | as `SaveEdit`, returning the update; after a save that sends an update no row shows the form |
| AdminDashboard.AdminEditor.Cancel | components/AdminDashboard.tsx:180 | as `CancelEdit`; no row shows the form |
| AdminDashboard.AdminEditor.FileChosen | components/AdminDashboard.tsx:48-58 | as `AvatarChosen` |
| AdminDashboard.AdminEditor.SetSearchTerm | components/AdminDashboard.tsx:120 | the search box sets the term and leaves the buffer |
| AdminLogin.DecideLogin | components/AdminLoginModal.tsx:22-43 | access exactly for an accepted passcode or the admin pair; a refusal shows the error exactly when a passcode, or both username and password, were typed |
| AdminLogin.PasscodeTakesPriority | components/AdminLoginModal.tsx:25-30 | an accepted passcode grants access whatever else is typed |
| AdminLogin.MasterCodeTwoWays | components/AdminLoginModal.tsx:26-37 | the master code works as passcode and as the admin password; `yahadmin` does not work as the password |
| AdminLogin.HalfFilledIsSilent | components/AdminLoginModal.tsx:39-42 | a form with only a username or only a password is refused without an error |
| AdminLogin.LoginForm.constructor | components/AdminLoginModal.tsx:15-18 | all fields empty |
| AdminLogin.LoginForm.Reset | components/AdminLoginModal.tsx:45-51 | clears the four fields and closes |
| AdminLogin.LoginForm.Submit | components/AdminLoginModal.tsx:22-43 | success resets and closes; a refusal keeps the input and shows the error or keeps the old one |
| AdminLogin.LoginForm.Close | components/AdminLoginModal.tsx:61 | the close button keeps what was typed |
| ChatWindow.SendDraft | components/ChatWindow.tsx:40-45 | sends exactly a non-blank draft, untrimmed, and then clears it; otherwise keeps it |
| ChatWindow.SendOnce | components/ChatWindow.tsx:40-45 | what goes out is non-blank, a second press sends nothing, and the button is disabled exactly when a press sends nothing |
| ChatWindow.SentUntrimmed | components/ChatWindow.tsx:41-42 | surrounding spaces are sent |
| ChatWindow.WhitespaceNotSent | components/ChatWindow.tsx:41 | whitespace alone is not sent and stays |
| ChatWindow.Composer.constructor | components/ChatWindow.tsx:28 | the draft starts empty |
| ChatWindow.Composer.Type | components/ChatWindow.tsx:157 | the input sets the draft |
| ChatWindow.Composer.Send | components/ChatWindow.tsx:40-45 | as `SendDraft` |
| ChatWindow.Composer.KeyDown | components/ChatWindow.tsx:47-52 | Enter without Shift sends as the button does and suppresses the default; other keys do nothing |

## Left out

- Base64 (`btoa`/`atob`) is left out. `Voice.EncodeAudio` and `Voice.DecodeAudio` model the loops up to and from the binary string.
- Float PCM conversion, `decodeAudioData`, the Web Audio graph, `getUserMedia`, the live-session connection and the canvas visualizer are foreign APIs. An audio part's decoded duration and arrival time are inputs. The voice personas' wording is not modelled.
- Voice.Receive: the loop over parts `await`s each decode, so other callbacks may interleave. The model runs one message's parts without interleaving.
- Voice.Receive: a transcription object without a `text` field appends the string "undefined". The model treats such a fragment as absent.
- Voice.VoiceSession.Activate: the 100 ms start timer and its clearing on unmount are not modelled. The session start is the separate `Connect` event.
- The text of the persona prompts is not reproduced. `Gemini.Instruction` names each persona; only the generic prompt's text is modelled.
- Storage is not modelled: `localStorage` and `JSON.parse`/`JSON.stringify`. Saved data is an `Option` input. A parse failure in the App.tsx initialisers throws, which the model does not represent. In the social page a failure only selects the generated profile (`Social.ParseResult`).
- Social.LoadedProfile: a parsed value with a `posts` array but other fields missing or ill-typed is accepted by the code as is. The model represents only well-formed profiles.
- Seed.SeedContacts: every seed contact and seed message reads `Date.now()` itself (App.tsx:17-158). The model takes one `now` and subtracts each entry's fixed offset, so entries read a few milliseconds apart in the code agree exactly here. The contacts' offsets are distinct, so the recency order is the same either way. Seed.SeedMessages takes the same single reading.
- Social.GenerateProfile: each generated post reads the clock separately. The model uses one reading.
- Social.NewPost: the code reads `Date.now()` three times, for the id, the time and the fallback image (components/SocialProfileView.tsx:217-221). The model uses one reading, so the three agree.
- `toLowerCase` is modelled on ASCII letters only. Other cased letters are compared as typed.
- Strings are sequences of Unicode scalar values, not UTF-16 code units. `Voice.BinaryRoundTrip` is stated for chars below 256, where the two agree.
- Store.SortByRecency is proved sorted and a permutation. That the order among equal times is kept (the stability of `Array.prototype.sort`) is not proved.
- The App.tsx in the source set is older than the components. It passes ContactList and ChatWindow fewer props and does not render the admin, social or login views. The implementation of `onUpdateContact` is not part of the sources, so the admin save returns the update as a value.
- Snapshot import and export exist only as the `onExportXML`/`onImportXML` props of the admin dashboard. Nothing in the sources implements them.
- Toasts are modelled as the last message shown. Their timeout is presentation.
- The social page's `isGeneratingImg` flag is set and reset around one await. The model treats the call as atomic, so the flag is not modelled.
- Image uploads (`FileReader`), text enhancement, quick enhance, share and report are left out. Their effects are an AI call or a toast. The avatar and cover uploads go through the same unmodelled `onUpdateContact`.
- The admin dashboard's export and import buttons, the open-social link and logout call props only.
- Rendering, theming and the theme menu are presentation.
