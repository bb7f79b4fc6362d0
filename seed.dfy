/** The built-in contacts and conversations shipped with the application
    (App.tsx), evaluated at the moment `now` the module is loaded. */
module Seed {
  import opened Types

  const YahName: string := "YAH (MGAI 🇲🇬)"
  const YahPhone: string := "+261 34 04 999 99"
  const YahAvatar: string := "https://images.unsplash.com/photo-1620066127282-3d5f96e42636?auto=format&fit=crop&w=200&q=80"
  const YahPreview: string := "Manao ahoana tompoko! 🇲🇬"
  const NaraPhone: string := "+221 77 123 45 67"
  const NaraAvatar: string := "https://images.unsplash.com/photo-1531123897727-8f129e1688ce?auto=format&fit=crop&w=200&q=80"
  const NaraPhotoFound: string := "Je viens de retrouver cette photo !"
  const MarcName: string := "Marc (Backend Expert)"
  const MarcPhone: string := "+1 555 019 2834"
  const MarcAvatar: string := "https://images.unsplash.com/photo-1506794778202-cad84cf45f1d?auto=format&fit=crop&w=200&q=80"
  const MarcPreview: string := "Let's discuss the API schema."
  const SarahName: string := "Sarah (Frontend Lead)"
  const SarahPhone: string := "+1 555 019 5555"
  const SarahAvatar: string := "https://images.unsplash.com/photo-1494790108377-be9c29b29330?auto=format&fit=crop&w=200&q=80"
  const SarahPreview: string := "The new design system components are ready."
  const AlexName: string := "Alex (DevOps Pro)"
  const AlexPhone: string := "+1 555 019 9999"
  const AlexAvatar: string := "https://images.unsplash.com/photo-1472099645785-5658abf4ff4e?auto=format&fit=crop&w=200&q=80"
  const AlexPreview: string := "Deployment pipeline is green. 🟢"
  const SupportName: string := "Gemini AI Support"
  const SupportPhone: string := "+1 555 010 2020"
  const SupportAvatar: string := "https://picsum.photos/seed/gemini/200"
  const SupportGreeting: string := "Hello! How can I help you today?"
  const AliceName: string := "Alice Wonderland"
  const AlicePhone: string := "+44 7911 123456"
  const AliceAvatar: string := "https://picsum.photos/seed/alice/200"
  const AliceFarewell: string := "See you tomorrow!"
  const YahWelcome: string := "Manao ahoana tompoko! 👋 YAH no anarako, DI-n'i Madagasikara. Faly mandray anao aho. Ahoana no afahako manampy anao anio? 🇲🇬"
  const NaraHello: string := "Salut ! 👋 Je suis Nara. Ravie de faire ta connaissance."
  const NaraCulture: string := "J'adore partager ma culture et mes souvenirs. Regarde, c'était lors de mon dernier voyage à Dakar."
  const NaraCulturePhoto: string := "https://images.unsplash.com/photo-1534528741775-53994a69daeb?auto=format&fit=crop&w=500&q=80"
  const NaraLatestPhoto: string := "https://images.unsplash.com/photo-1531746020798-e6953c6e8e04?auto=format&fit=crop&w=500&q=80"
  const MarcMigration: string := "Hey. I've reviewed the database migration plan. We need to optimize the indexing strategy before deployment."
  const SarahComponents: string := "Hi! I just pushed the new UI components. Let me know what you think about the micro-interactions on the button hover states."
  const AlexDeployment: string := "Production deployment finished successfully. All systems operational. 🟢"

  /** `INITIAL_CONTACTS`; the unread counter is absent where the source omits it. */
  function SeedContacts(now: int): (r: seq<Contact>)
    ensures |r| == 7
  {
    [ Contact("ai-yah", YahName, YahPhone, Some(YahAvatar), None,
              Some(YahPreview), Some(now - 10000), Some(1)),
      Contact("ai-nara", "Nara", NaraPhone, Some(NaraAvatar), None,
              Some(NaraPhotoFound), Some(now - 300000), Some(2)),
      Contact("dev-marc", MarcName, MarcPhone, Some(MarcAvatar), None,
              Some(MarcPreview), Some(now - 50000), Some(1)),
      Contact("dev-sarah", SarahName, SarahPhone, Some(SarahAvatar), None,
              Some(SarahPreview), Some(now - 150000), None),
      Contact("dev-alex", AlexName, AlexPhone, Some(AlexAvatar), None,
              Some(AlexPreview), Some(now - 600000), None),
      Contact("1", SupportName, SupportPhone, Some(SupportAvatar), None,
              Some(SupportGreeting), Some(now - 800000), Some(0)),
      Contact("2", AliceName, AlicePhone, Some(AliceAvatar), None,
              Some(AliceFarewell), Some(now - 3600000), None) ]
  }

  /** `INITIAL_MESSAGES`. */
  function SeedMessages(now: int): (r: ChatState)
    ensures r.Keys == {"ai-yah", "ai-nara", "dev-marc", "dev-sarah", "dev-alex", "1", "2"}
  {
    map[
      "ai-yah" := [Message("y1", "ai-yah", ContactSender, YahWelcome, None, now - 10000, Delivered)],
      "ai-nara" := [
        Message("n1", "ai-nara", ContactSender, NaraHello, None, now - 400000, Read),
        Message("n2", "ai-nara", ContactSender, NaraCulture, Some(NaraCulturePhoto), now - 350000, Read),
        Message("n3", "ai-nara", ContactSender, NaraPhotoFound, Some(NaraLatestPhoto), now - 300000, Delivered)],
      "dev-marc" := [Message("dm1", "dev-marc", ContactSender, MarcMigration, None, now - 50000, Delivered)],
      "dev-sarah" := [Message("ds1", "dev-sarah", ContactSender, SarahComponents, None, now - 150000, Read)],
      "dev-alex" := [Message("da1", "dev-alex", ContactSender, AlexDeployment, None, now - 600000, Read)],
      "1" := [Message("m1", "1", ContactSender, SupportGreeting, None, now - 100000, Read)],
      "2" := [Message("m2", "2", ContactSender, AliceFarewell, None, now - 3600000, Read)]
    ]
  }

  /** Every seeded conversation belongs to a seeded contact. */
  lemma SeedConversationsHaveContacts(now: int)
    ensures forall k :: k in SeedMessages(now) ==> k in Ids(SeedContacts(now))
  {
    assert Ids(SeedContacts(now)) == ["ai-yah", "ai-nara", "dev-marc", "dev-sarah", "dev-alex", "1", "2"];
  }
}
