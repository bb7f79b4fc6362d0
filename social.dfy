/** A contact's social profile page (components/SocialProfileView.tsx): the
    generated profile, the choice between a stored and a generated profile, the
    post-list updaters and the handlers that drive them from the page's state. */
module Social {
  import opened Types
  import opened Strings
  import opened Seqs

  datatype Comment = Comment(id: string, author: string, text: string, time: string)

  datatype Post = Post(id: string, timeRaw: int, timeLabel: string, text: string, image: string,
                       likes: int, isLiked: bool, comments: seq<Comment>, shares: int,
                       showComments: bool)

  /** `'none' | 'requested' | 'friends'`. */
  datatype FriendStatus = NoFriendship | Requested | Friends

  datatype Profile = Profile(followers: string, following: string, intro: string, isFriend: bool,
                             friendStatus: FriendStatus, stories: seq<string>, posts: seq<Post>)

  // ---------------------------------------------------------------------------
  // The generated profile
  // ---------------------------------------------------------------------------

  const Captions: seq<string> :=
    ["Profiter de l'instant présent. ✨", "Work in progress... 💻", "La vie est belle ! ☀️", "Weekend vibes 🎉"]

  const GeneratedPosts: nat := 5
  const GeneratedStories: nat := 3
  const DayMillis: nat := 86400000

  const PostImageBase: string := "https://source.unsplash.com/random/800x600?"
  const StoryImageBase: string := "https://source.unsplash.com/random/400x800?"
  const SigParam: string := "&sig="

  const NaraIntro: string := "📍 Dakar, Sénégal\n💼 Modèle & IA\n❤️ Aime le Thieboudienne et l'Afrobeats"
  const YahIntro: string := "📍 Madagascar\n🤖 MGAI Official\n🇲🇬 Fihavanana"
  const DeveloperIntro: string := "📍 Internet\n💼 Developer"
  const UserIntro: string := "📍 Internet\n💼 User"

  /** The values `Math.random` contributes, already scaled and floored: one like
      count and one share count per post, the follower and the following count. */
  datatype Draws = Draws(likes: seq<nat>, shares: seq<nat>, followers: nat, following: nat)

  /** `Math.floor(Math.random() * n)` lies in `[0, n)`. */
  predicate DrawsInRange(d: Draws) {
    && |d.likes| == GeneratedPosts && |d.shares| == GeneratedPosts
    && (forall i :: 0 <= i < GeneratedPosts ==> d.likes[i] < 200 && d.shares[i] < 20)
    && d.followers < 20 && d.following < 500
  }

  /** The two image keywords: fixed for the two AI personas, tech and coffee otherwise. */
  function Keywords(contactId: string): (kw: seq<string>)
    ensures |kw| == 2
    ensures contactId == "ai-nara" ==> kw == ["fashion", "travel"]
    ensures contactId == "ai-yah" ==> kw == ["nature", "lemur"]
    ensures contactId != "ai-nara" && contactId != "ai-yah" ==> kw == ["tech", "coffee"]
  {
    if contactId == "ai-nara" then ["fashion", "travel"]
    else if contactId == "ai-yah" then ["nature", "lemur"]
    else ["tech", "coffee"]
  }

  function Intro(contactId: string): (r: string)
  {
    if contactId == "ai-nara" then NaraIntro
    else if contactId == "ai-yah" then YahIntro
    else if "dev" <= contactId then DeveloperIntro
    else UserIntro
  }

  /** The two personas have their own introduction; every other contact is a
      developer exactly when its id starts with `dev`. */
  lemma IntroByContact(contactId: string)
    ensures contactId == "ai-nara" ==> Intro(contactId) == NaraIntro
    ensures contactId == "ai-yah" ==> Intro(contactId) == YahIntro
    ensures contactId != "ai-nara" && contactId != "ai-yah" ==>
              (Intro(contactId) == DeveloperIntro <==> "dev" <= contactId)
  {
    assert |DeveloperIntro| != |UserIntro|;
  }

  function PostId(contactId: string, i: nat): (r: string)
    ensures "post-" <= r
  {
    "post-" + contactId + "-" + NatToString(i)
  }

  function GeneratedPost(contactId: string, now: int, kw: seq<string>, i: nat, likes: nat, shares: nat): (p: Post)
    requires |kw| == 2
    ensures Includes(p.image, kw[i % 2]) && Includes(p.image, contactId)
    ensures "post-" <= p.id && p.timeRaw <= now
    ensures !p.isLiked && p.comments == [] && !p.showComments
  {
    ImageMentions(PostImageBase, kw[i % 2], SigParam, contactId, NatToString(i));
    Post(PostId(contactId, i), now - i * DayMillis, NatToString(i + 1) + " j", Captions[i % 4],
         PostImageBase + kw[i % 2] + SigParam + contactId + NatToString(i),
         likes, false, [], shares, false)
  }

  function Story(contactId: string, kw: seq<string>, i: nat): (r: string)
    requires |kw| == 2
    ensures Includes(r, kw[i % 2]) && Includes(r, contactId)
  {
    assert StoryImageBase + kw[i % 2] + SigParam + contactId + "story" + NatToString(i) ==
           StoryImageBase + kw[i % 2] + SigParam + contactId + ("story" + NatToString(i));
    ImageMentions(StoryImageBase, kw[i % 2], SigParam, contactId, "story" + NatToString(i));
    StoryImageBase + kw[i % 2] + SigParam + contactId + "story" + NatToString(i)
  }

  /** `generateRandomProfile`, with the clock reading and the random draws as inputs. */
  function GenerateProfile(contactId: string, now: int, d: Draws): (p: Profile)
    requires DrawsInRange(d)
    ensures |p.posts| == GeneratedPosts && |p.stories| == GeneratedStories
    ensures !p.isFriend && p.friendStatus == NoFriendship && p.intro == Intro(contactId)
    ensures p.followers == NatToString(d.followers) + "k" && p.following == NatToString(d.following)
    ensures forall i :: 0 <= i < GeneratedPosts ==>
              && p.posts[i].id == PostId(contactId, i)
              && p.posts[i].timeRaw == now - i * DayMillis
              && p.posts[i].timeLabel == NatToString(i + 1) + " j"
              && p.posts[i].text == Captions[i % 4]
              && 0 <= p.posts[i].likes < 200 && 0 <= p.posts[i].shares < 20
              && !p.posts[i].isLiked && p.posts[i].comments == [] && !p.posts[i].showComments
  {
    var kw := Keywords(contactId);
    Profile(NatToString(d.followers) + "k", NatToString(d.following), Intro(contactId), false,
            NoFriendship,
            seq(GeneratedStories, i requires 0 <= i < GeneratedStories => Story(contactId, kw, i)),
            seq(GeneratedPosts, i requires 0 <= i < GeneratedPosts =>
                  GeneratedPost(contactId, now, kw, i, d.likes[i], d.shares[i])))
  }

  /** The generated posts have pairwise different ids, all built from the contact id. */
  lemma GeneratedPostIdsDistinct(contactId: string, now: int, d: Draws, i: nat, j: nat)
    requires DrawsInRange(d)
    requires i < GeneratedPosts && j < GeneratedPosts && i != j
    ensures var p := GenerateProfile(contactId, now, d);
            p.posts[i].id != p.posts[j].id
  {
    var a := PostId(contactId, i);
    var b := PostId(contactId, j);
    assert a[|a| - 1] == DigitChar(i);
    assert b[|b| - 1] == DigitChar(j);
  }

  /** The generated feed is newest first, one day apart, and its captions repeat
      with period four. */
  lemma GeneratedTimeline(contactId: string, now: int, d: Draws, i: nat, j: nat)
    requires DrawsInRange(d)
    requires i < j < GeneratedPosts
    ensures var p := GenerateProfile(contactId, now, d);
            && p.posts[i].timeRaw > p.posts[j].timeRaw
            && p.posts[i].timeRaw - p.posts[j].timeRaw == (j - i) * DayMillis
            && p.posts[4].text == p.posts[0].text
  {
  }

  /** A URL `<base><keyword><sig><id><tail>` mentions both the keyword and the id. */
  lemma ImageMentions(base: string, k: string, sig: string, contactId: string, tail: string)
    ensures Includes(base + k + sig + contactId + tail, k)
    ensures Includes(base + k + sig + contactId + tail, contactId)
  {
    var u := base + k + sig + contactId + tail;
    assert u == base + k + (sig + contactId + tail);
    OccursInConcat(base, k, sig + contactId + tail);
    assert OccursAt(u, k, |base|);
    OccursInConcat(base + k + sig, contactId, tail);
    assert OccursAt(u, contactId, |base + k + sig|);
  }

  /** Every generated post image and story asks for one of the contact's two
      keywords and carries the contact id in its signature. */
  lemma GeneratedImagesUseKeywords(contactId: string, now: int, d: Draws, i: nat)
    requires DrawsInRange(d) && i < GeneratedPosts
    ensures var p := GenerateProfile(contactId, now, d);
            var kw := Keywords(contactId);
            && Includes(p.posts[i].image, kw[i % 2]) && Includes(p.posts[i].image, contactId)
            && (i < GeneratedStories ==>
                  Includes(p.stories[i], kw[i % 2]) && Includes(p.stories[i], contactId))
  {
    var kw := Keywords(contactId);
    var p := GenerateProfile(contactId, now, d);
    assert p.posts[i] == GeneratedPost(contactId, now, kw, i, d.likes[i], d.shares[i]);
    if i < GeneratedStories {
      assert p.stories[i] == Story(contactId, kw, i);
    }
  }

  // ---------------------------------------------------------------------------
  // Loading
  // ---------------------------------------------------------------------------

  /** What `JSON.parse` made of the stored text: it threw, it gave something
      without a `posts` array, or it gave a profile. */
  datatype ParseResult = ParseThrew | NoPostsArray | WithPosts(profile: Profile)

  /** The stored profile is used when the stored text is non-empty and parses to
      something with a `posts` array; in every other case the generated one is. */
  function LoadedProfile(stored: Option<string>, parsed: ParseResult, generated: Profile): (p: Profile)
    ensures Truthy(stored) && parsed.WithPosts? ==> p == parsed.profile
    ensures !Truthy(stored) || !parsed.WithPosts? ==> p == generated
  {
    if Truthy(stored) && parsed.WithPosts? then parsed.profile else generated
  }

  // ---------------------------------------------------------------------------
  // Post-list updaters
  // ---------------------------------------------------------------------------

  const FallbackImageBase: string := "https://source.unsplash.com/random/800x600?tech&sig="
  const JustNowLabel: string := "À l'instant"

  /** `!newPostText.trim() && !newPostImage` is false. */
  predicate CanPost(text: string, image: Option<string>) {
    !IsBlank(text) || Truthy(image)
  }

  /** The post `handleCreatePost` builds. */
  function NewPost(text: string, image: Option<string>, now: nat): (p: Post)
    ensures p.id == "new-" + NatToString(now) && p.timeRaw == now && p.timeLabel == JustNowLabel
    ensures p.text == text
    ensures Truthy(image) ==> p.image == image.value
    ensures !Truthy(image) ==> p.image == FallbackImageBase + NatToString(now)
    ensures p.likes == 0 && !p.isLiked && p.comments == [] && p.shares == 0 && !p.showComments
  {
    Post("new-" + NatToString(now), now, JustNowLabel, text,
         OrElse(image, FallbackImageBase + NatToString(now)), 0, false, [], 0, false)
  }

  /** The creation updater: no profile stays no profile; otherwise the post goes
      in front and the rest of the profile is kept. */
  function WithNewPost(prev: Option<Profile>, post: Post): (r: Option<Profile>)
    ensures r.Some? <==> prev.Some?
    ensures prev.Some? ==> |r.value.posts| == |prev.value.posts| + 1
    ensures prev.Some? ==> r.value.posts[0] == post && r.value.posts[1..] == prev.value.posts
    ensures prev.Some? ==> r.value == prev.value.(posts := r.value.posts)
  {
    match prev
    case None => None
    case Some(p) => Some(p.(posts := [post] + p.posts))
  }

  /** One post with its like flag flipped and its count moved the same way. */
  function Toggled(p: Post): (r: Post)
    ensures r.isLiked == !p.isLiked
    ensures r.likes == if r.isLiked then p.likes + 1 else p.likes - 1
    ensures r == p.(isLiked := r.isLiked, likes := r.likes)
  {
    var liked := !p.isLiked;
    p.(isLiked := liked, likes := p.likes + if liked then 1 else -1)
  }

  /** The like updater's `map`: every post with the id is toggled, the others
      are kept. */
  function LikeToggled(posts: seq<Post>, postId: string): (r: seq<Post>)
    ensures |r| == |posts|
    ensures forall i :: 0 <= i < |posts| && posts[i].id == postId ==> r[i] == Toggled(posts[i])
    ensures forall i :: 0 <= i < |posts| && posts[i].id != postId ==> r[i] == posts[i]
  {
    if posts == [] then []
    else [if posts[0].id == postId then Toggled(posts[0]) else posts[0]] + LikeToggled(posts[1..], postId)
  }

  /** Liking twice restores the post; as a consequence, toggling the same id
      twice restores the whole feed. */
  lemma LikeTwiceRestores(posts: seq<Post>, postId: string)
    ensures LikeToggled(LikeToggled(posts, postId), postId) == posts
  {
    var once := LikeToggled(posts, postId);
    var twice := LikeToggled(once, postId);
    forall i | 0 <= i < |posts| ensures twice[i] == posts[i] {
      assert once[i].id == posts[i].id;
    }
  }

  /** Liking never changes which posts there are, nor their order. */
  lemma LikeKeepsIds(posts: seq<Post>, postId: string, i: int)
    requires 0 <= i < |posts|
    ensures LikeToggled(posts, postId)[i].id == posts[i].id
    ensures LikeToggled(posts, postId)[i].text == posts[i].text
  {
  }

  /** The delete updater: the posts without the id, in their order. */
  function WithoutPost(posts: seq<Post>, postId: string): (r: seq<Post>)
    ensures |r| <= |posts|
  {
    Filter((p: Post) => p.id != postId, posts)
  }

  /** Deleting removes every post with the id and keeps every other post, in
      its original order; deleting an id that no post has changes nothing. */
  lemma DeleteProperties(posts: seq<Post>, postId: string)
    ensures forall p :: p in WithoutPost(posts, postId) <==> p in posts && p.id != postId
    ensures IsSubsequence(WithoutPost(posts, postId), posts)
    ensures (forall i :: 0 <= i < |posts| ==> posts[i].id != postId) ==>
              WithoutPost(posts, postId) == posts
  {
    var keep := (p: Post) => p.id != postId;
    forall p ensures p in Filter(keep, posts) <==> p in posts && p.id != postId {
      FilterMembership(keep, posts, p);
    }
    FilterIsSubsequence(keep, posts);
    if forall i :: 0 <= i < |posts| ==> posts[i].id != postId {
      FilterKeepsAll(keep, posts);
    }
  }

  /** The save-edit updater's `map`: posts with the id take the new text, with
      every other field intact; the other posts are kept. */
  function WithEditedText(posts: seq<Post>, postId: string, text: string): (r: seq<Post>)
    ensures |r| == |posts|
    ensures forall i :: 0 <= i < |posts| && posts[i].id == postId ==> r[i] == posts[i].(text := text)
    ensures forall i :: 0 <= i < |posts| && posts[i].id != postId ==> r[i] == posts[i]
  {
    if posts == [] then []
    else [if posts[0].id == postId then posts[0].(text := text) else posts[0]]
         + WithEditedText(posts[1..], postId, text)
  }

  /** Saving the same edit again changes nothing, and saving a post's own text
      back is no change at all when it is the only post with the id. */
  lemma EditIdempotent(posts: seq<Post>, postId: string, text: string)
    ensures WithEditedText(WithEditedText(posts, postId, text), postId, text) ==
            WithEditedText(posts, postId, text)
    ensures (forall i :: 0 <= i < |posts| && posts[i].id == postId ==> posts[i].text == text) ==>
              WithEditedText(posts, postId, text) == posts
  {
    var once := WithEditedText(posts, postId, text);
    var twice := WithEditedText(once, postId, text);
    forall i | 0 <= i < |posts| ensures twice[i] == once[i] {
      assert once[i].id == posts[i].id;
    }
    if forall i :: 0 <= i < |posts| && posts[i].id == postId ==> posts[i].text == text {
      forall i | 0 <= i < |posts| ensures once[i] == posts[i] {
        if posts[i].id == postId {
          assert posts[i].(text := text) == posts[i];
        }
      }
    }
  }

  /** Likes and edits act on different fields, so their order does not matter. */
  lemma LikeAndEditCommute(posts: seq<Post>, likedId: string, editedId: string, text: string)
    ensures LikeToggled(WithEditedText(posts, editedId, text), likedId) ==
            WithEditedText(LikeToggled(posts, likedId), editedId, text)
  {
    var a := LikeToggled(WithEditedText(posts, editedId, text), likedId);
    var b := WithEditedText(LikeToggled(posts, likedId), editedId, text);
    forall i | 0 <= i < |posts| ensures a[i] == b[i] {
      assert WithEditedText(posts, editedId, text)[i].id == posts[i].id;
      assert LikeToggled(posts, likedId)[i].id == posts[i].id;
    }
  }

  // ---------------------------------------------------------------------------
  // Image generation
  // ---------------------------------------------------------------------------

  /** Which image call the button makes: an edit of the draft image, or a fresh
      generation, each prompted with the draft text. */
  datatype ImageRequest = EditImage(image: string, prompt: string) | GenerateImage(prompt: string)

  /** What the image call did: returned a possibly missing or empty URL, or threw. */
  datatype ImageOutcome = ImageReturned(url: Option<string>) | ImageThrew

  const WriteTextFirst: string := "Écrivez d'abord un texte pour générer ou modifier l'image."
  const ImageReady: string := "Image prête ! ✨"
  const ImageFailed: string := "Erreur lors de la création de l'image."
  const ImageTechnicalError: string := "Erreur technique IA."
  const PostCreated: string := "Publication créée ! 🎉"
  const PostDeleted: string := "Publication supprimée."
  const EditSaved: string := "Modification enregistrée !"

  /** A blank draft text makes no call; with a draft image the image is edited,
      without one a new image is generated. */
  function ImageRequestFor(text: string, image: Option<string>): (r: Option<ImageRequest>)
    ensures r.None? <==> IsBlank(text)
    ensures r.Some? ==> r.value.prompt == text
    ensures r.Some? ==> (r.value.EditImage? <==> Truthy(image))
    ensures r.Some? && r.value.EditImage? ==> r.value.image == image.value
  {
    if IsBlank(text) then None
    else if Truthy(image) then Some(EditImage(image.value, text))
    else Some(GenerateImage(text))
  }

  /** The draft image after the call: replaced only by a non-empty URL. */
  function ImageAfter(image: Option<string>, outcome: ImageOutcome): (r: Option<string>)
    ensures outcome.ImageReturned? && Truthy(outcome.url) ==> r == outcome.url
    ensures !(outcome.ImageReturned? && Truthy(outcome.url)) ==> r == image
  {
    if outcome.ImageReturned? && Truthy(outcome.url) then outcome.url else image
  }

  /** The toast the call ends with. */
  function ImageToast(outcome: ImageOutcome): (r: string)
    ensures r == ImageReady <==> outcome.ImageReturned? && Truthy(outcome.url)
    ensures r == ImageTechnicalError <==> outcome.ImageThrew?
    ensures r == ImageFailed <==> outcome.ImageReturned? && !Truthy(outcome.url)
  {
    match outcome
    case ImageThrew => ImageTechnicalError
    case ImageReturned(url) => if Truthy(url) then ImageReady else ImageFailed
  }

  // ---------------------------------------------------------------------------
  // The page's state and handlers
  // ---------------------------------------------------------------------------

  /** The state the handlers read and set. `toast` is the message last shown. */
  class ProfileView {
    var profile: Option<Profile>
    var newPostText: string
    var newPostImage: Option<string>
    var openMenuId: Option<string>
    var editingPostId: Option<string>
    var editingPostText: string
    var toast: Option<string>

    constructor ()
      ensures profile == None && newPostText == "" && newPostImage == None
      ensures openMenuId == None && editingPostId == None && editingPostText == "" && toast == None
    {
      profile, newPostText, newPostImage := None, "", None;
      openMenuId, editingPostId, editingPostText, toast := None, None, "", None;
    }

    /** The load effect: the stored profile if it is acceptable, a generated one otherwise. */
    method Load(contactId: string, stored: Option<string>, parsed: ParseResult, now: int, d: Draws)
      requires DrawsInRange(d)
      modifies this
      ensures profile == Some(LoadedProfile(stored, parsed, GenerateProfile(contactId, now, d)))
      ensures newPostText == old(newPostText) && newPostImage == old(newPostImage)
      ensures openMenuId == old(openMenuId) && editingPostId == old(editingPostId)
      ensures editingPostText == old(editingPostText) && toast == old(toast)
    {
      profile := Some(LoadedProfile(stored, parsed, GenerateProfile(contactId, now, d)));
    }

    /** `handleCreatePost`: nothing happens without text or image; otherwise the
        post is prepended and both drafts are cleared. */
    method CreatePost(now: nat)
      modifies this
      ensures !CanPost(old(newPostText), old(newPostImage)) ==>
                profile == old(profile) && newPostText == old(newPostText)
                && newPostImage == old(newPostImage) && toast == old(toast)
      ensures CanPost(old(newPostText), old(newPostImage)) ==>
                && profile == WithNewPost(old(profile), NewPost(old(newPostText), old(newPostImage), now))
                && newPostText == "" && newPostImage == None && toast == Some(PostCreated)
      ensures openMenuId == old(openMenuId) && editingPostId == old(editingPostId)
      ensures editingPostText == old(editingPostText)
    {
      if !CanPost(newPostText, newPostImage) {
        return;
      }
      profile := WithNewPost(profile, NewPost(newPostText, newPostImage, now));
      newPostText, newPostImage := "", None;
      toast := Some(PostCreated);
    }

    /** `handleLike`. */
    method Like(postId: string)
      modifies this
      ensures old(profile).None? ==> profile == None
      ensures old(profile).Some? ==>
                profile == Some(old(profile).value.(posts := LikeToggled(old(profile).value.posts, postId)))
      ensures newPostText == old(newPostText) && newPostImage == old(newPostImage)
      ensures openMenuId == old(openMenuId) && editingPostId == old(editingPostId)
      ensures editingPostText == old(editingPostText) && toast == old(toast)
    {
      if profile.None? {
        return;
      }
      profile := Some(profile.value.(posts := LikeToggled(profile.value.posts, postId)));
    }

    /** `handleDeletePost`, with the user's answer to the confirmation as input;
        the menu closes either way. */
    method DeletePost(postId: string, confirmed: bool)
      modifies this
      ensures confirmed && old(profile).Some? ==>
                profile == Some(old(profile).value.(posts := WithoutPost(old(profile).value.posts, postId)))
      ensures !confirmed || old(profile).None? ==> profile == old(profile)
      ensures toast == if confirmed then Some(PostDeleted) else old(toast)
      ensures openMenuId == None
      ensures newPostText == old(newPostText) && newPostImage == old(newPostImage)
      ensures editingPostId == old(editingPostId) && editingPostText == old(editingPostText)
    {
      if confirmed {
        if profile.Some? {
          profile := Some(profile.value.(posts := WithoutPost(profile.value.posts, postId)));
        }
        toast := Some(PostDeleted);
      }
      openMenuId := None;
    }

    /** `handleStartEditPost`. */
    method StartEditPost(post: Post)
      modifies this
      ensures editingPostId == Some(post.id) && editingPostText == post.text && openMenuId == None
      ensures profile == old(profile) && newPostText == old(newPostText)
      ensures newPostImage == old(newPostImage) && toast == old(toast)
    {
      editingPostId, editingPostText, openMenuId := Some(post.id), post.text, None;
    }

    /** The edit form's cancel button: leaves editing without saving. */
    method CancelEdit()
      modifies this
      ensures editingPostId == None
      ensures profile == old(profile) && editingPostText == old(editingPostText)
      ensures newPostText == old(newPostText) && newPostImage == old(newPostImage)
      ensures openMenuId == old(openMenuId) && toast == old(toast)
    {
      editingPostId := None;
    }

    /** `handleSaveEditPost`: a no-op unless a post is being edited. */
    method SaveEditPost()
      modifies this
      ensures !Truthy(old(editingPostId)) ==>
                profile == old(profile) && editingPostId == old(editingPostId) && toast == old(toast)
      ensures Truthy(old(editingPostId)) ==>
                && editingPostId == None && toast == Some(EditSaved)
                && (old(profile).None? ==> profile == None)
                && (old(profile).Some? ==>
                      profile == Some(old(profile).value.(posts :=
                        WithEditedText(old(profile).value.posts, old(editingPostId).value, old(editingPostText)))))
      ensures editingPostText == old(editingPostText)
      ensures newPostText == old(newPostText) && newPostImage == old(newPostImage)
      ensures openMenuId == old(openMenuId)
    {
      if Truthy(editingPostId) {
        if profile.Some? {
          profile := Some(profile.value.(posts :=
            WithEditedText(profile.value.posts, editingPostId.value, editingPostText)));
        }
        editingPostId := None;
        toast := Some(EditSaved);
      }
    }

    /** `handleGenerateOrEditImage`, with the outcome of the image call as input:
        returns which call was made, if any. */
    method GenerateOrEditImage(outcome: ImageOutcome) returns (request: Option<ImageRequest>)
      modifies this
      ensures request == ImageRequestFor(old(newPostText), old(newPostImage))
      ensures request.None? ==> newPostImage == old(newPostImage) && toast == Some(WriteTextFirst)
      ensures request.Some? ==>
                newPostImage == ImageAfter(old(newPostImage), outcome) && toast == Some(ImageToast(outcome))
      ensures profile == old(profile) && newPostText == old(newPostText)
      ensures openMenuId == old(openMenuId) && editingPostId == old(editingPostId)
      ensures editingPostText == old(editingPostText)
    {
      request := ImageRequestFor(newPostText, newPostImage);
      if request.None? {
        toast := Some(WriteTextFirst);
        return;
      }
      newPostImage := ImageAfter(newPostImage, outcome);
      toast := Some(ImageToast(outcome));
    }
  }
}
