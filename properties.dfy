/**
 * What the instructions promise together: the record invariants every
 * instruction keeps, the exactness of the like, comment and follower
 * counters, conservation of lamports, the indexing of posted works, and what
 * closing and re-creating a profile does to them.
 */
module Properties {
  import opened Records
  import opened Ledger
  import opened Handlers

  // ---------------------------------------------------------------------
  // Record invariants
  // ---------------------------------------------------------------------

  /** Each record agrees with the seeds it is stored under and keeps the bounds its handler checks. */
  ghost predicate Valid(s: State) {
    && ProfilesValid(s.profiles)
    && FollowersValid(s.followers)
    && WorksValid(s.works)
    && InteractionsValid(s.interactions, s.works)
    && CollabsValid(s.collabs)
  }

  ghost predicate ProfilesValid(profiles: map<Pubkey, ArtistProfile>) {
    forall k :: k in profiles ==>
      profiles[k].owner == k && ProfileFieldsFit(profiles[k].name, profiles[k].bio, profiles[k].links)
  }

  ghost predicate FollowersValid(followers: map<(Pubkey, Pubkey), FollowerAccount>) {
    forall k :: k in followers ==>
      followers[k].follower == k.1 && followers[k].artist == k.0 && followers[k].isFollowing
  }

  ghost predicate WorksValid(works: map<WorkId, Work>) {
    forall id :: id in works ==>
      && works[id].artist == id.0
      && |works[id].title| <= MAX_TITLE_LEN && |works[id].description| <= MAX_DESCRIPTION_LEN
  }

  /** One record per (work, user), for an existing work: either the user's like or the user's comment. */
  ghost predicate InteractionsValid(interactions: map<(WorkId, Pubkey), Interaction>, works: map<WorkId, Work>) {
    forall k :: k in interactions ==>
      && interactions[k].user == k.1 && interactions[k].work == k.0 && k.0 in works
      && (interactions[k].hasLiked <==> interactions[k].comment.None?)
      && (interactions[k].comment.Some? ==> |interactions[k].comment.value| <= MAX_COMMENT_LEN)
  }

  ghost predicate CollabsValid(collabs: map<(Pubkey, Pubkey), CollabRequest>) {
    forall k :: k in collabs ==> collabs[k].requester == k.1 && collabs[k].artist == k.0
  }

  lemma GenesisValid(lamports: Lamports)
    ensures Valid(Genesis(lamports)) && CountersExact(Genesis(lamports)) && FollowerCountsExact(Genesis(lamports))
  {
  }

  lemma CreateProfileValid(s: State, owner: Pubkey, name: Text, bio: Text, links: seq<Text>, bump: u8)
    requires Valid(s) && CreateArtistProfile(s, owner, name, bio, links, bump).Ok?
    ensures Valid(CreateArtistProfile(s, owner, name, bio, links, bump).value)
  {
  }

  lemma UpdateProfileValid(s: State, profile: Pubkey, owner: Pubkey,
                           name: Option<Text>, bio: Option<Text>, links: Option<seq<Text>>)
    requires Valid(s) && UpdateArtistProfile(s, profile, owner, name, bio, links).Ok?
    ensures Valid(UpdateArtistProfile(s, profile, owner, name, bio, links).value)
  {
  }

  lemma FollowValid(s: State, profile: Pubkey, follower: Pubkey, bump: u8)
    requires Valid(s) && FollowArtist(s, profile, follower, bump).Ok?
    ensures Valid(FollowArtist(s, profile, follower, bump).value)
  {
  }

  lemma PostValid(s: State, profile: Pubkey, owner: Pubkey, title: Text, description: Text, url: Text,
                  now: i64, bump: u8)
    requires Valid(s) && PostWork(s, profile, owner, title, description, url, now, bump).Ok?
    ensures Valid(PostWork(s, profile, owner, title, description, url, now, bump).value)
  {
  }

  lemma TipValid(s: State, profile: Pubkey, tipper: Pubkey, amount: u64)
    requires Valid(s) && TipArtist(s, profile, tipper, amount).Ok?
    ensures Valid(TipArtist(s, profile, tipper, amount).value)
  {
  }

  /** Adding a well-formed interaction for an existing work, with the work keys unchanged, keeps the interactions valid. */
  lemma InsertInteractionValid(m: map<(WorkId, Pubkey), Interaction>, works: map<WorkId, Work>, works': map<WorkId, Work>,
                               key: (WorkId, Pubkey), i: Interaction)
    requires InteractionsValid(m, works) && works'.Keys == works.Keys && key.0 in works
    requires i.user == key.1 && i.work == key.0 && (i.hasLiked <==> i.comment.None?)
    requires i.comment.Some? ==> |i.comment.value| <= MAX_COMMENT_LEN
    ensures InteractionsValid(m[key := i], works')
  {
    assert forall id :: id in works' <==> id in works;
  }

  /** Replacing a work by one with the same artist, title and description keeps the works valid. */
  lemma ReplaceWorkValid(works: map<WorkId, Work>, id: WorkId, w: Work)
    requires WorksValid(works) && id in works
    requires w.artist == works[id].artist && w.title == works[id].title && w.description == works[id].description
    ensures WorksValid(works[id := w])
  {
  }

  lemma InteractValid(s: State, work: WorkId, user: Pubkey, kind: InteractionType, text: Option<Text>,
                      now: i64, bump: u8)
    requires Valid(s) && InteractWithWork(s, work, user, kind, text, now, bump).Ok?
    ensures Valid(InteractWithWork(s, work, user, kind, text, now, bump).value)
  {
    var s' := InteractWithWork(s, work, user, kind, text, now, bump).value;
    var key := (work, user);
    assert s'.interactions == s.interactions[key := s'.interactions[key]];
    assert s'.works == s.works[work := s'.works[work]];
    InsertInteractionValid(s.interactions, s.works, s'.works, key, s'.interactions[key]);
    ReplaceWorkValid(s.works, work, s'.works[work]);
  }

  lemma CreateCollabValid(s: State, profile: Pubkey, requester: Pubkey, description: Text, now: i64, bump: u8)
    requires Valid(s) && CreateCollabRequest(s, profile, requester, description, now, bump).Ok?
    ensures Valid(CreateCollabRequest(s, profile, requester, description, now, bump).value)
  {
  }

  lemma UpdateCollabValid(s: State, profile: Pubkey, requester: Pubkey, owner: Pubkey, status: CollabStatus)
    requires Valid(s) && UpdateCollabStatus(s, profile, requester, owner, status).Ok?
    ensures Valid(UpdateCollabStatus(s, profile, requester, owner, status).value)
  {
  }

  lemma WithdrawValid(s: State, profile: Pubkey, owner: Pubkey, destination: Address, amount: u64, minReserve: u64)
    requires Valid(s) && WithdrawTips(s, profile, owner, destination, amount, minReserve).Ok?
    ensures Valid(WithdrawTips(s, profile, owner, destination, amount, minReserve).value)
  {
  }

  lemma CloseValid(s: State, profile: Pubkey, artist: Pubkey, owner: Pubkey)
    requires Valid(s) && CloseArtistProfile(s, profile, artist, owner).Ok?
    ensures Valid(CloseArtistProfile(s, profile, artist, owner).value)
  {
  }

  /** Every instruction keeps every record consistent with its seeds and within its checked bounds. */
  lemma ExecutePreservesValid(s: State, ix: Instruction)
    requires Valid(s)
    ensures Valid(After(s, Execute(s, ix)))
  {
    if Execute(s, ix).Ok? {
      match ix
      case CreateArtistProfileIx(owner, name, bio, links, bump) => CreateProfileValid(s, owner, name, bio, links, bump);
      case CreateTipsVaultIx(profile, payer) =>
      case UpdateArtistProfileIx(profile, owner, name, bio, links) => UpdateProfileValid(s, profile, owner, name, bio, links);
      case FollowArtistIx(profile, follower, bump) => FollowValid(s, profile, follower, bump);
      case PostWorkIx(profile, owner, title, description, url, now, bump) =>
        PostValid(s, profile, owner, title, description, url, now, bump);
      case TipArtistIx(profile, tipper, amount) => TipValid(s, profile, tipper, amount);
      case InteractWithWorkIx(work, user, kind, text, now, bump) => InteractValid(s, work, user, kind, text, now, bump);
      case CreateCollabRequestIx(profile, requester, description, now, bump) =>
        CreateCollabValid(s, profile, requester, description, now, bump);
      case UpdateCollabStatusIx(profile, requester, owner, status) => UpdateCollabValid(s, profile, requester, owner, status);
      case WithdrawTipsIx(profile, owner, destination, amount, minReserve) =>
        WithdrawValid(s, profile, owner, destination, amount, minReserve);
      case CloseArtistProfileIx(profile, artist, owner) => CloseValid(s, profile, artist, owner);
    }
  }

  // ---------------------------------------------------------------------
  // Like and comment counters
  // ---------------------------------------------------------------------

  ghost function LikesOf(interactions: map<(WorkId, Pubkey), Interaction>, w: WorkId): set<(WorkId, Pubkey)> {
    set k | k in interactions && k.0 == w && interactions[k].hasLiked
  }

  ghost function CommentsOf(interactions: map<(WorkId, Pubkey), Interaction>, w: WorkId): set<(WorkId, Pubkey)> {
    set k | k in interactions && k.0 == w && interactions[k].comment.Some?
  }

  /** Every work's `likes` and `comment_count` are the numbers of likes and comments recorded for it. */
  ghost predicate CountersExact(s: State) {
    forall w :: w in s.works ==>
      s.works[w].likes == |LikesOf(s.interactions, w)| && s.works[w].commentCount == |CommentsOf(s.interactions, w)|
  }

  /** Storing a new record adds it to the likes or the comments of its work, and to nothing else. */
  lemma InsertCounts(m: map<(WorkId, Pubkey), Interaction>, key: (WorkId, Pubkey), i: Interaction, w: WorkId)
    requires key !in m
    ensures |LikesOf(m[key := i], w)| == |LikesOf(m, w)| + (if key.0 == w && i.hasLiked then 1 else 0)
    ensures |CommentsOf(m[key := i], w)| == |CommentsOf(m, w)| + (if key.0 == w && i.comment.Some? then 1 else 0)
  {
    if key.0 == w && i.hasLiked {
      assert LikesOf(m[key := i], w) == LikesOf(m, w) + {key};
    } else {
      assert LikesOf(m[key := i], w) == LikesOf(m, w);
    }
    if key.0 == w && i.comment.Some? {
      assert CommentsOf(m[key := i], w) == CommentsOf(m, w) + {key};
    } else {
      assert CommentsOf(m[key := i], w) == CommentsOf(m, w);
    }
  }

  lemma InteractionKeepsCountersExact(s: State, work: WorkId, user: Pubkey, kind: InteractionType,
                                      text: Option<Text>, now: i64, bump: u8)
    requires CountersExact(s)
    requires InteractWithWork(s, work, user, kind, text, now, bump).Ok?
    ensures CountersExact(InteractWithWork(s, work, user, kind, text, now, bump).value)
  {
    var s' := InteractWithWork(s, work, user, kind, text, now, bump).value;
    var key := (work, user);
    var i := s'.interactions[key];
    assert s'.interactions == s.interactions[key := i];
    assert s'.works == s.works[work := s'.works[work]];
    forall w | w in s'.works
      ensures s'.works[w].likes == |LikesOf(s'.interactions, w)|
      ensures s'.works[w].commentCount == |CommentsOf(s'.interactions, w)|
    {
      InsertCounts(s.interactions, key, i, w);
    }
  }

  lemma PostKeepsCountersExact(s: State, profile: Pubkey, owner: Pubkey, title: Text, description: Text,
                               url: Text, now: i64, bump: u8)
    requires Valid(s) && CountersExact(s)
    requires PostWork(s, profile, owner, title, description, url, now, bump).Ok?
    ensures CountersExact(PostWork(s, profile, owner, title, description, url, now, bump).value)
  {
    var s' := PostWork(s, profile, owner, title, description, url, now, bump).value;
    var id := (profile, s.profiles[profile].workCount);
    assert LikesOf(s'.interactions, id) == {};
    assert CommentsOf(s'.interactions, id) == {};
  }

  /** No instruction lets a work's counters drift from the likes and comments recorded for it. */
  lemma ExecuteKeepsCountersExact(s: State, ix: Instruction)
    requires Valid(s) && CountersExact(s)
    ensures CountersExact(After(s, Execute(s, ix)))
  {
    match ix
    case InteractWithWorkIx(work, user, kind, text, now, bump) =>
      if Execute(s, ix).Ok? { InteractionKeepsCountersExact(s, work, user, kind, text, now, bump); }
    case PostWorkIx(profile, owner, title, description, url, now, bump) =>
      if Execute(s, ix).Ok? { PostKeepsCountersExact(s, profile, owner, title, description, url, now, bump); }
    case _ =>
  }

  // ---------------------------------------------------------------------
  // Follower counters
  // ---------------------------------------------------------------------

  ghost function FollowersOf(followers: map<(Pubkey, Pubkey), FollowerAccount>, artist: Pubkey): set<(Pubkey, Pubkey)> {
    set k | k in followers && k.0 == artist
  }

  /** Every profile's `follower_count` is the number of follower records that name it. */
  ghost predicate FollowerCountsExact(s: State) {
    forall a :: a in s.profiles ==> s.profiles[a].followerCount == |FollowersOf(s.followers, a)|
  }

  lemma FollowKeepsFollowerCounts(s: State, profile: Pubkey, follower: Pubkey, bump: u8)
    requires FollowerCountsExact(s)
    requires FollowArtist(s, profile, follower, bump).Ok?
    ensures FollowerCountsExact(FollowArtist(s, profile, follower, bump).value)
  {
    var s' := FollowArtist(s, profile, follower, bump).value;
    assert s'.followers == s.followers[(profile, follower) := s'.followers[(profile, follower)]];
    assert s'.profiles == s.profiles[profile := s'.profiles[profile]];
    FollowCounted(s.profiles, s.followers, profile, follower, s'.followers[(profile, follower)]);
  }

  /** A new follower record for `profile`, together with one more on its count, keeps every count exact. */
  lemma FollowCounted(profiles: map<Pubkey, ArtistProfile>, followers: map<(Pubkey, Pubkey), FollowerAccount>,
                      profile: Pubkey, follower: Pubkey, account: FollowerAccount)
    requires forall a :: a in profiles ==> profiles[a].followerCount == |FollowersOf(followers, a)|
    requires profile in profiles && (profile, follower) !in followers
    requires profiles[profile].followerCount < U64_MAX
    ensures var profiles' := profiles[profile := profiles[profile].(followerCount := profiles[profile].followerCount + 1)];
      var followers' := followers[(profile, follower) := account];
      forall a :: a in profiles' ==> profiles'[a].followerCount == |FollowersOf(followers', a)|
  {
    var profiles' := profiles[profile := profiles[profile].(followerCount := profiles[profile].followerCount + 1)];
    var followers' := followers[(profile, follower) := account];
    forall a | a in profiles'
      ensures profiles'[a].followerCount == |FollowersOf(followers', a)|
    {
      FollowersOfInsert(followers, (profile, follower), account, a);
      if a == profile {
        assert (profile, follower) !in FollowersOf(followers, a);
      }
    }
  }

  lemma FollowersOfInsert(followers: map<(Pubkey, Pubkey), FollowerAccount>, key: (Pubkey, Pubkey),
                          account: FollowerAccount, a: Pubkey)
    ensures FollowersOf(followers[key := account], a) == FollowersOf(followers, a) + (if key.0 == a then {key} else {})
  {
  }

  /**
   * Every instruction keeps follower counts exact, except creating a profile
   * for an owner whose earlier, closed profile left follower records behind.
   */
  lemma ExecuteKeepsFollowerCounts(s: State, ix: Instruction)
    requires FollowerCountsExact(s)
    requires ix.CreateArtistProfileIx? ==> FollowersOf(s.followers, ix.owner) == {}
    ensures FollowerCountsExact(After(s, Execute(s, ix)))
  {
    match ix
    case FollowArtistIx(profile, follower, bump) =>
      if Execute(s, ix).Ok? { FollowKeepsFollowerCounts(s, profile, follower, bump); }
    case _ =>
  }

  // ---------------------------------------------------------------------
  // Lamports
  // ---------------------------------------------------------------------

  lemma TipConserves(s: State, profile: Pubkey, tipper: Pubkey, amount: u64)
    ensures Total(After(s, TipArtist(s, profile, tipper, amount)).lamports) == Total(s.lamports)
  {
    if TipArtist(s, profile, tipper, amount).Ok? {
      TransferConserves(s.lamports, Wallet(tipper), TipsVault(profile), amount);
    }
  }

  lemma WithdrawConserves(s: State, profile: Pubkey, owner: Pubkey, destination: Address, amount: u64, minReserve: u64)
    ensures Total(After(s, WithdrawTips(s, profile, owner, destination, amount, minReserve)).lamports) == Total(s.lamports)
  {
    if WithdrawTips(s, profile, owner, destination, amount, minReserve).Ok? {
      var vault := TipsVault(profile);
      var vaultBalance := Balance(s.lamports, vault);
      var debited := s.lamports[vault := vaultBalance - amount];
      TotalSet(s.lamports, vault, vaultBalance - amount);
      TotalSet(debited, destination, Balance(debited, destination) + amount);
    }
  }

  lemma CloseConserves(s: State, profile: Pubkey, artist: Pubkey, owner: Pubkey)
    ensures Total(After(s, CloseArtistProfile(s, profile, artist, owner)).lamports) == Total(s.lamports)
  {
    if CloseArtistProfile(s, profile, artist, owner).Ok? && Balance(s.lamports, TipsVault(profile)) > 0 {
      var vault := TipsVault(profile);
      var drained := s.lamports[vault := 0];
      TotalSet(s.lamports, vault, 0);
      TotalSet(drained, Wallet(artist), Balance(drained, Wallet(artist)) + Balance(s.lamports, vault));
    }
  }

  /** The instructions that neither tip, withdraw nor close leave every balance as it was. */
  lemma OthersKeepLamports(s: State, ix: Instruction)
    requires !ix.TipArtistIx? && !ix.WithdrawTipsIx? && !ix.CloseArtistProfileIx?
    ensures After(s, Execute(s, ix)).lamports == s.lamports
  {
  }

  /** No instruction creates or destroys lamports: tips, withdrawals and closing only move them. */
  lemma ExecuteConservesLamports(s: State, ix: Instruction)
    ensures Total(After(s, Execute(s, ix)).lamports) == Total(s.lamports)
  {
    match ix
    case TipArtistIx(profile, tipper, amount) => TipConserves(s, profile, tipper, amount);
    case WithdrawTipsIx(profile, owner, destination, amount, minReserve) =>
      WithdrawConserves(s, profile, owner, destination, amount, minReserve);
    case CloseArtistProfileIx(profile, artist, owner) => CloseConserves(s, profile, artist, owner);
    case _ => OthersKeepLamports(s, ix);
  }

  lemma {:induction false} RunConservesLamports(s: State, txs: seq<Instruction>)
    ensures Total(Run(s, txs).lamports) == Total(s.lamports)
    decreases |txs|
  {
    if txs != [] {
      ExecuteConservesLamports(s, txs[0]);
      RunConservesLamports(After(s, Execute(s, txs[0])), txs[1..]);
    }
  }

  /** Any sequence of transactions keeps the record invariants and the like and comment counters. */
  lemma {:induction false} RunPreservesValid(s: State, txs: seq<Instruction>)
    requires Valid(s) && CountersExact(s)
    ensures Valid(Run(s, txs)) && CountersExact(Run(s, txs))
    decreases |txs|
  {
    if txs != [] {
      ExecutePreservesValid(s, txs[0]);
      ExecuteKeepsCountersExact(s, txs[0]);
      RunPreservesValid(After(s, Execute(s, txs[0])), txs[1..]);
    }
  }

  // ---------------------------------------------------------------------
  // Posting works
  // ---------------------------------------------------------------------

  datatype Post = Post(title: Text, description: Text, contentUrl: Text)

  predicate PostFits(p: Post) {
    |p.title| <= MAX_TITLE_LEN && |p.description| <= MAX_DESCRIPTION_LEN
  }

  /** Every post keeps to the bounds. */
  predicate AllFit(posts: seq<Post>)
    decreases |posts|
  {
    posts == [] || (PostFits(posts[0]) && AllFit(posts[1..]))
  }

  /** The owner posts each work in turn. */
  function PostAll(owner: Pubkey, posts: seq<Post>, now: i64, bump: u8): (txs: seq<Instruction>)
    ensures |txs| == |posts|
    decreases |posts|
  {
    if posts == [] then []
    else [PostWorkIx(owner, owner, posts[0].title, posts[0].description, posts[0].contentUrl, now, bump)]
         + PostAll(owner, posts[1..], now, bump)
  }

  /** All of the artist's works are stored below the current work count. */
  ghost predicate WorksBelowCount(s: State, artist: Pubkey)
    requires artist in s.profiles
  {
    forall id :: id in s.works && id.0 == artist ==> id.1 < s.profiles[artist].workCount
  }

  /** The record a successful post stores: the bounded fields as given, no likes and no comments. */
  function Posted(owner: Pubkey, p: Post, now: i64, bump: u8): Work {
    Work(owner, p.title, p.description, p.contentUrl, 0, 0, now, bump)
  }

  /** The owner's posts applied one after another; the same as running `PostAll` (see `RunPostAll`). */
  ghost function RunPosts(s: State, owner: Pubkey, posts: seq<Post>, now: i64, bump: u8): State
    decreases |posts|
  {
    if posts == [] then s
    else
      var p := posts[0];
      RunPosts(After(s, PostWork(s, owner, owner, p.title, p.description, p.contentUrl, now, bump)), owner, posts[1..], now, bump)
  }

  lemma {:induction false} RunPostAll(s: State, owner: Pubkey, posts: seq<Post>, now: i64, bump: u8)
    ensures Run(s, PostAll(owner, posts, now, bump)) == RunPosts(s, owner, posts, now, bump)
    decreases |posts|
  {
    if posts != [] {
      var p := posts[0];
      var txs := PostAll(owner, posts, now, bump);
      assert txs[0] == PostWorkIx(owner, owner, p.title, p.description, p.contentUrl, now, bump);
      assert txs[1..] == PostAll(owner, posts[1..], now, bump);
      RunPostAll(After(s, PostWork(s, owner, owner, p.title, p.description, p.contentUrl, now, bump)), owner, posts[1..], now, bump);
    }
  }

  /** One post by the authorized owner, in the terms the induction below needs. */
  lemma PostOnce(s: State, owner: Pubkey, posts: seq<Post>, now: i64, bump: u8) returns (s1: State)
    requires posts != []
    requires Authorized(s, owner, owner) && WorksBelowCount(s, owner)
    requires s.profiles[owner].workCount < U8_MAX && PostFits(posts[0])
    ensures RunPosts(s, owner, posts, now, bump) == RunPosts(s1, owner, posts[1..], now, bump)
    ensures var count := s.profiles[owner].workCount;
      && Authorized(s1, owner, owner) && WorksBelowCount(s1, owner)
      && s1.profiles[owner].workCount == count + 1
      && s1.works == s.works[(owner, count) := Posted(owner, posts[0], now, bump)]
  {
    var p := posts[0];
    var count := s.profiles[owner].workCount;
    assert (owner, count) !in s.works;
    var r := PostWork(s, owner, owner, p.title, p.description, p.contentUrl, now, bump);
    s1 := r.value;
    assert s1.works == s.works[(owner, count) := s1.works[(owner, count)]];
  }

  /** Work `w` is stored under index `k` of `owner`. */
  ghost predicate StoredAt(works: map<WorkId, Work>, owner: Pubkey, k: nat, w: Work) {
    k <= U8_MAX && (owner, k as u8) in works && works[(owner, k as u8)] == w
  }

  /** The i-th of `posts` is stored under index `start + i` of `owner`. */
  ghost predicate StoredFrom(works: map<WorkId, Work>, owner: Pubkey, start: nat, posts: seq<Post>, now: i64, bump: u8) {
    forall i :: 0 <= i < |posts| ==> StoredAt(works, owner, start + i, Posted(owner, posts[i], now, bump))
  }

  /** Storing the first post and then the rest from the next index stores them all. */
  lemma StoredFromCons(works: map<WorkId, Work>, works1: map<WorkId, Work>, works': map<WorkId, Work>,
                       owner: Pubkey, start: nat, posts: seq<Post>, now: i64, bump: u8)
    requires posts != [] && start + |posts| <= U8_MAX
    requires works1 == works[(owner, start as u8) := Posted(owner, posts[0], now, bump)]
    requires forall id :: id in works1 ==> id in works' && works'[id] == works1[id]
    requires StoredFrom(works', owner, start + 1, posts[1..], now, bump)
    ensures StoredFrom(works', owner, start, posts, now, bump)
  {
    forall i | 0 <= i < |posts|
      ensures StoredAt(works', owner, start + i, Posted(owner, posts[i], now, bump))
    {
      if i == 0 {
        assert (owner, start as u8) in works1;
      } else {
        assert posts[1..][i - 1] == posts[i];
        assert StoredAt(works', owner, start + 1 + (i - 1), Posted(owner, posts[1..][i - 1], now, bump));
      }
    }
  }

  /** Posting keeps the owner's profile in place, counts every post, and leaves the existing works alone. */
  lemma {:induction false} PostingCounts(s: State, owner: Pubkey, posts: seq<Post>, now: i64, bump: u8)
    requires Authorized(s, owner, owner) && WorksBelowCount(s, owner)
    requires s.profiles[owner].workCount + |posts| <= U8_MAX
    requires AllFit(posts)
    ensures var s' := RunPosts(s, owner, posts, now, bump);
      && Authorized(s', owner, owner) && WorksBelowCount(s', owner)
      && s'.profiles[owner].workCount == s.profiles[owner].workCount + |posts|
      && (forall id :: id in s.works ==> id in s'.works && s'.works[id] == s.works[id])
    decreases |posts|
  {
    if posts != [] {
      var s1 := PostOnce(s, owner, posts, now, bump);
      PostingCounts(s1, owner, posts[1..], now, bump);
    }
  }

  /** Posting stores the i-th post under the old work count plus i. */
  lemma {:induction false} PostingStores(s: State, owner: Pubkey, posts: seq<Post>, now: i64, bump: u8)
    requires Authorized(s, owner, owner) && WorksBelowCount(s, owner)
    requires s.profiles[owner].workCount + |posts| <= U8_MAX
    requires AllFit(posts)
    ensures StoredFrom(RunPosts(s, owner, posts, now, bump).works, owner, s.profiles[owner].workCount, posts, now, bump)
    decreases |posts|
  {
    if posts != [] {
      var count := s.profiles[owner].workCount;
      var s1 := PostOnce(s, owner, posts, now, bump);
      PostingStores(s1, owner, posts[1..], now, bump);
      PostingCounts(s1, owner, posts[1..], now, bump);
      StoredFromCons(s.works, s1.works, RunPosts(s, owner, posts, now, bump).works, owner, count, posts, now, bump);
    }
  }

  /**
   * N posts that keep to the bounds, made while the artist's works all lie
   * below its work count, all succeed: the count rises by N, the works that
   * existed stay as they were, and the i-th post is stored under the old
   * count plus i, with no likes and no comments.
   */
  lemma PostingWorks(s: State, owner: Pubkey, posts: seq<Post>, now: i64, bump: u8)
    requires Authorized(s, owner, owner) && WorksBelowCount(s, owner)
    requires s.profiles[owner].workCount + |posts| <= U8_MAX
    requires AllFit(posts)
    ensures var s' := Run(s, PostAll(owner, posts, now, bump));
      && Authorized(s', owner, owner) && WorksBelowCount(s', owner)
      && s'.profiles[owner].workCount == s.profiles[owner].workCount + |posts|
      && (forall id :: id in s.works ==> id in s'.works && s'.works[id] == s.works[id])
      && StoredFrom(s'.works, owner, s.profiles[owner].workCount, posts, now, bump)
  {
    RunPostAll(s, owner, posts, now, bump);
    PostingCounts(s, owner, posts, now, bump);
    PostingStores(s, owner, posts, now, bump);
  }

  /** The 256th post fails: the work count is a `u8` and stops at 255. */
  lemma WorkCountCapped(s: State, owner: Pubkey, title: Text, description: Text, url: Text, now: i64, bump: u8)
    requires Authorized(s, owner, owner) && s.profiles[owner].workCount == U8_MAX
    requires (owner, U8_MAX as u8) !in s.works
    requires |title| <= MAX_TITLE_LEN && |description| <= MAX_DESCRIPTION_LEN
    ensures PostWork(s, owner, owner, title, description, url, now, bump) == Err(Program(NumericalOverflow))
  {
  }

  // ---------------------------------------------------------------------
  // Closing and re-creating a profile
  // ---------------------------------------------------------------------

  /**
   * Once a work at index 0 exists for an artist whose profile is absent or
   * has work count 0, no sequence of transactions lets that artist post
   * again: every post targets index 0, which is taken.
   */
  lemma {:induction false} StaleWorkBlocksPosting(s: State, artist: Pubkey, txs: seq<Instruction>)
    requires (artist, 0 as u8) in s.works
    requires artist in s.profiles ==> s.profiles[artist].workCount == 0
    ensures var s' := Run(s, txs);
      && (artist, 0 as u8) in s'.works
      && (artist in s'.profiles ==> s'.profiles[artist].workCount == 0)
    decreases |txs|
  {
    if txs != [] {
      var s1 := After(s, Execute(s, txs[0]));
      match txs[0] {
        case PostWorkIx(profile, owner, title, description, url, now, bump) =>
          if profile == artist && artist in s.profiles {
            assert PostWork(s, profile, owner, title, description, url, now, bump) == Err(Host(AccountAlreadyInUse));
          }
        case _ =>
      }
      assert Run(s, txs) == Run(s1, txs[1..]);
      StaleWorkBlocksPosting(s1, artist, txs[1..]);
    }
  }

  const ALICE: Pubkey := 1
  const FAN: Pubkey := 2

  /**
   * Create, post, close, re-create: the new profile starts at work count 0
   * while the old work 0 is still there, so its next post is refused, and so
   * is every later one.
   */
  lemma RecreatedProfileCannotPost()
    ensures var s := Run(Genesis(map[]), [
              CreateArtistProfileIx(ALICE, [], [], [], 0),
              PostWorkIx(ALICE, ALICE, [], [], [], 0, 0),
              CloseArtistProfileIx(ALICE, ALICE, ALICE),
              CreateArtistProfileIx(ALICE, [], [], [], 0)]);
      && ALICE in s.profiles && s.profiles[ALICE].workCount == 0 && (ALICE, 0 as u8) in s.works
      && PostWork(s, ALICE, ALICE, [], [], [], 0, 0) == Err(Host(AccountAlreadyInUse))
  {
    var s0 := Genesis(map[]);
    var s1 := CreateArtistProfile(s0, ALICE, [], [], [], 0).value;
    var s2 := PostWork(s1, ALICE, ALICE, [], [], [], 0, 0).value;
    var s3 := CloseArtistProfile(s2, ALICE, ALICE, ALICE).value;
    var s4 := CreateArtistProfile(s3, ALICE, [], [], [], 0).value;
    var txs := [
      CreateArtistProfileIx(ALICE, [], [], [], 0),
      PostWorkIx(ALICE, ALICE, [], [], [], 0, 0),
      CloseArtistProfileIx(ALICE, ALICE, ALICE),
      CreateArtistProfileIx(ALICE, [], [], [], 0)];
    assert txs[1..][1..][1..][1..] == [];
    assert Run(s0, txs) == Run(s1, txs[1..]);
    assert Run(s1, txs[1..]) == Run(s2, txs[1..][1..]);
    assert Run(s2, txs[1..][1..]) == Run(s3, txs[1..][1..][1..]);
    assert Run(s3, txs[1..][1..][1..]) == s4;
  }

  /**
   * Create, follow, close, re-create: the new profile counts no followers
   * although the follower record survives, and that follower can never
   * follow again.
   */
  lemma RecreatedProfileUndercountsFollowers()
    ensures var s := Run(Genesis(map[]), [
              CreateArtistProfileIx(ALICE, [], [], [], 0),
              FollowArtistIx(ALICE, FAN, 0),
              CloseArtistProfileIx(ALICE, ALICE, ALICE),
              CreateArtistProfileIx(ALICE, [], [], [], 0)]);
      && ALICE in s.profiles && s.profiles[ALICE].followerCount == 0
      && |FollowersOf(s.followers, ALICE)| == 1
      && !FollowerCountsExact(s)
      && FollowArtist(s, ALICE, FAN, 0) == Err(Host(AccountAlreadyInUse))
  {
    var s0 := Genesis(map[]);
    var s1 := CreateArtistProfile(s0, ALICE, [], [], [], 0).value;
    var s2 := FollowArtist(s1, ALICE, FAN, 0).value;
    var s3 := CloseArtistProfile(s2, ALICE, ALICE, ALICE).value;
    var s4 := CreateArtistProfile(s3, ALICE, [], [], [], 0).value;
    var txs := [
      CreateArtistProfileIx(ALICE, [], [], [], 0),
      FollowArtistIx(ALICE, FAN, 0),
      CloseArtistProfileIx(ALICE, ALICE, ALICE),
      CreateArtistProfileIx(ALICE, [], [], [], 0)];
    assert txs[1..][1..][1..][1..] == [];
    assert Run(s0, txs) == Run(s1, txs[1..]);
    assert Run(s1, txs[1..]) == Run(s2, txs[1..][1..]);
    assert Run(s2, txs[1..][1..]) == Run(s3, txs[1..][1..][1..]);
    assert Run(s3, txs[1..][1..][1..]) == s4;
    assert s4.followers == map[(ALICE, FAN) := FollowerAccount(FAN, ALICE, true, 0)];
    assert FollowersOf(s4.followers, ALICE) == {(ALICE, FAN)};
  }

  // ---------------------------------------------------------------------
  // One-shot records and authorization
  // ---------------------------------------------------------------------

  /**
   * After a user's successful like, the same user's second like, and any
   * comment of theirs, is refused by the host and the work's likes stay put.
   */
  lemma SecondInteractionRefused(s: State, work: WorkId, user: Pubkey, now: i64, bump: u8,
                                 kind: InteractionType, text: Option<Text>, later: i64, bump2: u8)
    requires InteractWithWork(s, work, user, Like, None, now, bump).Ok?
    ensures var s1 := InteractWithWork(s, work, user, Like, None, now, bump).value;
      && s1.works[work].likes == s.works[work].likes + 1
      && InteractWithWork(s1, work, user, kind, text, later, bump2) == Err(Host(AccountAlreadyInUse))
  {
  }

  /** A resolved collaboration request cannot be resolved again, whatever status is supplied. */
  lemma CollabResolvedOnce(s: State, profile: Pubkey, requester: Pubkey, owner: Pubkey,
                           first: CollabStatus, second: CollabStatus)
    requires first != Pending
    requires UpdateCollabStatus(s, profile, requester, owner, first).Ok?
    ensures var s1 := UpdateCollabStatus(s, profile, requester, owner, first).value;
      && s1.collabs[(profile, requester)].status == first
      && UpdateCollabStatus(s1, profile, requester, owner, second) == Err(Program(CollabAlreadyResolved))
  {
  }

  /** Supplying `Pending` succeeds and leaves the request open, so it can be done any number of times. */
  lemma PendingCanBeResupplied(s: State, profile: Pubkey, requester: Pubkey, owner: Pubkey)
    requires UpdateCollabStatus(s, profile, requester, owner, Pending).Ok?
    ensures var s1 := UpdateCollabStatus(s, profile, requester, owner, Pending).value;
      && s1 == s
      && UpdateCollabStatus(s1, profile, requester, owner, Pending).Ok?
  {
    var c := s.collabs[(profile, requester)];
    assert c.(status := Pending) == c;
    assert s.collabs[(profile, requester) := c] == s.collabs;
  }

  /** An update that names no field changes nothing. */
  lemma EmptyUpdateChangesNothing(s: State, profile: Pubkey, owner: Pubkey)
    requires Authorized(s, profile, owner)
    ensures UpdateArtistProfile(s, profile, owner, None, None, None) == Ok(s)
  {
    var p := s.profiles[profile];
    assert p.(name := p.name, bio := p.bio, links := p.links) == p;
    assert s.profiles[profile := p] == s.profiles;
  }

  /**
   * Among records that agree with their seeds, only the signer's own profile
   * can be updated, posted to, drawn from or closed, and only its own
   * collaboration requests resolved.
   */
  lemma OnlyOwnerMutates(s: State, profile: Pubkey, signer: Pubkey,
                         name: Option<Text>, bio: Option<Text>, links: Option<seq<Text>>,
                         title: Text, description: Text, url: Text, now: i64, bump: u8,
                         destination: Address, amount: u64, minReserve: u64,
                         requester: Pubkey, status: CollabStatus, artist: Pubkey)
    requires Valid(s)
    requires profile != signer
    ensures UpdateArtistProfile(s, profile, signer, name, bio, links).Err?
    ensures PostWork(s, profile, signer, title, description, url, now, bump).Err?
    ensures WithdrawTips(s, profile, signer, destination, amount, minReserve).Err?
    ensures UpdateCollabStatus(s, profile, requester, signer, status).Err?
    ensures CloseArtistProfile(s, profile, artist, signer).Err?
  {
  }

  // ---------------------------------------------------------------------
  // Scenarios
  // ---------------------------------------------------------------------

  /**
   * Alice creates a profile and posts a work; a fan likes it once (1 like),
   * and the fan's second like is refused by the host.
   */
  lemma LikeScenario()
    ensures var s0 := Genesis(map[]);
      var s1 := CreateArtistProfile(s0, ALICE, [65, 108, 105, 99, 101], [98, 105, 111], [], 7).value;
      var s2 := PostWork(s1, ALICE, ALICE, [84], [68], [117, 114, 108], 100, 9).value;
      var s3 := InteractWithWork(s2, (ALICE, 0), FAN, Like, None, 200, 3);
      && s2.profiles[ALICE].workCount == 1 && s2.works[(ALICE, 0)].likes == 0
      && s3.Ok? && s3.value.works[(ALICE, 0)].likes == 1
      && InteractWithWork(s3.value, (ALICE, 0), FAN, Like, None, 300, 3) == Err(Host(AccountAlreadyInUse))
  {
  }

  /**
   * 1000 lamports tipped and then withdrawn with no reserve leave the vault
   * empty, while `total_tips` keeps counting the 1000.
   */
  lemma TipThenWithdrawScenario()
    ensures var s0 := Genesis(map[Wallet(FAN) := 5000]);
      var s1 := CreateArtistProfile(s0, ALICE, [], [], [], 0).value;
      var s2 := TipArtist(s1, ALICE, FAN, 1000);
      && s2.Ok?
      && var s3 := WithdrawTips(s2.value, ALICE, ALICE, Wallet(ALICE), 1000, 0);
      && s3.Ok?
      && Balance(s3.value.lamports, TipsVault(ALICE)) == 0
      && Balance(s3.value.lamports, Wallet(ALICE)) == 1000
      && Balance(s3.value.lamports, Wallet(FAN)) == 4000
      && s3.value.profiles[ALICE].totalTips == 1000
  {
  }
}
