/**
 * The eleven instructions of the artist platform program as transitions of
 * the accounts the program sees.
 *
 * Each function first does what the account framework does before the
 * handler runs (referenced records must exist, `init` targets must not,
 * then the `seeds` and `has_one` constraints), then the handler body. A
 * handler works on copies of its records that are written back only when it
 * returns Ok, and the host undoes lamport moves of a failed transaction, so
 * a failing instruction has no effect: an `Err` carries no new state.
 */
module Handlers {
  import opened Records
  import opened Ledger

  /**
   * All accounts of the program, keyed by the seeds of their derived address:
   * profiles by owner, follower records by (artist, follower), works by
   * (artist, index), interactions by (work, user), collaboration requests by
   * (artist, requester); lamports of every wallet and tips vault.
   */
  datatype State = State(
    profiles: map<Pubkey, ArtistProfile>,
    followers: map<(Pubkey, Pubkey), FollowerAccount>,
    works: map<WorkId, Work>,
    interactions: map<(WorkId, Pubkey), Interaction>,
    collabs: map<(Pubkey, Pubkey), CollabRequest>,
    lamports: Lamports)

  /** No records yet; the wallets hold what they hold. */
  function Genesis(lamports: Lamports): State {
    State(map[], map[], map[], map[], map[], lamports)
  }

  /** The state after an instruction: unchanged when it failed. */
  function After(s: State, r: Result<State, Failure>): State {
    if r.Ok? then r.value else s
  }

  function OutcomeOf(r: Result<State, Failure>): Outcome {
    if r.Ok? then Ok(()) else Err(r.error)
  }

  function Or<T>(replacement: Option<T>, current: T): T {
    if replacement.Some? then replacement.value else current
  }

  /**
   * The guard on the handlers that take the artist's profile with seeds derived
   * from the signer and `has_one = owner`: the profile passed must exist, be
   * the one derived from the signer's key, and record the signer as its owner.
   */
  predicate Authorized(s: State, profile: Pubkey, owner: Pubkey) {
    profile in s.profiles && profile == owner && s.profiles[profile].owner == owner
  }

  function AuthorizationFailure(s: State, profile: Pubkey, owner: Pubkey): (f: Failure)
    requires !Authorized(s, profile, owner)
    ensures profile !in s.profiles ==> f == Host(AccountNotInitialized)
    ensures f.Host?
  {
    if profile !in s.profiles then Host(AccountNotInitialized)
    else if profile != owner then Host(ConstraintSeeds)
    else Host(ConstraintHasOne)
  }

  predicate ProfileFieldsFit(name: Text, bio: Text, links: seq<Text>) {
    |name| <= MAX_NAME_LEN && |bio| <= MAX_BIO_LEN && |links| <= MAX_LINKS
  }

  /** create_artist_profile */
  function CreateArtistProfile(s: State, owner: Pubkey, name: Text, bio: Text, links: seq<Text>, bump: u8)
    : (r: Result<State, Failure>)
    ensures owner in s.profiles ==> r == Err(Host(AccountAlreadyInUse))
    ensures owner !in s.profiles ==>
      && (r == Err(Program(NameTooLong)) <==> |name| > MAX_NAME_LEN)
      && (r == Err(Program(BioTooLong)) <==> |name| <= MAX_NAME_LEN && |bio| > MAX_BIO_LEN)
      && (r == Err(Program(TooManyLinks)) <==> |name| <= MAX_NAME_LEN && |bio| <= MAX_BIO_LEN && |links| > MAX_LINKS)
    ensures r.Ok? <==> owner !in s.profiles && ProfileFieldsFit(name, bio, links)
    ensures r.Ok? ==>
      && owner in r.value.profiles
      && var p := r.value.profiles[owner];
      && p.owner == owner && p.name == name && p.bio == bio && p.links == links && p.bump == bump
      && p.followerCount == 0 && p.totalTips == 0 && p.workCount == 0
      && r.value.profiles.Keys == s.profiles.Keys + {owner}
      && (forall k :: k in s.profiles ==> r.value.profiles[k] == s.profiles[k])
      && r.value.(profiles := s.profiles) == s
  {
    if owner in s.profiles then Err(Host(AccountAlreadyInUse))
    else if |name| > MAX_NAME_LEN then Err(Program(NameTooLong))
    else if |bio| > MAX_BIO_LEN then Err(Program(BioTooLong))
    else if |links| > MAX_LINKS then Err(Program(TooManyLinks))
    else
      var profile := ArtistProfile(owner, name, bio, links, 0, 0, 0, bump);
      Ok(s.(profiles := s.profiles[owner := profile]))
  }

  /**
   * create_tips_vault: the handler body does nothing; the instruction only
   * needs an existing profile to derive the vault from. `payer` is any
   * signer: nothing ties it to the profile's owner, and the account it pays
   * for is not part of this model, so the function does not use it.
   */
  function CreateTipsVault(s: State, profile: Pubkey, payer: Pubkey): (r: Result<State, Failure>)
    ensures r.Ok? <==> profile in s.profiles
    ensures r.Ok? ==> r.value == s
    ensures r.Err? ==> r.error == Host(AccountNotInitialized)
  {
    if profile !in s.profiles then Err(Host(AccountNotInitialized)) else Ok(s)
  }

  /** update_artist_profile: each field given as `Some` is re-checked against the creation bound and replaced. */
  function UpdateArtistProfile(s: State, profile: Pubkey, owner: Pubkey,
                               name: Option<Text>, bio: Option<Text>, links: Option<seq<Text>>)
    : (r: Result<State, Failure>)
    ensures !Authorized(s, profile, owner) ==> r.Err? && r.error.Host?
    ensures Authorized(s, profile, owner) ==>
      && (r == Err(Program(NameTooLong)) <==> name.Some? && |name.value| > MAX_NAME_LEN)
      && (r == Err(Program(BioTooLong)) <==>
            (name.Some? ==> |name.value| <= MAX_NAME_LEN) && bio.Some? && |bio.value| > MAX_BIO_LEN)
      && (r == Err(Program(TooManyLinks)) <==>
            (name.Some? ==> |name.value| <= MAX_NAME_LEN) && (bio.Some? ==> |bio.value| <= MAX_BIO_LEN)
            && links.Some? && |links.value| > MAX_LINKS)
    ensures r.Ok? <==>
      && Authorized(s, profile, owner)
      && (name.Some? ==> |name.value| <= MAX_NAME_LEN)
      && (bio.Some? ==> |bio.value| <= MAX_BIO_LEN)
      && (links.Some? ==> |links.value| <= MAX_LINKS)
    ensures r.Ok? ==>
      && profile in r.value.profiles
      && var old_ := s.profiles[profile];
      && var new_ := r.value.profiles[profile];
      && new_.name == (if name.Some? then name.value else old_.name)
      && new_.bio == (if bio.Some? then bio.value else old_.bio)
      && new_.links == (if links.Some? then links.value else old_.links)
      && new_.owner == old_.owner && new_.bump == old_.bump
      && new_.followerCount == old_.followerCount && new_.totalTips == old_.totalTips
      && new_.workCount == old_.workCount
      && r.value.profiles.Keys == s.profiles.Keys
      && (forall k :: k in s.profiles && k != profile ==> r.value.profiles[k] == s.profiles[k])
      && r.value.(profiles := s.profiles) == s
  {
    if !Authorized(s, profile, owner) then Err(AuthorizationFailure(s, profile, owner))
    else if name.Some? && |name.value| > MAX_NAME_LEN then Err(Program(NameTooLong))
    else if bio.Some? && |bio.value| > MAX_BIO_LEN then Err(Program(BioTooLong))
    else if links.Some? && |links.value| > MAX_LINKS then Err(Program(TooManyLinks))
    else
      var p := s.profiles[profile];
      var p' := p.(name := Or(name, p.name), bio := Or(bio, p.bio), links := Or(links, p.links));
      Ok(s.(profiles := s.profiles[profile := p']))
  }

  /**
   * follow_artist. The follower record is an `init` target, so the handler
   * always sees a fresh record and its `is_following` check never fires: a
   * second follow of the same pair is refused by the host instead.
   */
  function FollowArtist(s: State, profile: Pubkey, follower: Pubkey, bump: u8): (r: Result<State, Failure>)
    ensures r != Err(Program(AlreadyFollowing))
    ensures profile in s.profiles && (profile, follower) in s.followers ==> r == Err(Host(AccountAlreadyInUse))
    ensures r.Ok? <==>
      profile in s.profiles && (profile, follower) !in s.followers && s.profiles[profile].followerCount < U64_MAX
    ensures r.Err? && profile in s.profiles && (profile, follower) !in s.followers ==>
      r == Err(Program(NumericalOverflow))
    ensures r.Ok? ==>
      && profile in r.value.profiles && (profile, follower) in r.value.followers
      && r.value.followers[(profile, follower)] == FollowerAccount(follower, profile, true, bump)
      && r.value.followers.Keys == s.followers.Keys + {(profile, follower)}
      && (forall k :: k in s.followers ==> r.value.followers[k] == s.followers[k])
      && r.value.profiles[profile] == s.profiles[profile].(followerCount := s.profiles[profile].followerCount + 1)
      && r.value.profiles.Keys == s.profiles.Keys
      && (forall k :: k in s.profiles && k != profile ==> r.value.profiles[k] == s.profiles[k])
      && r.value.(profiles := s.profiles, followers := s.followers) == s
  {
    if profile !in s.profiles then Err(Host(AccountNotInitialized))
    else if (profile, follower) in s.followers then Err(Host(AccountAlreadyInUse))
    else
      var account := FRESH_FOLLOWER;
      if account.isFollowing then Err(Program(AlreadyFollowing))
      else
        var account' := account.(follower := follower, artist := profile, isFollowing := true, bump := bump);
        var p := s.profiles[profile];
        if p.followerCount + 1 > U64_MAX then Err(Program(NumericalOverflow))
        else
          Ok(s.(followers := s.followers[(profile, follower) := account'],
                profiles := s.profiles[profile := p.(followerCount := p.followerCount + 1)]))
  }

  /**
   * post_work. The new work is derived from the artist's work count before
   * the increment, and the count is a `u8`, so the post that would raise it
   * past 255 fails.
   */
  function PostWork(s: State, profile: Pubkey, owner: Pubkey, title: Text, description: Text, contentUrl: Text,
                    now: i64, bump: u8)
    : (r: Result<State, Failure>)
    ensures r.Ok? <==>
      && Authorized(s, profile, owner)
      && (profile, s.profiles[profile].workCount) !in s.works
      && |title| <= MAX_TITLE_LEN && |description| <= MAX_DESCRIPTION_LEN
      && s.profiles[profile].workCount < U8_MAX
    ensures profile in s.profiles && (profile, s.profiles[profile].workCount) in s.works ==>
      r == Err(Host(AccountAlreadyInUse))
    ensures Authorized(s, profile, owner) && (profile, s.profiles[profile].workCount) !in s.works ==>
      && (r == Err(Program(TitleTooLong)) <==> |title| > MAX_TITLE_LEN)
      && (r == Err(Program(DescriptionTooLong)) <==> |title| <= MAX_TITLE_LEN && |description| > MAX_DESCRIPTION_LEN)
      && (r == Err(Program(NumericalOverflow)) <==>
            |title| <= MAX_TITLE_LEN && |description| <= MAX_DESCRIPTION_LEN && s.profiles[profile].workCount == U8_MAX)
    ensures r.Ok? ==>
      && var index := s.profiles[profile].workCount;
      && (profile, index) in r.value.works && profile in r.value.profiles
      && r.value.works[(profile, index)] == Work(profile, title, description, contentUrl, 0, 0, now, bump)
      && r.value.works.Keys == s.works.Keys + {(profile, index)}
      && (forall k :: k in s.works ==> r.value.works[k] == s.works[k])
      && r.value.profiles[profile] == s.profiles[profile].(workCount := index + 1)
      && r.value.profiles.Keys == s.profiles.Keys
      && (forall k :: k in s.profiles && k != profile ==> r.value.profiles[k] == s.profiles[k])
      && r.value.(profiles := s.profiles, works := s.works) == s
  {
    if profile !in s.profiles then Err(Host(AccountNotInitialized))
    else
      var p := s.profiles[profile];
      var index := p.workCount;
      if (profile, index) in s.works then Err(Host(AccountAlreadyInUse))
      else if !Authorized(s, profile, owner) then Err(AuthorizationFailure(s, profile, owner))
      else if |title| > MAX_TITLE_LEN then Err(Program(TitleTooLong))
      else if |description| > MAX_DESCRIPTION_LEN then Err(Program(DescriptionTooLong))
      else
        var work := Work(profile, title, description, contentUrl, 0, 0, now, bump);
        if index + 1 > U8_MAX then Err(Program(NumericalOverflow))
        else
          Ok(s.(works := s.works[(profile, index) := work],
                profiles := s.profiles[profile := p.(workCount := index + 1)]))
  }

  /** tip_artist: `amount` moves from the tipper's wallet into the artist's vault and is added to `total_tips`. */
  function TipArtist(s: State, profile: Pubkey, tipper: Pubkey, amount: u64): (r: Result<State, Failure>)
    ensures profile in s.profiles && amount == 0 ==> r == Err(Program(InvalidAmount))
    ensures r.Ok? <==>
      && profile in s.profiles && amount > 0
      && Transfer(s.lamports, Wallet(tipper), TipsVault(profile), amount).Ok?
      && s.profiles[profile].totalTips + amount <= U64_MAX
    ensures profile in s.profiles && amount > 0 && Balance(s.lamports, Wallet(tipper)) < amount ==>
      r == Err(Host(InsufficientLamports))
    ensures profile in s.profiles && amount > 0 && Transfer(s.lamports, Wallet(tipper), TipsVault(profile), amount).Ok?
            && s.profiles[profile].totalTips + amount > U64_MAX ==>
      r == Err(Program(NumericalOverflow))
    ensures r.Ok? ==>
      && profile in r.value.profiles
      && Balance(r.value.lamports, Wallet(tipper)) == Balance(s.lamports, Wallet(tipper)) - amount
      && Balance(r.value.lamports, TipsVault(profile)) == Balance(s.lamports, TipsVault(profile)) + amount
      && (forall a :: a != Wallet(tipper) && a != TipsVault(profile) ==>
            Balance(r.value.lamports, a) == Balance(s.lamports, a))
      && r.value.profiles[profile] == s.profiles[profile].(totalTips := s.profiles[profile].totalTips + amount)
      && r.value.profiles.Keys == s.profiles.Keys
      && (forall k :: k in s.profiles && k != profile ==> r.value.profiles[k] == s.profiles[k])
      && r.value.(profiles := s.profiles, lamports := s.lamports) == s
  {
    if profile !in s.profiles then Err(Host(AccountNotInitialized))
    else if amount == 0 then Err(Program(InvalidAmount))
    else
      match Transfer(s.lamports, Wallet(tipper), TipsVault(profile), amount)
      case Err(e) => Err(Host(e))
      case Ok(lamports) =>
        var p := s.profiles[profile];
        if p.totalTips + amount > U64_MAX then Err(Program(NumericalOverflow))
        else Ok(s.(lamports := lamports, profiles := s.profiles[profile := p.(totalTips := p.totalTips + amount)]))
  }

  /**
   * interact_with_work. The interaction record is an `init` target, so the
   * handler always sees a fresh record: its `has_liked` check never fires,
   * and any second interaction by the same user with the same work, like or
   * comment, is refused by the host.
   */
  function InteractWithWork(s: State, work: WorkId, user: Pubkey, kind: InteractionType, commentText: Option<Text>,
                            now: i64, bump: u8)
    : (r: Result<State, Failure>)
    ensures r != Err(Program(AlreadyLiked))
    ensures work in s.works && (work, user) in s.interactions ==> r == Err(Host(AccountAlreadyInUse))
    ensures kind == Like ==>
      (r.Ok? <==> work in s.works && (work, user) !in s.interactions && s.works[work].likes < U64_MAX)
    ensures kind == Comment ==>
      (r.Ok? <==> work in s.works && (work, user) !in s.interactions && commentText.Some?
                  && |commentText.value| <= MAX_COMMENT_LEN && s.works[work].commentCount < U64_MAX)
    ensures kind == Comment && work in s.works && (work, user) !in s.interactions ==>
      && (r == Err(Program(CommentRequired)) <==> commentText.None?)
      && (r == Err(Program(CommentTooLong)) <==> commentText.Some? && |commentText.value| > MAX_COMMENT_LEN)
      && (r == Err(Program(NumericalOverflow)) <==>
            commentText.Some? && |commentText.value| <= MAX_COMMENT_LEN && s.works[work].commentCount == U64_MAX)
    ensures kind == Like && work in s.works && (work, user) !in s.interactions ==>
      (r == Err(Program(NumericalOverflow)) <==> s.works[work].likes == U64_MAX)
    ensures r.Ok? ==>
      && work in r.value.works && (work, user) in r.value.interactions
      && var w := s.works[work];
      && var i := r.value.interactions[(work, user)];
      && i.user == user && i.work == work && i.timestamp == now && i.bump == bump
      && (kind == Like ==>
            && r.value.works[work] == w.(likes := w.likes + 1)
            && i.hasLiked && i.comment == None)
      && (kind == Comment ==>
            && r.value.works[work] == w.(commentCount := w.commentCount + 1)
            && !i.hasLiked && i.comment == commentText)
      && r.value.interactions.Keys == s.interactions.Keys + {(work, user)}
      && (forall k :: k in s.interactions ==> r.value.interactions[k] == s.interactions[k])
      && r.value.works.Keys == s.works.Keys
      && (forall k :: k in s.works && k != work ==> r.value.works[k] == s.works[k])
      && r.value.(works := s.works, interactions := s.interactions) == s
  {
    if work !in s.works then Err(Host(AccountNotInitialized))
    else if (work, user) in s.interactions then Err(Host(AccountAlreadyInUse))
    else
      var w := s.works[work];
      var i := FRESH_INTERACTION;
      var body: Result<(Work, Interaction), ArtistError> :=
        match kind
        case Like =>
          if i.hasLiked then Err(AlreadyLiked)
          else if w.likes + 1 > U64_MAX then Err(NumericalOverflow)
          else Ok((w.(likes := w.likes + 1), i.(hasLiked := true)))
        case Comment =>
          if commentText.None? then Err(CommentRequired)
          else if |commentText.value| > MAX_COMMENT_LEN then Err(CommentTooLong)
          else if w.commentCount + 1 > U64_MAX then Err(NumericalOverflow)
          else Ok((w.(commentCount := w.commentCount + 1), i.(comment := commentText)));
      match body
      case Err(e) => Err(Program(e))
      case Ok((w', i')) =>
        var stamped := i'.(user := user, work := work, timestamp := now, bump := bump);
        Ok(s.(works := s.works[work := w'], interactions := s.interactions[(work, user) := stamped]))
  }

  /** create_collab_request: nothing bounds the description. */
  function CreateCollabRequest(s: State, profile: Pubkey, requester: Pubkey, description: Text, now: i64, bump: u8)
    : (r: Result<State, Failure>)
    ensures r.Ok? <==> profile in s.profiles && (profile, requester) !in s.collabs
    ensures r.Err? ==> r.error.Host?
    ensures r.Ok? ==>
      && (profile, requester) in r.value.collabs
      && r.value.collabs[(profile, requester)] == CollabRequest(requester, profile, description, Pending, now, bump)
      && r.value.collabs.Keys == s.collabs.Keys + {(profile, requester)}
      && (forall k :: k in s.collabs ==> r.value.collabs[k] == s.collabs[k])
      && r.value.(collabs := s.collabs) == s
  {
    if profile !in s.profiles then Err(Host(AccountNotInitialized))
    else if (profile, requester) in s.collabs then Err(Host(AccountAlreadyInUse))
    else Ok(s.(collabs := s.collabs[(profile, requester) := CollabRequest(requester, profile, description, Pending, now, bump)]))
  }

  /**
   * update_collab_status: only the artist's owner may resolve a request, and
   * only while it is pending. The new status is taken as given, `Pending`
   * included.
   */
  function UpdateCollabStatus(s: State, profile: Pubkey, requester: Pubkey, owner: Pubkey, status: CollabStatus)
    : (r: Result<State, Failure>)
    ensures r.Ok? <==>
      && (profile, requester) in s.collabs && Authorized(s, profile, owner)
      && s.collabs[(profile, requester)].status == Pending
    ensures (&& (profile, requester) in s.collabs && Authorized(s, profile, owner)
             && s.collabs[(profile, requester)].status != Pending) ==> r == Err(Program(CollabAlreadyResolved))
    ensures r.Ok? ==>
      && (profile, requester) in r.value.collabs
      && r.value.collabs[(profile, requester)] == s.collabs[(profile, requester)].(status := status)
      && r.value.collabs.Keys == s.collabs.Keys
      && (forall k :: k in s.collabs && k != (profile, requester) ==> r.value.collabs[k] == s.collabs[k])
      && r.value.(collabs := s.collabs) == s
  {
    if (profile, requester) !in s.collabs then Err(Host(AccountNotInitialized))
    else if !Authorized(s, profile, owner) then Err(AuthorizationFailure(s, profile, owner))
    else
      var c := s.collabs[(profile, requester)];
      if c.status != Pending then Err(Program(CollabAlreadyResolved))
      else Ok(s.(collabs := s.collabs[(profile, requester) := c.(status := status)]))
  }

  /**
   * withdraw_tips: the owner moves `amount` out of the vault to `destination`,
   * provided the vault holds it and keeps at least `minReserve` (the host's
   * rent-exempt minimum for an empty account). The destination's credit is an
   * unwrapped checked addition, so its overflow is a panic.
   */
  function WithdrawTips(s: State, profile: Pubkey, owner: Pubkey, destination: Address, amount: u64, minReserve: u64)
    : (r: Result<State, Failure>)
    ensures r.Ok? <==>
      && Authorized(s, profile, owner)
      && amount <= Balance(s.lamports, TipsVault(profile))
      && Balance(s.lamports, TipsVault(profile)) - amount >= minReserve
      && (destination == TipsVault(profile) || Balance(s.lamports, destination) + amount <= U64_MAX)
    ensures Authorized(s, profile, owner) &&
            (amount > Balance(s.lamports, TipsVault(profile)) ||
             Balance(s.lamports, TipsVault(profile)) - amount < minReserve) ==>
      r == Err(Program(InsufficientFunds))
    ensures r.Ok? && destination != TipsVault(profile) ==>
      && Balance(r.value.lamports, TipsVault(profile)) == Balance(s.lamports, TipsVault(profile)) - amount
      && Balance(r.value.lamports, destination) == Balance(s.lamports, destination) + amount
    ensures r.Ok? && destination == TipsVault(profile) ==>
      Balance(r.value.lamports, TipsVault(profile)) == Balance(s.lamports, TipsVault(profile))
    ensures r.Ok? ==>
      && Balance(r.value.lamports, TipsVault(profile)) >= minReserve
      && (forall a :: a != TipsVault(profile) && a != destination ==>
            Balance(r.value.lamports, a) == Balance(s.lamports, a))
      && r.value.(lamports := s.lamports) == s
  {
    if !Authorized(s, profile, owner) then Err(AuthorizationFailure(s, profile, owner))
    else
      var vault := TipsVault(profile);
      var vaultBalance := Balance(s.lamports, vault);
      if vaultBalance < amount then Err(Program(InsufficientFunds))
      else if vaultBalance - amount < minReserve then Err(Program(InsufficientFunds))
      else
        var debited := s.lamports[vault := vaultBalance - amount];
        if Balance(debited, destination) + amount > U64_MAX then Err(Host(Panic))
        else Ok(s.(lamports := debited[destination := Balance(debited, destination) + amount]))
  }

  /**
   * close_artist_profile: the whole vault balance goes to the artist's
   * wallet and the profile record is closed. Follower records, works,
   * interactions and collaboration requests of the artist stay behind.
   */
  function CloseArtistProfile(s: State, profile: Pubkey, artist: Pubkey, owner: Pubkey): (r: Result<State, Failure>)
    ensures r.Ok? <==>
      && profile in s.profiles && profile == artist && s.profiles[profile].owner == owner
      && Balance(s.lamports, Wallet(artist)) + Balance(s.lamports, TipsVault(profile)) <= U64_MAX
    ensures profile in s.profiles && profile == artist && s.profiles[profile].owner == owner
            && Balance(s.lamports, Wallet(artist)) + Balance(s.lamports, TipsVault(profile)) > U64_MAX ==>
      r == Err(Program(NumericalOverflow))
    ensures r.Ok? ==>
      && Balance(r.value.lamports, TipsVault(profile)) == 0
      && Balance(r.value.lamports, Wallet(artist)) ==
           Balance(s.lamports, Wallet(artist)) + Balance(s.lamports, TipsVault(profile))
      && (forall a :: a != TipsVault(profile) && a != Wallet(artist) ==>
            Balance(r.value.lamports, a) == Balance(s.lamports, a))
      && r.value.profiles == s.profiles - {profile}
      && r.value.(profiles := s.profiles, lamports := s.lamports) == s
  {
    if profile !in s.profiles then Err(Host(AccountNotInitialized))
    else if profile != artist then Err(Host(ConstraintSeeds))
    else if s.profiles[profile].owner != owner then Err(Host(ConstraintHasOne))
    else
      var vault := TipsVault(profile);
      var remaining := Balance(s.lamports, vault);
      var closed := s.(profiles := s.profiles - {profile});
      if remaining > 0 then
        var drained := s.lamports[vault := 0];
        if Balance(drained, Wallet(artist)) + remaining > U64_MAX then Err(Program(NumericalOverflow))
        else Ok(closed.(lamports := drained[Wallet(artist) := Balance(drained, Wallet(artist)) + remaining]))
      else Ok(closed)
  }

  /** One instruction of the program, with the accounts and arguments it is called with. */
  datatype Instruction =
    | CreateArtistProfileIx(owner: Pubkey, name: Text, bio: Text, links: seq<Text>, bump: u8)
    | CreateTipsVaultIx(profile: Pubkey, payer: Pubkey)
    | UpdateArtistProfileIx(profile: Pubkey, owner: Pubkey, newName: Option<Text>, newBio: Option<Text>,
                            newLinks: Option<seq<Text>>)
    | FollowArtistIx(profile: Pubkey, follower: Pubkey, bump: u8)
    | PostWorkIx(profile: Pubkey, owner: Pubkey, title: Text, description: Text, contentUrl: Text, now: i64, bump: u8)
    | TipArtistIx(profile: Pubkey, tipper: Pubkey, amount: u64)
    | InteractWithWorkIx(work: WorkId, user: Pubkey, kind: InteractionType, commentText: Option<Text>, now: i64,
                         bump: u8)
    | CreateCollabRequestIx(profile: Pubkey, requester: Pubkey, description: Text, now: i64, bump: u8)
    | UpdateCollabStatusIx(profile: Pubkey, requester: Pubkey, owner: Pubkey, status: CollabStatus)
    | WithdrawTipsIx(profile: Pubkey, owner: Pubkey, destination: Address, amount: u64, minReserve: u64)
    | CloseArtistProfileIx(profile: Pubkey, artist: Pubkey, owner: Pubkey)

  function Execute(s: State, ix: Instruction): Result<State, Failure> {
    match ix
    case CreateArtistProfileIx(owner, name, bio, links, bump) => CreateArtistProfile(s, owner, name, bio, links, bump)
    case CreateTipsVaultIx(profile, payer) => CreateTipsVault(s, profile, payer)
    case UpdateArtistProfileIx(profile, owner, name, bio, links) => UpdateArtistProfile(s, profile, owner, name, bio, links)
    case FollowArtistIx(profile, follower, bump) => FollowArtist(s, profile, follower, bump)
    case PostWorkIx(profile, owner, title, description, url, now, bump) =>
      PostWork(s, profile, owner, title, description, url, now, bump)
    case TipArtistIx(profile, tipper, amount) => TipArtist(s, profile, tipper, amount)
    case InteractWithWorkIx(work, user, kind, text, now, bump) => InteractWithWork(s, work, user, kind, text, now, bump)
    case CreateCollabRequestIx(profile, requester, description, now, bump) =>
      CreateCollabRequest(s, profile, requester, description, now, bump)
    case UpdateCollabStatusIx(profile, requester, owner, status) => UpdateCollabStatus(s, profile, requester, owner, status)
    case WithdrawTipsIx(profile, owner, destination, amount, minReserve) =>
      WithdrawTips(s, profile, owner, destination, amount, minReserve)
    case CloseArtistProfileIx(profile, artist, owner) => CloseArtistProfile(s, profile, artist, owner)
  }

  /** Runs a sequence of transactions, each applied only if it succeeds. */
  function Run(s: State, txs: seq<Instruction>): State
    decreases |txs|
  {
    if txs == [] then s else Run(After(s, Execute(s, txs[0])), txs[1..])
  }
}
