/**
 * The program as its runtime executes it: one object holds every account,
 * and each instruction method does, step by step, what the account framework
 * and the handler do. The framework checks come first (a referenced record
 * must exist, an `init` target must not, then `seeds` and `has_one`); the
 * handler then works on local copies of its records, and only when it
 * finishes without error are the copies and the new balances written back.
 * Writing back only at the end is how the host's rollback of a failed
 * transaction shows here.
 *
 * Each method is proved to do exactly what the matching function of
 * `Handlers` says, and `Submit` shows that every instruction keeps the
 * record invariants, the like and comment counters and the lamport total.
 */
module Program {
  import opened Records
  import opened Ledger
  import opened Handlers
  import Properties

  class Platform {
    var profiles: map<Pubkey, ArtistProfile>
    var followers: map<(Pubkey, Pubkey), FollowerAccount>
    var works: map<WorkId, Work>
    var interactions: map<(WorkId, Pubkey), Interaction>
    var collabs: map<(Pubkey, Pubkey), CollabRequest>
    var lamports: Lamports

    /** The accounts as a value of the functional model. */
    function View(): State
      reads this
    {
      State(profiles, followers, works, interactions, collabs, lamports)
    }

    /** The record invariants and exact like and comment counters. */
    ghost predicate Valid()
      reads this
    {
      Properties.Valid(View()) && Properties.CountersExact(View())
    }

    /** A fresh deployment: no records, and the wallets with the balances given. */
    constructor (initial: Lamports)
      ensures View() == Genesis(initial)
      ensures Valid()
    {
      profiles, followers, works, interactions, collabs := map[], map[], map[], map[], map[];
      lamports := initial;
      Properties.GenesisValid(initial);
    }

    method CreateArtistProfile(owner: Pubkey, name: Text, bio: Text, links: seq<Text>, bump: u8) returns (r: Outcome)
      modifies this
      ensures r == OutcomeOf(Handlers.CreateArtistProfile(old(View()), owner, name, bio, links, bump))
      ensures View() == After(old(View()), Handlers.CreateArtistProfile(old(View()), owner, name, bio, links, bump))
    {
      if owner in profiles { return Err(Host(AccountAlreadyInUse)); }
      if |name| > MAX_NAME_LEN { return Err(Program(NameTooLong)); }
      if |bio| > MAX_BIO_LEN { return Err(Program(BioTooLong)); }
      if |links| > MAX_LINKS { return Err(Program(TooManyLinks)); }
      var profile := ArtistProfile(owner, name, bio, links, 0, 0, 0, bump);
      profiles := profiles[owner := profile];
      return Ok(());
    }

    method CreateTipsVault(profile: Pubkey, payer: Pubkey) returns (r: Outcome)
      modifies this
      ensures r == OutcomeOf(Handlers.CreateTipsVault(old(View()), profile, payer))
      ensures View() == After(old(View()), Handlers.CreateTipsVault(old(View()), profile, payer))
    {
      if profile !in profiles { return Err(Host(AccountNotInitialized)); }
      return Ok(());
    }

    /** The `seeds` and `has_one` checks on the artist's profile, in the framework's order. */
    method CheckOwner(profile: Pubkey, owner: Pubkey) returns (r: Outcome)
      ensures r.Ok? <==> Authorized(View(), profile, owner)
      ensures r.Err? ==> r.error == AuthorizationFailure(View(), profile, owner)
    {
      if profile !in profiles { return Err(Host(AccountNotInitialized)); }
      if profile != owner { return Err(Host(ConstraintSeeds)); }
      if profiles[profile].owner != owner { return Err(Host(ConstraintHasOne)); }
      return Ok(());
    }

    method UpdateArtistProfile(profile: Pubkey, owner: Pubkey,
                               name: Option<Text>, bio: Option<Text>, links: Option<seq<Text>>)
      returns (r: Outcome)
      modifies this
      ensures r == OutcomeOf(Handlers.UpdateArtistProfile(old(View()), profile, owner, name, bio, links))
      ensures View() == After(old(View()), Handlers.UpdateArtistProfile(old(View()), profile, owner, name, bio, links))
      ensures r.Err? ==> View() == old(View())
    {
      r := CheckOwner(profile, owner);
      if r.Err? { return; }
      var p := profiles[profile];
      if name.Some? {
        if |name.value| > MAX_NAME_LEN { return Err(Program(NameTooLong)); }
        p := p.(name := name.value);
      }
      if bio.Some? {
        if |bio.value| > MAX_BIO_LEN { return Err(Program(BioTooLong)); }
        p := p.(bio := bio.value);
      }
      if links.Some? {
        if |links.value| > MAX_LINKS { return Err(Program(TooManyLinks)); }
        p := p.(links := links.value);
      }
      profiles := profiles[profile := p];
      return Ok(());
    }

    method FollowArtist(profile: Pubkey, follower: Pubkey, bump: u8) returns (r: Outcome)
      modifies this
      ensures r == OutcomeOf(Handlers.FollowArtist(old(View()), profile, follower, bump))
      ensures View() == After(old(View()), Handlers.FollowArtist(old(View()), profile, follower, bump))
    {
      if profile !in profiles { return Err(Host(AccountNotInitialized)); }
      if (profile, follower) in followers { return Err(Host(AccountAlreadyInUse)); }
      var account := FRESH_FOLLOWER;
      var p := profiles[profile];
      if account.isFollowing {
        // The record was just created, so it is never already following.
        assert false;
        return Err(Program(AlreadyFollowing));
      }
      account := account.(follower := follower, artist := profile, isFollowing := true, bump := bump);
      if p.followerCount + 1 > U64_MAX { return Err(Program(NumericalOverflow)); }
      p := p.(followerCount := p.followerCount + 1);
      followers := followers[(profile, follower) := account];
      profiles := profiles[profile := p];
      return Ok(());
    }

    method PostWork(profile: Pubkey, owner: Pubkey, title: Text, description: Text, contentUrl: Text,
                    now: i64, bump: u8)
      returns (r: Outcome)
      modifies this
      ensures r == OutcomeOf(Handlers.PostWork(old(View()), profile, owner, title, description, contentUrl, now, bump))
      ensures View() == After(old(View()), Handlers.PostWork(old(View()), profile, owner, title, description, contentUrl, now, bump))
    {
      if profile !in profiles { return Err(Host(AccountNotInitialized)); }
      var p := profiles[profile];
      var index := p.workCount;
      if (profile, index) in works { return Err(Host(AccountAlreadyInUse)); }
      r := CheckOwner(profile, owner);
      if r.Err? { return; }
      if |title| > MAX_TITLE_LEN { return Err(Program(TitleTooLong)); }
      if |description| > MAX_DESCRIPTION_LEN { return Err(Program(DescriptionTooLong)); }
      var work := Work(profile, title, description, contentUrl, 0, 0, now, bump);
      if index + 1 > U8_MAX { return Err(Program(NumericalOverflow)); }
      p := p.(workCount := index + 1);
      works := works[(profile, index) := work];
      profiles := profiles[profile := p];
      return Ok(());
    }

    method TipArtist(profile: Pubkey, tipper: Pubkey, amount: u64) returns (r: Outcome)
      modifies this
      ensures r == OutcomeOf(Handlers.TipArtist(old(View()), profile, tipper, amount))
      ensures View() == After(old(View()), Handlers.TipArtist(old(View()), profile, tipper, amount))
    {
      if profile !in profiles { return Err(Host(AccountNotInitialized)); }
      if amount == 0 { return Err(Program(InvalidAmount)); }
      var moved := Transfer(lamports, Wallet(tipper), TipsVault(profile), amount);
      if moved.Err? { return Err(Host(moved.error)); }
      var p := profiles[profile];
      if p.totalTips + amount > U64_MAX { return Err(Program(NumericalOverflow)); }
      p := p.(totalTips := p.totalTips + amount);
      lamports := moved.value;
      profiles := profiles[profile := p];
      return Ok(());
    }

    method InteractWithWork(work: WorkId, user: Pubkey, kind: InteractionType, commentText: Option<Text>,
                            now: i64, bump: u8)
      returns (r: Outcome)
      modifies this
      ensures r == OutcomeOf(Handlers.InteractWithWork(old(View()), work, user, kind, commentText, now, bump))
      ensures View() == After(old(View()), Handlers.InteractWithWork(old(View()), work, user, kind, commentText, now, bump))
    {
      if work !in works { return Err(Host(AccountNotInitialized)); }
      if (work, user) in interactions { return Err(Host(AccountAlreadyInUse)); }
      var w := works[work];
      var i := FRESH_INTERACTION;
      match kind {
        case Like =>
          if i.hasLiked {
            // The record was just created, so it never holds a like yet.
            assert false;
            return Err(Program(AlreadyLiked));
          }
          i := i.(hasLiked := true);
          if w.likes + 1 > U64_MAX { return Err(Program(NumericalOverflow)); }
          w := w.(likes := w.likes + 1);
        case Comment =>
          if commentText.None? { return Err(Program(CommentRequired)); }
          var comment := commentText.value;
          if |comment| > MAX_COMMENT_LEN { return Err(Program(CommentTooLong)); }
          i := i.(comment := Some(comment));
          if w.commentCount + 1 > U64_MAX { return Err(Program(NumericalOverflow)); }
          w := w.(commentCount := w.commentCount + 1);
      }
      i := i.(user := user, work := work, timestamp := now, bump := bump);
      works := works[work := w];
      interactions := interactions[(work, user) := i];
      return Ok(());
    }

    method CreateCollabRequest(profile: Pubkey, requester: Pubkey, description: Text, now: i64, bump: u8)
      returns (r: Outcome)
      modifies this
      ensures r == OutcomeOf(Handlers.CreateCollabRequest(old(View()), profile, requester, description, now, bump))
      ensures View() == After(old(View()), Handlers.CreateCollabRequest(old(View()), profile, requester, description, now, bump))
    {
      if profile !in profiles { return Err(Host(AccountNotInitialized)); }
      if (profile, requester) in collabs { return Err(Host(AccountAlreadyInUse)); }
      var request := CollabRequest(requester, profile, description, Pending, now, bump);
      collabs := collabs[(profile, requester) := request];
      return Ok(());
    }

    method UpdateCollabStatus(profile: Pubkey, requester: Pubkey, owner: Pubkey, status: CollabStatus)
      returns (r: Outcome)
      modifies this
      ensures r == OutcomeOf(Handlers.UpdateCollabStatus(old(View()), profile, requester, owner, status))
      ensures View() == After(old(View()), Handlers.UpdateCollabStatus(old(View()), profile, requester, owner, status))
    {
      if (profile, requester) !in collabs { return Err(Host(AccountNotInitialized)); }
      r := CheckOwner(profile, owner);
      if r.Err? { return; }
      var request := collabs[(profile, requester)];
      if request.status != Pending { return Err(Program(CollabAlreadyResolved)); }
      request := request.(status := status);
      collabs := collabs[(profile, requester) := request];
      return Ok(());
    }

    method WithdrawTips(profile: Pubkey, owner: Pubkey, destination: Address, amount: u64, minReserve: u64)
      returns (r: Outcome)
      modifies this
      ensures r == OutcomeOf(Handlers.WithdrawTips(old(View()), profile, owner, destination, amount, minReserve))
      ensures View() == After(old(View()), Handlers.WithdrawTips(old(View()), profile, owner, destination, amount, minReserve))
    {
      r := CheckOwner(profile, owner);
      if r.Err? { return; }
      var vault := TipsVault(profile);
      var vaultBalance := Balance(lamports, vault);
      if vaultBalance < amount { return Err(Program(InsufficientFunds)); }
      if vaultBalance - amount < minReserve { return Err(Program(InsufficientFunds)); }
      var ledger := lamports[vault := vaultBalance - amount];
      var destinationBalance := Balance(ledger, destination);
      if destinationBalance + amount > U64_MAX { return Err(Host(Panic)); }
      ledger := ledger[destination := destinationBalance + amount];
      lamports := ledger;
      return Ok(());
    }

    method CloseArtistProfile(profile: Pubkey, artist: Pubkey, owner: Pubkey) returns (r: Outcome)
      modifies this
      ensures r == OutcomeOf(Handlers.CloseArtistProfile(old(View()), profile, artist, owner))
      ensures View() == After(old(View()), Handlers.CloseArtistProfile(old(View()), profile, artist, owner))
    {
      if profile !in profiles { return Err(Host(AccountNotInitialized)); }
      if profile != artist { return Err(Host(ConstraintSeeds)); }
      if profiles[profile].owner != owner { return Err(Host(ConstraintHasOne)); }
      var vault := TipsVault(profile);
      var remaining := Balance(lamports, vault);
      var ledger := lamports;
      if remaining > 0 {
        ledger := ledger[vault := 0];
        var artistBalance := Balance(ledger, Wallet(artist));
        if artistBalance + remaining > U64_MAX { return Err(Program(NumericalOverflow)); }
        ledger := ledger[Wallet(artist) := artistBalance + remaining];
      }
      lamports := ledger;
      profiles := profiles - {profile};
      return Ok(());
    }

    /**
     * One transaction: the instruction runs as its method, and whatever the
     * outcome the record invariants, the counters and the lamport total hold
     * afterwards when they held before.
     */
    method Submit(ix: Instruction) returns (r: Outcome)
      modifies this
      ensures r == OutcomeOf(Execute(old(View()), ix))
      ensures View() == After(old(View()), Execute(old(View()), ix))
      ensures r.Err? ==> View() == old(View())
      ensures old(Valid()) ==> Valid()
      ensures Total(lamports) == old(Total(lamports))
    {
      match ix {
        case CreateArtistProfileIx(owner, name, bio, links, bump) =>
          r := CreateArtistProfile(owner, name, bio, links, bump);
        case CreateTipsVaultIx(profile, payer) =>
          r := CreateTipsVault(profile, payer);
        case UpdateArtistProfileIx(profile, owner, name, bio, links) =>
          r := UpdateArtistProfile(profile, owner, name, bio, links);
        case FollowArtistIx(profile, follower, bump) =>
          r := FollowArtist(profile, follower, bump);
        case PostWorkIx(profile, owner, title, description, url, now, bump) =>
          r := PostWork(profile, owner, title, description, url, now, bump);
        case TipArtistIx(profile, tipper, amount) =>
          r := TipArtist(profile, tipper, amount);
        case InteractWithWorkIx(work, user, kind, text, now, bump) =>
          r := InteractWithWork(work, user, kind, text, now, bump);
        case CreateCollabRequestIx(profile, requester, description, now, bump) =>
          r := CreateCollabRequest(profile, requester, description, now, bump);
        case UpdateCollabStatusIx(profile, requester, owner, status) =>
          r := UpdateCollabStatus(profile, requester, owner, status);
        case WithdrawTipsIx(profile, owner, destination, amount, minReserve) =>
          r := WithdrawTips(profile, owner, destination, amount, minReserve);
        case CloseArtistProfileIx(profile, artist, owner) =>
          r := CloseArtistProfile(profile, artist, owner);
      }
      if old(Valid()) {
        Properties.ExecutePreservesValid(old(View()), ix);
        Properties.ExecuteKeepsCountersExact(old(View()), ix);
      }
      Properties.ExecuteConservesLamports(old(View()), ix);
    }
  }
}
