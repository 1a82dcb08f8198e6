/**
 * Record schema of the artist platform program: the fixed-width integer
 * types, the account records, the two enums, the program's error codes and
 * the failures the host runtime reports before or around a handler.
 */
module Records {

  const U8_MAX: nat := 0xFF
  const U64_MAX: nat := 0xFFFF_FFFF_FFFF_FFFF

  /** Rust's `u8`, `u64` and `i64`: the model keeps every stored counter inside its width. */
  type u8 = x: nat | x <= U8_MAX
  type u64 = x: nat | x <= U64_MAX
  type i64 = x: int | -0x8000_0000_0000_0000 <= x < 0x8000_0000_0000_0000

  /**
   * An account key. Derived addresses are identified with the seed values they
   * are derived from (the derivation is injective), so an artist profile is
   * named by its owner's key, a work by (artist, index), and so on.
   */
  type Pubkey = nat

  /** A Rust `String` as its UTF-8 bytes: `len()` counts bytes, not characters. */
  type Text = seq<u8>

  /** Bounds checked by the handlers. */
  const MAX_NAME_LEN: nat := 50
  const MAX_BIO_LEN: nat := 500
  const MAX_LINKS: nat := 5
  const MAX_TITLE_LEN: nat := 100
  const MAX_DESCRIPTION_LEN: nat := 1000
  const MAX_COMMENT_LEN: nat := 500

  datatype Option<T> = None | Some(value: T)

  datatype Result<T, E> = Ok(value: T) | Err(error: E)

  datatype CollabStatus = Pending | Accepted | Rejected

  datatype InteractionType = Like | Comment

  /** The program's own error codes (`ArtistError`). */
  datatype ArtistError =
    | NameTooLong
    | BioTooLong
    | TooManyLinks
    | AlreadyFollowing
    | TitleTooLong
    | DescriptionTooLong
    | InvalidAmount
    | AlreadyLiked
    | CommentRequired
    | CommentTooLong
    | CollabAlreadyResolved
    | InsufficientFunds
    | NumericalOverflow

  /**
   * Failures raised by the host and the account framework rather than by the
   * handler bodies: a referenced record that does not exist, an `init` target
   * that already exists, a violated `seeds` or `has_one` constraint, a system
   * transfer the payer cannot cover or the payee cannot hold, and the panic of
   * an `unwrap` on a failed checked addition.
   */
  datatype HostError =
    | AccountNotInitialized
    | AccountAlreadyInUse
    | ConstraintSeeds
    | ConstraintHasOne
    | InsufficientLamports
    | LamportOverflow
    | Panic

  datatype Failure = Program(code: ArtistError) | Host(reason: HostError)

  /** The result of one instruction, as the caller sees it. */
  type Outcome = Result<(), Failure>

  /** A work is derived from its artist and the artist's work count at posting time. */
  type WorkId = (Pubkey, u8)

  datatype ArtistProfile = ArtistProfile(
    owner: Pubkey,
    name: Text,
    bio: Text,
    links: seq<Text>,
    followerCount: u64,
    totalTips: u64,
    workCount: u8,
    bump: u8)

  datatype FollowerAccount = FollowerAccount(
    follower: Pubkey,
    artist: Pubkey,
    isFollowing: bool,
    bump: u8)

  datatype Work = Work(
    artist: Pubkey,
    title: Text,
    description: Text,
    contentUrl: Text,
    likes: u64,
    commentCount: u64,
    timestamp: i64,
    bump: u8)

  datatype Interaction = Interaction(
    user: Pubkey,
    work: WorkId,
    hasLiked: bool,
    comment: Option<Text>,
    timestamp: i64,
    bump: u8)

  datatype CollabRequest = CollabRequest(
    requester: Pubkey,
    artist: Pubkey,
    description: Text,
    status: CollabStatus,
    timestamp: i64,
    bump: u8)

  /**
   * The records an `init` constraint hands to a handler: freshly allocated
   * account data is all zero bytes, which decodes to zero keys, empty
   * strings, `false`, `None` and the first enum variant.
   */
  const FRESH_FOLLOWER: FollowerAccount := FollowerAccount(0, 0, false, 0)
  const FRESH_INTERACTION: Interaction := Interaction(0, (0, 0), false, None, 0, 0)
}
