# Artist platform program, modelled in Dafny

This project models the on-chain `artist_platform` program (an Anchor program for Solana).
Artists create a profile and post works. Fans follow artists, tip them into a tips vault,
and like or comment on works. Anyone may send an artist a collaboration request, which the
artist accepts or rejects. The artist withdraws tips from the vault and may close the profile.

The model has six modules:

- `Records` (`records.dfy`): the five account records, the two enums, the `ArtistError`
  codes, and the failures the account framework or runtime raises around a handler. It also
  holds the fixed-width integer types. Strings are byte sequences, because Rust's `len()`
  counts bytes.
- `Ledger` (`ledger.dfy`): lamport balances of wallets and tips vaults. It includes the
  system program's transfer as one atomic debit-and-credit, and a ghost `Total` used to state
  conservation.
- `Handlers` (`handlers.dfy`): the eleven instructions as functions from the account state to
  `Ok(new state)` or `Err(failure)`. Every branch, error code and error order of each handler
  body is kept. Before the body, each function does what the account framework does:
  - a referenced record that does not exist gives `AccountNotInitialized`;
  - an `init` target that already exists gives `AccountAlreadyInUse`;
  - the `seeds` check gives `ConstraintSeeds`, and `has_one = owner` gives `ConstraintHasOne`.

  A derived address is identified with the seeds it is derived from. So a profile is keyed by
  its owner's key, a follower record by (artist, follower), a work by (artist, index), an
  interaction by (work, user), and a collaboration request by (artist, requester).
- `Program` (`program.dfy`): the class `Platform`. It holds every account as a map field, and
  each instruction is a method that works step by step like the handler. Each method is proved
  to produce exactly the outcome and the new state of its `Handlers` function. `Submit` runs
  one instruction. It is proved to keep the record invariants, the exact like and comment
  counters, and the lamport total.
- `Properties` (`properties.dfy`) holds the lemmas about the model:
  - invariants every instruction keeps;
  - exactness of the like, comment and follower counters;
  - conservation of lamports;
  - indexing of posted works;
  - what closing and re-creating a profile does;
  - one-shot records, owner-only mutation, and two end-to-end scenarios.
- `Sizes` (`sizes.dfy`): the `LEN` space reservations, the encoded size of each record, and
  which records fit.

A failed instruction changes nothing. The handler works on deserialised copies of its
records, and Anchor writes them back only on success. The runtime also undoes every lamport
move of a failed transaction. In `Handlers` an `Err` carries no state. In `Platform` the
methods commit their local copies only at the end, so `update_artist_profile` writing `name`
before it checks `bio` cannot leave a half-updated profile.

Behaviour of the code that the model makes explicit:

- **The `AlreadyFollowing` and `AlreadyLiked` checks never fire.** Follower and interaction
  records are `init` targets, so the handler always sees a zeroed record. A second follow,
  or a second like, is refused by the framework with `AccountAlreadyInUse`; the
  `AlreadyFollowing` and `AlreadyLiked` codes are never returned.
- **One interaction per user and work.** There is one interaction record per (work, user),
  so a user can either like a work or comment on it, never both.
- **At most 255 works per artist.** `work_count` is a `u8`. From a fresh profile, 255 posts
  within the bounds all succeed and fill indices 0 to 254 (`Properties.PostingWorks`). The
  256th fails with `NumericalOverflow` (`Properties.WorkCountCapped`).
- **Closing and re-creating a profile.** Closing removes only the profile; the works and
  follower records stay. A re-created profile starts at work count 0, and work 0 still
  exists, so every later post by that artist fails. Its follower count also starts at 0
  while the old follower records remain.
- **Unchecked bounds.** `LEN` reserves 100 bytes per link, 200 for a content url and 500
  for a collaboration description, but no handler checks any of these lengths. So a record
  can outgrow its reserved space (`Sizes.LongLinksOverflowProfile`).
- **Any withdrawal destination.** `withdraw_tips` credits whatever account is passed as
  `artist`; the code does not tie it to the owner.

## Model

| member | source | states |
|---|---|---|
| Ledger.Transfer | programs/artist_platform/src/lib.rs:120-131 | the system transfer fails with insufficient lamports when the payer holds less than the amount, or with an overflow when the payee's balance would leave `u64`; on success the payer loses exactly the amount, the payee gains it, and no other balance changes |
| Ledger.TransferConserves | programs/artist_platform/src/lib.rs:120-131 | a successful transfer leaves the total of all balances unchanged |
| Handlers.AuthorizationFailure | programs/artist_platform/src/lib.rs:281-286 | a profile that does not exist is reported before the seeds and `has_one` violations, and every such failure comes from the framework |
| Handlers.CreateArtistProfile | programs/artist_platform/src/lib.rs:10-31 | an existing profile for the owner is refused first; then `NameTooLong` (over 50 bytes), `BioTooLong` (over 500) and `TooManyLinks` (over 5), each exactly when the earlier checks pass; success exactly when all fit; the new profile records the signer as owner with the given fields and zero follower, tip and work counters, and nothing else changes |
| Handlers.CreateTipsVault | programs/artist_platform/src/lib.rs:34-36 | succeeds exactly when the profile exists and then changes nothing |
| Handlers.UpdateArtistProfile | programs/artist_platform/src/lib.rs:39-63 | only the profile's owner may update; each field given is re-checked against its creation bound, in the order name, bio, links, with the matching error exactly when that field is the first too long; on success the given fields are replaced and every other field and record is unchanged |
| Handlers.FollowArtist | programs/artist_platform/src/lib.rs:66-84 | never fails with `AlreadyFollowing`; a second follow of the same pair is refused by the framework; on success the new record names follower and artist with `is_following` set, the follower count rises by exactly one, and `NumericalOverflow` is raised exactly at the `u64` maximum |
| Handlers.PostWork | programs/artist_platform/src/lib.rs:87-112 | the work is stored under the artist's old work count, which must be free; `TitleTooLong` (over 100) and `DescriptionTooLong` (over 1000) in that order; the new work has no likes and no comments; the work count rises by one; `NumericalOverflow` exactly when the count is 255 |
| Handlers.TipArtist | programs/artist_platform/src/lib.rs:115-137 | amount 0 fails with `InvalidAmount`; a tipper short of lamports is refused by the transfer; on success the tipper loses the amount, the vault gains it and `total_tips` rises by it, with `NumericalOverflow` when `total_tips` would leave `u64` |
| Handlers.InteractWithWork | programs/artist_platform/src/lib.rs:140-171 | never fails with `AlreadyLiked`; a second interaction of the same user with the same work is refused by the framework; a like sets `has_liked` and raises `likes` by one; a comment needs text (`CommentRequired`) of at most 500 bytes (`CommentTooLong`), is stored, and raises `comment_count` by one; `NumericalOverflow` exactly when the counter being raised is at the `u64` maximum; user, work and time are stamped, and no other work changes |
| Handlers.CreateCollabRequest | programs/artist_platform/src/lib.rs:174-188 | succeeds exactly when the artist's profile exists and the requester has no request to that artist yet; the new request is pending, with the given description and time |
| Handlers.UpdateCollabStatus | programs/artist_platform/src/lib.rs:191-204 | only the artist's owner may resolve a request; a request that is not pending fails with `CollabAlreadyResolved`; on success the status is exactly the value supplied, `Pending` included, and nothing else changes |
| Handlers.WithdrawTips | programs/artist_platform/src/lib.rs:207-227 | only the owner may withdraw; `InsufficientFunds` when the amount exceeds the vault or would leave it below the minimum reserve; on success the vault loses the amount, the destination gains it, the vault keeps at least the reserve, and no other balance or record changes |
| Handlers.CloseArtistProfile | programs/artist_platform/src/lib.rs:230-245 | the profile passed must be the one derived from the artist account and record the signer as owner; it is removed, the whole vault balance moves to the artist's wallet, and the vault is left empty; `NumericalOverflow` when the wallet's balance would leave `u64` |
| Sizes.ProfileFitsWhenLinksAreShort | programs/artist_platform/src/lib.rs:557-568 | a profile within the checked bounds, whose links are at most 100 bytes each, fits the reserved space with the padding to spare |
| Sizes.LongLinksOverflowProfile | programs/artist_platform/src/lib.rs:557-568 | a profile with five links of 300 bytes keeps the name, bio and link-count bounds that creation checks, and still exceeds the reserved space |
| Sizes.FollowerAlwaysFits | programs/artist_platform/src/lib.rs:570-577 | a follower record takes exactly its reservation less the padding |
| Sizes.WorkFitsWhenUrlIsShort | programs/artist_platform/src/lib.rs:579-590 | a work within the checked bounds, whose content url is at most 200 bytes, fits its reservation |
| Sizes.InteractionFits | programs/artist_platform/src/lib.rs:592-601 | every interaction the handler can store fits its reservation |
| Sizes.CollabFitsWhenDescriptionIsShort | programs/artist_platform/src/lib.rs:603-612 | a collaboration request whose description is at most 500 bytes fits its reservation |
| Properties.GenesisValid | programs/artist_platform/src/lib.rs:460-510 | the empty deployment satisfies the record invariants and all counters are exact |
| Properties.CreateProfileValid | programs/artist_platform/src/lib.rs:10-31 | profile creation keeps the record invariants |
| Properties.UpdateProfileValid | programs/artist_platform/src/lib.rs:39-63 | a profile update keeps the record invariants |
| Properties.FollowValid | programs/artist_platform/src/lib.rs:66-84 | following keeps the record invariants |
| Properties.PostValid | programs/artist_platform/src/lib.rs:87-112 | posting keeps the record invariants |
| Properties.TipValid | programs/artist_platform/src/lib.rs:115-137 | tipping keeps the record invariants |
| Properties.InteractValid | programs/artist_platform/src/lib.rs:140-171 | an interaction keeps the record invariants: one record per (work, user) for an existing work, holding either a like or a comment of at most 500 bytes |
| Properties.CreateCollabValid | programs/artist_platform/src/lib.rs:174-188 | creating a request keeps the record invariants |
| Properties.UpdateCollabValid | programs/artist_platform/src/lib.rs:191-204 | resolving a request keeps the record invariants |
| Properties.WithdrawValid | programs/artist_platform/src/lib.rs:207-227 | a withdrawal keeps the record invariants |
| Properties.CloseValid | programs/artist_platform/src/lib.rs:230-245 | closing a profile keeps the record invariants |
| Properties.ExecutePreservesValid | programs/artist_platform/src/lib.rs:10-245 | every instruction, failed or not, keeps every record consistent with its seeds and within the bounds its handler checks |
| Properties.RunPreservesValid | programs/artist_platform/src/lib.rs:10-245 | any sequence of instructions keeps the record invariants and the exact like and comment counters |
| Properties.InteractionKeepsCountersExact | programs/artist_platform/src/lib.rs:140-171 | after an interaction each work's `likes` and `comment_count` are still the numbers of likes and comments recorded for it |
| Properties.PostKeepsCountersExact | programs/artist_platform/src/lib.rs:87-112 | posting keeps every work's counters exact, because the new work starts at zero with no interactions yet |
| Properties.ExecuteKeepsCountersExact | programs/artist_platform/src/lib.rs:10-245 | no instruction lets a work's counters drift from the likes and comments recorded for it |
| Properties.FollowKeepsFollowerCounts | programs/artist_platform/src/lib.rs:66-84 | a follow keeps every profile's `follower_count` equal to the number of follower records naming it |
| Properties.ExecuteKeepsFollowerCounts | programs/artist_platform/src/lib.rs:10-245 | every instruction keeps follower counts exact, unless it creates a profile for an owner whose closed profile left follower records behind |
| Properties.TipConserves | programs/artist_platform/src/lib.rs:115-137 | a tip neither creates nor destroys lamports |
| Properties.WithdrawConserves | programs/artist_platform/src/lib.rs:207-227 | a withdrawal only moves lamports from the vault to the destination |
| Properties.CloseConserves | programs/artist_platform/src/lib.rs:230-245 | closing only moves the vault balance to the artist's wallet |
| Properties.OthersKeepLamports | programs/artist_platform/src/lib.rs:10-112 | the instructions that neither tip, withdraw nor close leave every balance as it was |
| Properties.ExecuteConservesLamports | programs/artist_platform/src/lib.rs:10-245 | no instruction changes the total number of lamports |
| Properties.RunConservesLamports | programs/artist_platform/src/lib.rs:10-245 | no sequence of instructions changes the total number of lamports |
| Properties.PostingCounts | programs/artist_platform/src/lib.rs:87-112 | N posts within the bounds by the owner all succeed as long as the count ends at most 255: the work count rises by N and the works that existed stay as they were |
| Properties.PostingStores | programs/artist_platform/src/lib.rs:87-112 | the i-th of N such posts is stored under the old work count plus i |
| Properties.PostingWorks | programs/artist_platform/src/lib.rs:312-336 | after N posts by the owner, ending at a count of at most 255, the work count is the old count plus N, earlier works are untouched, and the i-th post sits at the old count plus i with no likes and no comments |
| Properties.WorkCountCapped | programs/artist_platform/src/lib.rs:108-109 | with the work count at 255 a post within the bounds fails with `NumericalOverflow` |
| Properties.StaleWorkBlocksPosting | programs/artist_platform/src/lib.rs:312-324 | once work 0 exists and the artist's profile is absent or at work count 0, that stays so after any sequence of instructions |
| Properties.RecreatedProfileCannotPost | programs/artist_platform/src/lib.rs:438-458 | create, post, close and re-create leave work 0 in place with work count 0, so the next post is refused |
| Properties.RecreatedProfileUndercountsFollowers | programs/artist_platform/src/lib.rs:438-458 | create, follow, close and re-create leave one follower record but a follower count of 0, and the follower cannot follow again |
| Properties.SecondInteractionRefused | programs/artist_platform/src/lib.rs:353-372 | after a user's like, any further like or comment by that user on that work is refused by the framework |
| Properties.CollabResolvedOnce | programs/artist_platform/src/lib.rs:197-202 | a request accepted or rejected cannot be resolved again, whatever status is supplied |
| Properties.PendingCanBeResupplied | programs/artist_platform/src/lib.rs:197-202 | supplying `Pending` succeeds, changes nothing and can be repeated |
| Properties.EmptyUpdateChangesNothing | programs/artist_platform/src/lib.rs:39-63 | an owner's update that names no field succeeds and changes nothing |
| Properties.OnlyOwnerMutates | programs/artist_platform/src/lib.rs:279-458 | for all arguments, a signer who is not the profile's owner can neither update it, post to it, withdraw from its vault, resolve its requests nor close it |
| Properties.LikeScenario | programs/artist_platform/src/lib.rs:87-171 | create a profile, post a work, like it once, which gives one like; the same fan's second like is refused by the framework |
| Properties.TipThenWithdrawScenario | programs/artist_platform/src/lib.rs:115-227 | tipping 1000 lamports and withdrawing 1000 with no reserve empties the vault, pays the artist 1000, leaves the fan 4000 and keeps `total_tips` at 1000 |
| Program.Platform.constructor | programs/artist_platform/src/lib.rs:5-8 | a fresh deployment has no records and satisfies the invariants |
| Program.Platform.CheckOwner | programs/artist_platform/src/lib.rs:281-286 | the owner checks succeed exactly when the profile exists, is derived from the signer and records the signer as owner, and report the framework's failure otherwise |
| Program.Platform.CreateArtistProfile | programs/artist_platform/src/lib.rs:10-31 | the method's outcome and new accounts are those of `Handlers.CreateArtistProfile` |
| Program.Platform.CreateTipsVault | programs/artist_platform/src/lib.rs:34-36 | the method's outcome and new accounts are those of `Handlers.CreateTipsVault` |
| Program.Platform.UpdateArtistProfile | programs/artist_platform/src/lib.rs:39-63 | the method's outcome and new accounts are those of `Handlers.UpdateArtistProfile`, and a failed update leaves every account as it was |
| Program.Platform.FollowArtist | programs/artist_platform/src/lib.rs:66-84 | the method's outcome and new accounts are those of `Handlers.FollowArtist` |
| Program.Platform.PostWork | programs/artist_platform/src/lib.rs:87-112 | the method's outcome and new accounts are those of `Handlers.PostWork` |
| Program.Platform.TipArtist | programs/artist_platform/src/lib.rs:115-137 | the method's outcome and new accounts are those of `Handlers.TipArtist` |
| Program.Platform.InteractWithWork | programs/artist_platform/src/lib.rs:140-171 | the method's outcome and new accounts are those of `Handlers.InteractWithWork` |
| Program.Platform.CreateCollabRequest | programs/artist_platform/src/lib.rs:174-188 | the method's outcome and new accounts are those of `Handlers.CreateCollabRequest` |
| Program.Platform.UpdateCollabStatus | programs/artist_platform/src/lib.rs:191-204 | the method's outcome and new accounts are those of `Handlers.UpdateCollabStatus` |
| Program.Platform.WithdrawTips | programs/artist_platform/src/lib.rs:207-227 | the method's outcome and new accounts are those of `Handlers.WithdrawTips` |
| Program.Platform.CloseArtistProfile | programs/artist_platform/src/lib.rs:230-245 | the method's outcome and new accounts are those of `Handlers.CloseArtistProfile` |
| Program.Platform.Submit | programs/artist_platform/src/lib.rs:10-245 | one transaction has the effect of its instruction; a failed one changes nothing; the record invariants, the like and comment counters and the lamport total hold afterwards whenever they held before |

## Left out

- `tests/artist_platform.ts` is a client that talks to a local validator over the network, so it is not logic. Its checks appear here as lemmas: the follow, like and collaboration refusals, and the tip and withdraw scenario.
- Address derivation and `declare_id!` are left out. A derived address is identified with its seeds, which is sound because the derivation is injective. The bump is an ordinary byte parameter.
- Signature verification is left out. The signer's key is a parameter of each instruction.
- Handlers.TipArtist, Ledger.Transfer: the system program's transfer call is an abstract atomic transfer on the balance map. Its failures are reduced to too few lamports and a credit overflow.
- `Clock::get()` and `Rent::get().minimum_balance(0)` are the `now` and `minReserve` parameters.
- Borsh serialisation is left out. So is the framework's failure when a record outgrows its reserved space on write-back: the handlers never raise it. `Sizes` computes the sizes and shows when a record fits.
- Rent is not modelled: not the rent `init` charges its payer, and not the refund of the profile account's own lamports to the artist on close (`close = artist`).
- Handlers.CreateTipsVault: creating and funding the vault account is host behaviour and is not modelled. The instruction only needs the profile to exist, and repeating it also succeeds.
- Handlers.WithdrawTips, Handlers.CloseArtistProfile: the vault is a system account. The runtime's rule that only an account's owning program may debit it is not modelled. Both handlers debit the vault as the code writes it. Under that rule a validator would refuse every withdrawal of a positive amount and every close of a non-empty vault. So the success paths of these two handlers, and `Properties.TipThenWithdrawScenario`, describe the code as written, not what a validator accepts.
- The host's order among its own checks (missing record, taken `init` target, seeds, `has_one`) is a modelling choice. The order within each handler body follows the code.
- A collaboration request is keyed by (artist, requester). So `update_collab_status`'s seeds check on `collab_request.requester` always holds, and it is not modelled separately.
- The error messages (`#[msg]`) are not modelled, only the error codes.
