/**
 * Storage reserved for each record (`LEN`) and the encoded size of a record,
 * counted the way the `LEN` sums count it: an 8-byte discriminator, 32 bytes
 * per key, a 4-byte length before each string or list, one tag byte for an
 * `Option` or an enum, and the integers at their width.
 */
module Sizes {
  import opened Records

  const DISCRIMINATOR_LEN: nat := 8
  const PUBKEY_LEN: nat := 32
  const LENGTH_PREFIX_LEN: nat := 4

  /** The link length the profile's reservation assumes; no handler checks it. */
  const ASSUMED_LINK_LEN: nat := 100
  /** The content url length the work's reservation assumes; no handler checks it. */
  const ASSUMED_CONTENT_URL_LEN: nat := 200
  /** The description length the collaboration request's reservation assumes; no handler checks it. */
  const ASSUMED_COLLAB_DESCRIPTION_LEN: nat := 500

  const PROFILE_PADDING: nat := 200
  const FOLLOWER_PADDING: nat := 64
  const WORK_PADDING: nat := 200
  const INTERACTION_PADDING: nat := 100
  const COLLAB_PADDING: nat := 100

  const ARTIST_PROFILE_LEN: nat :=
    8 + 32 + (4 + 50) + (4 + 500) + (4 + (4 + 100) * 5) + 8 + 8 + 1 + 1 + PROFILE_PADDING
  const FOLLOWER_ACCOUNT_LEN: nat := 8 + 32 + 32 + 1 + 1 + FOLLOWER_PADDING
  const WORK_LEN: nat := 8 + 32 + (4 + 100) + (4 + 1000) + (4 + 200) + 8 + 8 + 8 + 1 + WORK_PADDING
  const INTERACTION_LEN: nat := 8 + 32 + 32 + 1 + (1 + 4 + 500) + 8 + 1 + INTERACTION_PADDING
  const COLLAB_REQUEST_LEN: nat := 8 + 32 + 32 + (4 + 500) + 1 + 8 + 1 + COLLAB_PADDING

  function TextSize(t: Text): nat {
    LENGTH_PREFIX_LEN + |t|
  }

  /** The encoded size of the elements of a list of strings (without the list's own length prefix). */
  function TextsSize(ts: seq<Text>): nat
    decreases |ts|
  {
    if ts == [] then 0 else TextSize(ts[0]) + TextsSize(ts[1..])
  }

  function ProfileSize(p: ArtistProfile): nat {
    DISCRIMINATOR_LEN + PUBKEY_LEN + TextSize(p.name) + TextSize(p.bio)
    + LENGTH_PREFIX_LEN + TextsSize(p.links) + 8 + 8 + 1 + 1
  }

  function FollowerSize(f: FollowerAccount): nat {
    DISCRIMINATOR_LEN + PUBKEY_LEN + PUBKEY_LEN + 1 + 1
  }

  function WorkSize(w: Work): nat {
    DISCRIMINATOR_LEN + PUBKEY_LEN + TextSize(w.title) + TextSize(w.description) + TextSize(w.contentUrl)
    + 8 + 8 + 8 + 1
  }

  function InteractionSize(i: Interaction): nat {
    DISCRIMINATOR_LEN + PUBKEY_LEN + PUBKEY_LEN + 1
    + (if i.comment.Some? then 1 + TextSize(i.comment.value) else 1)
    + 8 + 1
  }

  function CollabSize(c: CollabRequest): nat {
    DISCRIMINATOR_LEN + PUBKEY_LEN + PUBKEY_LEN + TextSize(c.description) + 1 + 8 + 1
  }

  /** A list of strings of at most `ASSUMED_LINK_LEN` bytes each is bounded by its length times one slot. */
  lemma {:induction false} TextsSizeBound(ts: seq<Text>)
    requires forall i :: 0 <= i < |ts| ==> |ts[i]| <= ASSUMED_LINK_LEN
    ensures TextsSize(ts) <= |ts| * (LENGTH_PREFIX_LEN + ASSUMED_LINK_LEN)
    decreases |ts|
  {
    if ts != [] {
      TextsSizeBound(ts[1..]);
    }
  }

  /**
   * A profile within the checked bounds whose links also keep to the length
   * the reservation assumes fits its space with the padding to spare.
   */
  lemma ProfileFitsWhenLinksAreShort(p: ArtistProfile)
    requires |p.name| <= 50 && |p.bio| <= 500 && |p.links| <= 5
    requires forall i :: 0 <= i < |p.links| ==> |p.links[i]| <= ASSUMED_LINK_LEN
    ensures ProfileSize(p) + PROFILE_PADDING <= ARTIST_PROFILE_LEN
  {
    TextsSizeBound(p.links);
  }

  /** Five links of 300 bytes pass every check of profile creation yet do not fit the reservation. */
  lemma LongLinksOverflowProfile()
    ensures var link := seq(300, _ => 0 as u8);
            var p := ArtistProfile(0, [], [], [link, link, link, link, link], 0, 0, 0, 0);
            && |p.name| <= MAX_NAME_LEN && |p.bio| <= MAX_BIO_LEN && |p.links| <= MAX_LINKS
            && ProfileSize(p) > ARTIST_PROFILE_LEN
  {
    var link := seq(300, _ => 0 as u8);
    var one, two, three, four, five := [link], [link, link], [link, link, link],
                                       [link, link, link, link], [link, link, link, link, link];
    assert one[1..] == [] && two[1..] == one && three[1..] == two && four[1..] == three && five[1..] == four;
    assert |link| == 300;
    assert TextsSize(one) == 304;
    assert TextsSize(two) == 2 * 304;
    assert TextsSize(three) == 3 * 304;
    assert TextsSize(four) == 4 * 304;
    assert TextsSize(five) == 5 * 304;
  }

  lemma FollowerAlwaysFits(f: FollowerAccount)
    ensures FollowerSize(f) + FOLLOWER_PADDING == FOLLOWER_ACCOUNT_LEN
  {
  }

  lemma WorkFitsWhenUrlIsShort(w: Work)
    requires |w.title| <= 100 && |w.description| <= 1000 && |w.contentUrl| <= ASSUMED_CONTENT_URL_LEN
    ensures WorkSize(w) + WORK_PADDING <= WORK_LEN
  {
  }

  /** The comment is checked against the bound the reservation assumes, so every interaction fits. */
  lemma InteractionFits(i: Interaction)
    requires i.comment.Some? ==> |i.comment.value| <= 500
    ensures InteractionSize(i) + INTERACTION_PADDING <= INTERACTION_LEN
  {
  }

  lemma CollabFitsWhenDescriptionIsShort(c: CollabRequest)
    requires |c.description| <= ASSUMED_COLLAB_DESCRIPTION_LEN
    ensures CollabSize(c) + COLLAB_PADDING <= COLLAB_REQUEST_LEN
  {
  }
}
