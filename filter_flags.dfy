/** File-type filter flags of the Qt4 dialogs provider.
    The source declares them as `#define`d `int` constants and combines them
    with `|`; they are modelled here as 32-bit bit-vectors. */
module FilterFlags {

  /** The five file-type categories an open-file dialog can offer. */
  datatype Category = Media | Video | Audio | Playlist | Subtitle

  const MediaFilter: bv32 := 0x01
  const VideoFilter: bv32 := 0x02
  const AudioFilter: bv32 := 0x04
  const PlaylistFilter: bv32 := 0x08
  const SubtitleFilter: bv32 := 0x10

  /** Exactly one bit of `f` is set. */
  predicate IsSingleBit(f: bv32) {
    f != 0 && f & (f - 1) == 0
  }

  /** The flag constant of a category. */
  function Flag(c: Category): (f: bv32)
    ensures IsSingleBit(f)
    ensures f & 0x1F == f
  {
    match c
    case Media => MediaFilter
    case Video => VideoFilter
    case Audio => AudioFilter
    case Playlist => PlaylistFilter
    case Subtitle => SubtitleFilter
  }

  /** Two categories share no bit, and only equal categories share their flag. */
  lemma FlagsDisjoint(c: Category, d: Category)
    ensures c != d <==> Flag(c) & Flag(d) == 0
    ensures Flag(c) == Flag(d) <==> c == d
  {
  }

  /** A mask requests category `c` (the test `filters & EXT_FILTER_x`).
      Because each flag is a single bit, a non-zero `&` means the whole flag is set. */
  predicate Has(mask: bv32, c: Category)
    ensures Has(mask, c) <==> mask & Flag(c) == Flag(c)
  {
    mask & Flag(c) != 0
  }

  /** The OR of the flags of every category listed in `cs`; it never sets a
      bit outside the five flags. */
  function MaskOf(cs: seq<Category>): (m: bv32)
    ensures m & 0x1F == m
  {
    if cs == [] then 0 else Flag(cs[0]) | MaskOf(cs[1..])
  }

  /** Membership of each category in an OR-combined mask can be tested on
      its own: the mask requests exactly the categories that were OR-ed in. */
  lemma {:induction false} MaskOfHas(cs: seq<Category>, c: Category)
    ensures Has(MaskOf(cs), c) <==> c in cs
  {
    if cs != [] {
      MaskOfHas(cs[1..], c);
      FlagsDisjoint(cs[0], c);
      assert c in cs <==> c == cs[0] || c in cs[1..];
    }
  }

  /** The mask with exactly the named bits set, one argument per category. */
  function Bits(media: bool, video: bool, audio: bool, playlist: bool, subtitle: bool): bv32 {
    (if media then MediaFilter else 0) |
    (if video then VideoFilter else 0) |
    (if audio then AudioFilter else 0) |
    (if playlist then PlaylistFilter else 0) |
    (if subtitle then SubtitleFilter else 0)
  }

  /** OR-ing in one more flag sets exactly that category's bit. */
  lemma BitsOr(c: Category, media: bool, video: bool, audio: bool, playlist: bool, subtitle: bool)
    ensures Flag(c) | Bits(media, video, audio, playlist, subtitle)
         == Bits(media || c == Media, video || c == Video, audio || c == Audio,
                 playlist || c == Playlist, subtitle || c == Subtitle)
  {
  }

  /** The mask written out bit by bit: bit k is set iff the k-th category is listed. */
  function Canonical(cs: seq<Category>): bv32 {
    Bits(Media in cs, Video in cs, Audio in cs, Playlist in cs, Subtitle in cs)
  }

  lemma {:induction false} MaskOfIsCanonical(cs: seq<Category>)
    ensures MaskOf(cs) == Canonical(cs)
  {
    if cs != [] {
      var tail := cs[1..];
      MaskOfIsCanonical(tail);
      assert forall c :: c in cs <==> c == cs[0] || c in tail;
      BitsOr(cs[0], Media in tail, Video in tail, Audio in tail, Playlist in tail, Subtitle in tail);
    }
  }

  /** Flags form a set, not a multiset: two listings of the same categories,
      in any order and with any repetition, give the same mask, and
      different sets of categories give different masks. */
  lemma MaskOfDependsOnlyOnMembers(cs: seq<Category>, ds: seq<Category>)
    ensures MaskOf(cs) == MaskOf(ds) <==> forall c :: c in cs <==> c in ds
  {
    MaskOfIsCanonical(cs);
    MaskOfIsCanonical(ds);
    if MaskOf(cs) == MaskOf(ds) {
      forall c ensures c in cs <==> c in ds {
        MaskOfHas(cs, c);
        MaskOfHas(ds, c);
      }
    }
    if forall c :: c in cs <==> c in ds {
      assert Media in cs <==> Media in ds;
      assert Video in cs <==> Video in ds;
      assert Audio in cs <==> Audio in ds;
      assert Playlist in cs <==> Playlist in ds;
      assert Subtitle in cs <==> Subtitle in ds;
      assert Canonical(cs) == Canonical(ds);
    }
  }

  /** The `filters` argument `showSimpleOpen` takes when its caller gives none:
      media, video, audio and playlist files, but not subtitles. */
  function SimpleOpenDefaultFilters(): (m: bv32)
    ensures m == 0x0F
    ensures forall c :: Has(m, c) <==> c != Subtitle
  {
    MediaFilter | VideoFilter | AudioFilter | PlaylistFilter
  }
}
