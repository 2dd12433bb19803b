/**
 * The fixed sticker template: asset constants, the avatar slot, the five text
 * slots with their font sizes and colours, and the plan of drawing operations
 * that stands for the composed image.
 */
module Layout {
  import opened Wrappers

  const DefaultAvatarId: string := "900000013"
  const DefaultBannerUrl: string := "https://api.ffcommunity.site/assets/storage/images/StickerAccV2.png"

  datatype Point = Point(x: int, y: int)

  const AvatarPosition: Point := Point(64, 57)
  const AvatarSize: nat := 100

  /** The three font handles: one typeface at 30pt (name), 25pt (uid) and 25pt (guild). */
  datatype FontSet = FontSet(name: nat, uid: nat, guild: nat)
  const Fonts: FontSet := FontSet(30, 25, 25)

  datatype Colour = Black | White

  const NamePos: Point := Point(180, 50)
  const LevelPos: Point := Point(45, 160)
  const UidPos: Point := Point(284, 161)
  const LikesPos: Point := Point(360, 120)
  const GuildPos: Point := Point(300, 10)

  /** An image pasted onto the banner, resized to width x height, with its own alpha as the mask. */
  datatype Paste = Paste(pos: Point, width: nat, height: nat)

  /** One `draw.text` call: where, what, at which point size and in which fill colour. */
  datatype TextOverlay = TextOverlay(pos: Point, text: string, size: nat, colour: Colour)

  /**
   * A composed sticker, abstracted from its pixels: the banner copy with the
   * pastes applied in order, then the text overlays drawn in order.
   */
  datatype Plan = Plan(pastes: seq<Paste>, overlays: seq<TextOverlay>)

  const AvatarPaste: Paste := Paste(AvatarPosition, AvatarSize, AvatarSize)

  /** Rank of a text slot in drawing order, or -1 for a position outside the template. */
  function SlotRank(p: Point): (k: int)
    ensures -1 <= k < 5
    ensures k == -1 <==> p !in {NamePos, LevelPos, UidPos, LikesPos, GuildPos}
  {
    if p == NamePos then 0
    else if p == LevelPos then 1
    else if p == UidPos then 2
    else if p == LikesPos then 3
    else if p == GuildPos then 4
    else -1
  }

  /** The first overlay drawn at position `at`, if any. */
  function OverlayAt(overlays: seq<TextOverlay>, at: Point): (r: Option<TextOverlay>)
    ensures r.Some? ==> r.value in overlays && r.value.pos == at
    ensures r.None? <==> forall o | o in overlays :: o.pos != at
  {
    if overlays == [] then None
    else if overlays[0].pos == at then Some(overlays[0])
    else OverlayAt(overlays[1..], at)
  }

  /** Looking up a position in two batches of overlays drawn one after the other. */
  lemma {:induction false} OverlayAtAppend(a: seq<TextOverlay>, b: seq<TextOverlay>, at: Point)
    ensures OverlayAt(a + b, at) == if OverlayAt(a, at).Some? then OverlayAt(a, at) else OverlayAt(b, at)
  {
    if a != [] {
      assert (a + b)[1..] == a[1..] + b;
      OverlayAtAppend(a[1..], b, at);
    } else {
      assert a + b == b;
    }
  }
}
