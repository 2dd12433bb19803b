/**
 * The sticker composer (`create_sticker`): copies the banner, pastes the
 * avatar when it loaded, then draws the name, level, uid, likes and guild
 * texts at their fixed slots. Pixels are abstracted into a Plan.
 */
module Composer {
  import opened Wrappers
  import opened JsonValues
  import opened Layout

  /** A mutable copy of the banner, recording what has been pasted and drawn on it. */
  class Canvas {
    var pastes: seq<Paste>
    var overlays: seq<TextOverlay>

    /** `banner.copy()`: a fresh canvas on which nothing has been drawn yet. */
    constructor CopyOf()
      ensures pastes == [] && overlays == []
    {
      pastes := [];
      overlays := [];
    }

    /** `sticker.paste(image, position, mask)`: a new layer on top of what is there. */
    method PasteImage(p: Paste)
      modifies this
      ensures pastes == old(pastes) + [p]
      ensures overlays == old(overlays)
    {
      pastes := pastes + [p];
    }

    /** `draw.text(position, text, font, fill)`: a new text layer on top of what is there. */
    method DrawText(o: TextOverlay)
      modifies this
      ensures overlays == old(overlays) + [o]
      ensures pastes == old(pastes)
    {
      overlays := overlays + [o];
    }

    function Snapshot(): Plan
      reads this
    {
      Plan(pastes, overlays)
    }
  }

  /** `load_fonts`, given whether the font file could be read: the three handles or nothing. */
  function LoadFonts(fontFileReadable: bool): (r: Option<FontSet>)
    ensures r.Some? <==> fontFileReadable
    ensures r.Some? ==> r.value.name == 30 && r.value.uid == 25 && r.value.guild == 25
  {
    if fontFileReadable then Some(Fonts) else None
  }

  /** The drawn level: the level's text, with "Lv" put in front unless it already starts so. */
  function LevelText(level: Scalar): (r: string)
    ensures StartsWith(r, "Lv")
    ensures r == Text(level) || r == "Lv" + Text(level)
    ensures r == Text(level) <==> StartsWith(Text(level), "Lv")
  {
    if StartsWith(Text(level), "Lv") then Text(level) else "Lv" + Text(level)
  }

  /** Name and level: drawn on every sticker, both with the name font, black. */
  function HeadLayer(fonts: FontSet, name: string, level: Scalar): (r: seq<TextOverlay>)
    ensures |r| == 2 && r[0].pos == NamePos && r[0].text == name
    ensures r[1].pos == LevelPos && StartsWith(r[1].text, "Lv")
  {
    [TextOverlay(NamePos, name, fonts.name, Black), TextOverlay(LevelPos, LevelText(level), fonts.name, Black)]
  }

  /** The uid line, only for a non-empty uid, with the uid font, white. */
  function UidLayer(fonts: FontSet, uid: string): (r: seq<TextOverlay>)
    ensures |r| <= 1 && (r != [] <==> uid != "")
    ensures forall o | o in r :: o.pos == UidPos && o.text == "UID: " + uid
  {
    if uid != "" then [TextOverlay(UidPos, "UID: " + uid, fonts.uid, White)] else []
  }

  /** The likes value as text, unless it is exactly the empty string, with the name font, black. */
  function LikesLayer(fonts: FontSet, likes: Scalar): (r: seq<TextOverlay>)
    ensures |r| <= 1 && (r != [] <==> likes != JString(""))
    ensures forall o | o in r :: o.pos == LikesPos && o.text == Text(likes) && o.text != ""
  {
    if likes != JString("") then [TextOverlay(LikesPos, Text(likes), fonts.name, Black)] else []
  }

  /** The guild name verbatim, only when present and non-empty, with the guild font, white. */
  function GuildLayer(fonts: FontSet, guildName: Option<string>): (r: seq<TextOverlay>)
    ensures |r| <= 1 && (r != [] <==> guildName.Some? && guildName.value != "")
    ensures forall o | o in r :: o.pos == GuildPos && o.text == guildName.value && o.text != ""
  {
    if guildName.Some? && guildName.value != "" then [TextOverlay(GuildPos, guildName.value, fonts.guild, White)] else []
  }

  /** The text layer of a sticker, in drawing order. */
  function Overlays(fonts: FontSet, name: string, uid: string, level: Scalar, likes: Scalar, guildName: Option<string>): (r: seq<TextOverlay>)
    ensures 2 <= |r| <= 5
    ensures |r| == 5 <==> uid != "" && likes != JString("") && guildName.Some? && guildName.value != ""
  {
    HeadLayer(fonts, name, level) + UidLayer(fonts, uid) + LikesLayer(fonts, likes) + GuildLayer(fonts, guildName)
  }

  /**
   * What `create_sticker` produces. `images(url)` says whether the image at
   * `url` downloads and decodes; `fontFileReadable` whether the font loads.
   */
  function StickerPlan(avatarUrl: string, name: string, uid: string, level: Scalar, likes: Scalar,
                       guildName: Option<string>, images: string -> bool, fontFileReadable: bool): (r: Option<Plan>)
    ensures r.None? <==> !images(DefaultBannerUrl) || !fontFileReadable
    ensures r.Some? ==> r.value.pastes == if images(avatarUrl) then [AvatarPaste] else []
  {
    if !images(DefaultBannerUrl) || !fontFileReadable then None
    else Some(Plan(if images(avatarUrl) then [AvatarPaste] else [],
                   Overlays(Fonts, name, uid, level, likes, guildName)))
  }

  /** `create_sticker`: load the banner, the avatar and the fonts, then draw on a copy of the banner. */
  method CreateSticker(avatarUrl: string, name: string, uid: string, level: Scalar, likes: Scalar,
                       guildName: Option<string>, images: string -> bool, fontFileReadable: bool)
    returns (r: Option<Plan>)
    ensures r == StickerPlan(avatarUrl, name, uid, level, likes, guildName, images, fontFileReadable)
  {
    var bannerLoaded := images(DefaultBannerUrl);
    if !bannerLoaded {
      return None;
    }
    var avatarLoaded := images(avatarUrl);
    var fonts := LoadFonts(fontFileReadable);
    if fonts.None? {
      return None;
    }
    assert fonts.value == Fonts;
    var sticker := new Canvas.CopyOf();
    DrawSticker(sticker, avatarLoaded, fonts.value, name, uid, level, likes, guildName);
    assert sticker.pastes == if avatarLoaded then [AvatarPaste] else [];
    assert sticker.overlays == Overlays(Fonts, name, uid, level, likes, guildName);
    return Some(sticker.Snapshot());
  }

  /** The drawing steps of `create_sticker`, applied in order to the banner copy. */
  method DrawSticker(sticker: Canvas, avatarLoaded: bool, fonts: FontSet,
                     name: string, uid: string, level: Scalar, likes: Scalar, guildName: Option<string>)
    modifies sticker
    ensures sticker.pastes == old(sticker.pastes) + if avatarLoaded then [AvatarPaste] else []
    ensures sticker.overlays == old(sticker.overlays) + Overlays(fonts, name, uid, level, likes, guildName)
  {
    if avatarLoaded {
      sticker.PasteImage(Paste(AvatarPosition, AvatarSize, AvatarSize));
    }
    ghost var start := sticker.overlays;
    DrawHead(sticker, fonts, name, level);
    DrawUid(sticker, fonts, uid);
    DrawLikes(sticker, fonts, likes);
    DrawGuild(sticker, fonts, guildName);
    AppendAssoc(start, HeadLayer(fonts, name, level), UidLayer(fonts, uid));
    AppendAssoc(start, HeadLayer(fonts, name, level) + UidLayer(fonts, uid), LikesLayer(fonts, likes));
    AppendAssoc(start, HeadLayer(fonts, name, level) + UidLayer(fonts, uid) + LikesLayer(fonts, likes), GuildLayer(fonts, guildName));
  }

  /** The name, then the level text, both with the name font in black. */
  method DrawHead(sticker: Canvas, fonts: FontSet, name: string, level: Scalar)
    modifies sticker
    ensures sticker.pastes == old(sticker.pastes)
    ensures sticker.overlays == old(sticker.overlays) + HeadLayer(fonts, name, level)
  {
    sticker.DrawText(TextOverlay(NamePos, name, fonts.name, Black));
    var levelText := LevelText(level);
    sticker.DrawText(TextOverlay(LevelPos, levelText, fonts.name, Black));
  }

  /** Draws "UID: " + uid with the uid font in white, for a non-empty uid only. */
  method DrawUid(sticker: Canvas, fonts: FontSet, uid: string)
    modifies sticker
    ensures sticker.pastes == old(sticker.pastes)
    ensures sticker.overlays == old(sticker.overlays) + UidLayer(fonts, uid)
  {
    if uid != "" {
      sticker.DrawText(TextOverlay(UidPos, "UID: " + uid, fonts.uid, White));
    }
  }

  /** Draws the likes value's text with the name font in black, unless the value is exactly "". */
  method DrawLikes(sticker: Canvas, fonts: FontSet, likes: Scalar)
    modifies sticker
    ensures sticker.pastes == old(sticker.pastes)
    ensures sticker.overlays == old(sticker.overlays) + LikesLayer(fonts, likes)
  {
    if likes != JString("") {
      sticker.DrawText(TextOverlay(LikesPos, Text(likes), fonts.name, Black));
    }
  }

  /** Draws the guild name with the guild font in white, when it is present and non-empty. */
  method DrawGuild(sticker: Canvas, fonts: FontSet, guildName: Option<string>)
    modifies sticker
    ensures sticker.pastes == old(sticker.pastes)
    ensures sticker.overlays == old(sticker.overlays) + GuildLayer(fonts, guildName)
  {
    if guildName.Some? && guildName.value != "" {
      sticker.DrawText(TextOverlay(GuildPos, guildName.value, fonts.guild, White));
    }
  }

  /** Sequence concatenation regrouped; spelled out to keep the drawing proof cheap. */
  lemma AppendAssoc(a: seq<TextOverlay>, b: seq<TextOverlay>, c: seq<TextOverlay>)
    ensures a + (b + c) == a + b + c
  {
  }

  /** Normalising an already normalised level text changes nothing. */
  lemma LevelTextIdempotent(level: Scalar)
    ensures LevelText(JString(LevelText(level))) == LevelText(level)
  {
  }

  /**
   * A level string keeps its text exactly when it already starts with "Lv";
   * every other level (a number, a boolean, null) is drawn as "Lv" + its text.
   */
  lemma LevelTextOfNonStrings(level: Scalar)
    requires !level.JString?
    ensures LevelText(level) == "Lv" + Text(level)
  {
    LvTextOnlyFromStrings(level);
  }

  /** Worked examples: "40" and 40 become "Lv40", "Lv99" and the placeholder "Lv.N" stay, null becomes "LvNone". */
  lemma LevelTextExamples()
    ensures LevelText(JString("40")) == "Lv40"
    ensures LevelText(JInt(40)) == "Lv40"
    ensures LevelText(JString("Lv99")) == "Lv99"
    ensures LevelText(JString("Lv.N")) == "Lv.N"
    ensures LevelText(JNull) == "LvNone"
  {
    assert NatDigits(40) == "40" by {
      assert NatDigits(4) == "4";
    }
    assert StartsWith("Lv99", "Lv") && StartsWith("Lv.N", "Lv");
  }

  /** Name and level are always the first two overlays, 30pt black, at their slots. */
  lemma NameAndLevelAlwaysDrawn(name: string, uid: string, level: Scalar, likes: Scalar, guildName: Option<string>)
    ensures var ov := Overlays(Fonts, name, uid, level, likes, guildName);
      && |ov| >= 2
      && ov[0] == TextOverlay(Point(180, 50), name, 30, Black)
      && ov[1] == TextOverlay(Point(45, 160), LevelText(level), 30, Black)
      && StartsWith(ov[1].text, "Lv")
  {
  }

  /** Looking up a slot in the text layer reduces to looking it up in the layer drawn for that slot. */
  lemma OverlayAtLayers(fonts: FontSet, name: string, uid: string, level: Scalar, likes: Scalar,
                        guildName: Option<string>, at: Point)
    ensures var head, u, k, g := HeadLayer(fonts, name, level), UidLayer(fonts, uid), LikesLayer(fonts, likes), GuildLayer(fonts, guildName);
      OverlayAt(Overlays(fonts, name, uid, level, likes, guildName), at)
        == if OverlayAt(head, at).Some? then OverlayAt(head, at)
           else if OverlayAt(u, at).Some? then OverlayAt(u, at)
           else if OverlayAt(k, at).Some? then OverlayAt(k, at)
           else OverlayAt(g, at)
  {
    var head, u, k, g := HeadLayer(fonts, name, level), UidLayer(fonts, uid), LikesLayer(fonts, likes), GuildLayer(fonts, guildName);
    OverlayAtAppend(head + u + k, g, at);
    OverlayAtAppend(head + u, k, at);
    OverlayAtAppend(head, u, at);
  }

  /** The uid text is drawn exactly when the uid is non-empty, as "UID: " + uid, 25pt white. */
  lemma UidOverlayIff(name: string, uid: string, level: Scalar, likes: Scalar, guildName: Option<string>)
    ensures OverlayAt(Overlays(Fonts, name, uid, level, likes, guildName), Point(284, 161))
      == if uid != "" then Some(TextOverlay(Point(284, 161), "UID: " + uid, 25, White)) else None
  {
    OverlayAtLayers(Fonts, name, uid, level, likes, guildName, UidPos);
  }

  /**
   * The likes text is drawn unless the raw value is exactly the empty string;
   * 0, false and null are drawn as "0", "False" and "None".
   */
  lemma LikesOverlayIff(name: string, uid: string, level: Scalar, likes: Scalar, guildName: Option<string>)
    ensures OverlayAt(Overlays(Fonts, name, uid, level, likes, guildName), Point(360, 120))
      == if likes != JString("") then Some(TextOverlay(Point(360, 120), Text(likes), 30, Black)) else None
  {
    OverlayAtLayers(Fonts, name, uid, level, likes, guildName, LikesPos);
  }

  /** The guild text is drawn exactly when the guild name is present and non-empty, verbatim, 25pt white. */
  lemma GuildOverlayIff(name: string, uid: string, level: Scalar, likes: Scalar, guildName: Option<string>)
    ensures OverlayAt(Overlays(Fonts, name, uid, level, likes, guildName), Point(300, 10))
      == if guildName.Some? && guildName.value != "" then Some(TextOverlay(Point(300, 10), guildName.value, 25, White)) else None
  {
    OverlayAtLayers(Fonts, name, uid, level, likes, guildName, GuildPos);
  }

  /** Every overlay sits in a template slot, and slots are visited in increasing rank. */
  predicate InSlotOrder(ov: seq<TextOverlay>) {
    (forall i | 0 <= i < |ov| :: 0 <= SlotRank(ov[i].pos))
    && forall i, j | 0 <= i < j < |ov| :: SlotRank(ov[i].pos) < SlotRank(ov[j].pos)
  }

  predicate RanksBelow(ov: seq<TextOverlay>, bound: int) {
    forall i | 0 <= i < |ov| :: SlotRank(ov[i].pos) < bound
  }

  predicate RanksFrom(ov: seq<TextOverlay>, bound: int) {
    forall i | 0 <= i < |ov| :: bound <= SlotRank(ov[i].pos)
  }

  lemma InSlotOrderAppend(a: seq<TextOverlay>, b: seq<TextOverlay>, bound: int)
    requires InSlotOrder(a) && InSlotOrder(b)
    requires RanksBelow(a, bound) && RanksFrom(b, bound)
    ensures InSlotOrder(a + b)
    ensures RanksBelow(b, bound + 1) ==> RanksBelow(a + b, bound + 1)
  {
    var ab := a + b;
    forall i, j | 0 <= i < j < |ab| ensures SlotRank(ab[i].pos) < SlotRank(ab[j].pos) {
      if j < |a| {
        assert ab[i] == a[i] && ab[j] == a[j];
      } else if i < |a| {
        assert ab[i] == a[i] && ab[j] == b[j - |a|];
      } else {
        assert ab[i] == b[i - |a|] && ab[j] == b[j - |a|];
      }
    }
    forall i | 0 <= i < |ab| ensures 0 <= SlotRank(ab[i].pos) && (RanksBelow(b, bound + 1) ==> SlotRank(ab[i].pos) < bound + 1) {
      if i < |a| { assert ab[i] == a[i]; } else { assert ab[i] == b[i - |a|]; }
    }
  }

  /** Every overlay sits in one of the five template slots, drawn in the order name, level, uid, likes, guild. */
  lemma OverlaysInSlotOrder(fonts: FontSet, name: string, uid: string, level: Scalar, likes: Scalar, guildName: Option<string>)
    ensures InSlotOrder(Overlays(fonts, name, uid, level, likes, guildName))
  {
    var head, u, k, g := HeadLayer(fonts, name, level), UidLayer(fonts, uid), LikesLayer(fonts, likes), GuildLayer(fonts, guildName);
    HeadLayerRanks(fonts, name, level);
    UidLayerRanks(fonts, uid);
    LikesLayerRanks(fonts, likes);
    GuildLayerRanks(fonts, guildName);
    InSlotOrderAppend(head, u, 2);
    InSlotOrderAppend(head + u, k, 3);
    InSlotOrderAppend(head + u + k, g, 4);
  }

  /** Each layer occupies its own band of slot ranks. */
  lemma HeadLayerRanks(fonts: FontSet, name: string, level: Scalar)
    ensures var head := HeadLayer(fonts, name, level); InSlotOrder(head) && RanksBelow(head, 2)
  {
    var head := HeadLayer(fonts, name, level);
    assert SlotRank(head[0].pos) == 0 && SlotRank(head[1].pos) == 1;
  }

  lemma UidLayerRanks(fonts: FontSet, uid: string)
    ensures var u := UidLayer(fonts, uid); InSlotOrder(u) && RanksFrom(u, 2) && RanksBelow(u, 3)
  {
  }

  lemma LikesLayerRanks(fonts: FontSet, likes: Scalar)
    ensures var k := LikesLayer(fonts, likes); InSlotOrder(k) && RanksFrom(k, 3) && RanksBelow(k, 4)
  {
  }

  lemma GuildLayerRanks(fonts: FontSet, guildName: Option<string>)
    ensures var g := GuildLayer(fonts, guildName); InSlotOrder(g) && RanksFrom(g, 4)
  {
  }

  /**
   * An avatar that fails to load costs only the paste: with the banner and
   * fonts loaded either way, the sticker is composed with the same texts.
   */
  lemma AvatarFailureNonFatal(avatarUrl: string, name: string, uid: string, level: Scalar, likes: Scalar,
                              guildName: Option<string>, images: string -> bool, fontFileReadable: bool)
    requires images(DefaultBannerUrl) && fontFileReadable && !images(avatarUrl)
    ensures var r := StickerPlan(avatarUrl, name, uid, level, likes, guildName, images, fontFileReadable);
      var withAvatar := StickerPlan(avatarUrl, name, uid, level, likes, guildName,
                                    u => u == avatarUrl || images(u), fontFileReadable);
      && r.Some? && withAvatar.Some?
      && r.value.pastes == [] && withAvatar.value.pastes == [Paste(Point(64, 57), 100, 100)]
      && r.value.overlays == withAvatar.value.overlays
  {
  }
}
