/**
 * The request handler (`generate_banner`, route /api/sticker): checks the uid,
 * asks the account API, extracts and normalises the account fields, builds the
 * avatar URL, composes the sticker and picks the response.
 */
module Handler {
  import opened Wrappers
  import opened JsonValues
  import opened Layout
  import opened Composer

  /** The "Guild Information" entry of the account JSON. */
  datatype GuildInfo =
    | NoGuildInfo                              // key absent: `.get(..., {})` gives an empty object
    | GuildInfoNotObject                       // present but not an object: `.get` raises
    | GuildInfoObject(guildName: Option<string>)  // None: "GuildName" absent or null

  /**
   * The decoded account JSON object. A None field is an absent key, so the
   * `.get` default applies; `Some(JNull)` is a key present with value null.
   */
  datatype Account = Account(
    accountName: Option<string>,
    accountLevel: Option<Scalar>,
    accountLikes: Option<Scalar>,
    accountAvatarId: Option<Scalar>,
    guildInfo: GuildInfo)

  /** What the account API call yields: any request, status or decoding error is one failure. */
  datatype ApiReply = ApiFailure | ApiOk(data: Account)

  /** The values `generate_banner` hands to `create_sticker`. */
  datatype Fields = Fields(name: string, level: Scalar, likes: Scalar, avatarId: Scalar, guildName: Option<string>)

  datatype Response = ErrorJson(status: nat, error: string) | PngImage(sticker: Plan)

  function Status(r: Response): nat {
    match r
    case ErrorJson(status, _) => status
    case PngImage(_) => 200
  }

  const ApiHost: string := "https://api.ffcommunity.site"
  const AvatarUrlPrefix: string := ApiHost + "/assets/library/icon/pot/"
  const LevelPlaceholder: string := "Lv.N"
  const DefaultRegion: string := "sg"
  const ApiQueryPrefix: string := ApiHost + "/api/php/info.php?uid="

  /** The account API request URL; uid and region are substituted without any escaping. */
  function ApiUrl(uid: string, region: string): (r: string)
    ensures |r| == |ApiQueryPrefix| + |uid| + 8 + |region|
    ensures r[..|ApiQueryPrefix| + |uid|] == ApiQueryPrefix + uid
    ensures r[|ApiQueryPrefix| + |uid|..|ApiQueryPrefix| + |uid| + 8] == "&region="
    ensures r[|r| - |region|..] == region
  {
    ApiQueryPrefix + uid + "&region=" + region
  }

  /** As long as the uid holds no '&', the request URL determines both uid and region. */
  lemma ApiUrlUnambiguous(uid1: string, region1: string, uid2: string, region2: string)
    requires '&' !in uid1 && '&' !in uid2
    requires ApiUrl(uid1, region1) == ApiUrl(uid2, region2)
    ensures uid1 == uid2 && region1 == region2
  {
    var n := |ApiQueryPrefix|;
    SeparatorAt(uid1, region1);
    SeparatorAt(uid2, region2);
    UidCharAt(uid2, region2, |uid1|);
    UidCharAt(uid1, region1, |uid2|);
    assert |uid1| == |uid2|;
    var u := ApiUrl(uid1, region1);
    assert ApiQueryPrefix + uid1 == u[..n + |uid1|] == ApiQueryPrefix + uid2;
    assert uid1 == (ApiQueryPrefix + uid1)[n..] == (ApiQueryPrefix + uid2)[n..] == uid2;
    assert region1 == u[|u| - |region1|..] == region2;
  }

  /** The request URL holds '&' right after the uid. */
  lemma SeparatorAt(uid: string, region: string)
    ensures ApiUrl(uid, region)[|ApiQueryPrefix| + |uid|] == '&'
  {
    var u, i := ApiUrl(uid, region), |ApiQueryPrefix| + |uid|;
    assert u[i..i + 8][0] == u[i];
  }

  /** Inside the uid part, the request URL holds the uid's own characters. */
  lemma UidCharAt(uid: string, region: string, k: nat)
    ensures k < |uid| ==> ApiUrl(uid, region)[|ApiQueryPrefix| + k] == uid[k]
  {
    var u, n := ApiUrl(uid, region), |ApiQueryPrefix|;
    if k < |uid| {
      assert u[..n + |uid|][n + k] == u[n + k];
      assert (ApiQueryPrefix + uid)[n + k] == uid[k];
    }
  }

  /** The avatar image URL: the avatar id's text substituted into the icon path. */
  function AvatarUrl(avatarId: Scalar): (url: string)
    ensures StartsWith(url, AvatarUrlPrefix)
  {
    AvatarUrlPrefix + Text(avatarId) + ".png"
  }

  /** Reads the avatar id back out of an icon URL. */
  function AvatarIdOfUrl(url: string): Option<string> {
    if StartsWith(url, AvatarUrlPrefix) && |url| >= |AvatarUrlPrefix| + 4 && url[|url| - 4..] == ".png"
    then Some(url[|AvatarUrlPrefix|..|url| - 4])
    else None
  }

  /** The avatar URL names exactly the avatar id it was built from. */
  lemma AvatarUrlRoundTrip(avatarId: Scalar)
    ensures AvatarIdOfUrl(AvatarUrl(avatarId)) == Some(Text(avatarId))
  {
    var url := AvatarUrl(avatarId);
    assert url == AvatarUrlPrefix + (Text(avatarId) + ".png");
    assert url[|url| - 4..] == ".png";
    assert url[|AvatarUrlPrefix|..|url| - 4] == Text(avatarId);
  }

  /** The sentinels null, "" and "Not Found" all mean "no guild"; any other name is kept. */
  function NormaliseGuild(guildName: Option<string>): (r: Option<string>)
    ensures r.None? <==> guildName == None || guildName == Some("") || guildName == Some("Not Found")
    ensures r.Some? ==> r == guildName && r.value != "" && r.value != "Not Found"
  {
    if guildName == None || guildName == Some("") || guildName == Some("Not Found") then None else guildName
  }

  /** A normalised guild name normalises to itself. */
  lemma NormaliseGuildIdempotent(guildName: Option<string>)
    ensures NormaliseGuild(NormaliseGuild(guildName)) == NormaliseGuild(guildName)
  {
  }

  /** The nested GuildName lookup, with an absent "Guild Information" read as an empty object. */
  function RawGuildName(info: GuildInfo): (r: Option<string>)
    ensures r.Some? <==> info.GuildInfoObject? && info.guildName.Some?
    ensures r.Some? ==> r == info.guildName
  {
    match info
    case NoGuildInfo => None
    case GuildInfoNotObject => None
    case GuildInfoObject(g) => g
  }

  /**
   * When the handler answers "Account Does Not Exist": the call failed, the
   * name is missing or empty, or the guild lookup raised inside the try block.
   */
  predicate AccountMissing(reply: ApiReply)
    ensures reply.ApiFailure? ==> AccountMissing(reply)
    ensures reply.ApiOk? && reply.data.accountName.Some? && reply.data.accountName.value != "" ==>
              (AccountMissing(reply) <==> reply.data.guildInfo.GuildInfoNotObject?)
  {
    || reply.ApiFailure?
    || reply.data.accountName.None?
    || reply.data.accountName.value == ""
    || reply.data.guildInfo.GuildInfoNotObject?
  }

  /** The field extraction and defaults of the try block; None where it answers 404. */
  function ExtractFields(reply: ApiReply): (r: Option<Fields>)
    ensures r.None? <==> AccountMissing(reply)
    ensures r.Some? ==> r.value.name == reply.data.accountName.value != ""
    ensures r.Some? ==> r.value.level == reply.data.accountLevel.GetOr(JString(LevelPlaceholder))
    ensures r.Some? ==> r.value.likes == reply.data.accountLikes.GetOr(JString(""))
    ensures r.Some? ==> r.value.avatarId == reply.data.accountAvatarId.GetOr(JString(DefaultAvatarId))
    ensures r.Some? ==> r.value.guildName == NormaliseGuild(RawGuildName(reply.data.guildInfo))
  {
    if reply.ApiFailure? then None
    else
      var data := reply.data;
      if data.accountName.None? || data.accountName.value == "" then None
      else if data.guildInfo.GuildInfoNotObject? then None
      else Some(Fields(
        data.accountName.value,
        data.accountLevel.GetOr(JString(LevelPlaceholder)),
        data.accountLikes.GetOr(JString("")),
        data.accountAvatarId.GetOr(JString(DefaultAvatarId)),
        NormaliseGuild(RawGuildName(data.guildInfo))))
  }

  /** The uid query parameter counts as given when present and non-empty. */
  predicate UidGiven(uid: Option<string>)
    ensures UidGiven(uid) <==> uid.GetOr("") != ""
  {
    uid.Some? && uid.value != ""
  }

  /** The account API reply for a request (only meaningful when the uid is given). */
  function Reply(uid: Option<string>, region: Option<string>, api: string -> ApiReply): (r: ApiReply)
    ensures region.None? ==> r == api(ApiUrl(uid.GetOr(""), DefaultRegion))
    ensures region.Some? ==> r == api(ApiUrl(uid.GetOr(""), region.value))
  {
    api(ApiUrl(uid.GetOr(""), region.GetOr(DefaultRegion)))
  }

  /**
   * `generate_banner`. `api(url)` is what the account API answers at `url`,
   * `images(url)` whether the image at `url` loads, and `fontFileReadable`
   * whether the bundled font loads.
   */
  function GenerateBanner(uid: Option<string>, region: Option<string>, api: string -> ApiReply,
                          images: string -> bool, fontFileReadable: bool): (r: Response)
    ensures Status(r) in {200, 400, 404, 500}
    ensures r.ErrorJson? ==> r.status in {400, 404, 500}
    ensures r.PngImage? <==> UidGiven(uid) && !AccountMissing(Reply(uid, region, api))
                             && images(DefaultBannerUrl) && fontFileReadable
    ensures Status(r) == 400 <==> !UidGiven(uid)
    ensures Status(r) == 404 <==> UidGiven(uid) && AccountMissing(Reply(uid, region, api))
    ensures Status(r) == 500 <==> UidGiven(uid) && !AccountMissing(Reply(uid, region, api))
                                  && (!images(DefaultBannerUrl) || !fontFileReadable)
    ensures r.ErrorJson? ==> r.error == match r.status
                                       case 400 => "Missing UID"
                                       case 404 => "Account Does Not Exist"
                                       case _ => "Failed to generate sticker"
  {
    if !UidGiven(uid) then ErrorJson(400, "Missing UID")
    else
      match ExtractFields(Reply(uid, region, api))
      case None => ErrorJson(404, "Account Does Not Exist")
      case Some(f) =>
        match StickerPlan(AvatarUrl(f.avatarId), f.name, uid.value, f.level, f.likes, f.guildName, images, fontFileReadable)
        case None => ErrorJson(500, "Failed to generate sticker")
        case Some(sticker) => PngImage(sticker)
  }

  /** A served sticker is the composer's plan for the extracted fields. */
  lemma ServedPlan(uid: Option<string>, region: Option<string>, api: string -> ApiReply,
                   images: string -> bool, fontFileReadable: bool)
    ensures var r := GenerateBanner(uid, region, api, images, fontFileReadable);
      r.PngImage? ==>
        && UidGiven(uid)
        && ExtractFields(Reply(uid, region, api)).Some?
        && var f := ExtractFields(Reply(uid, region, api)).value;
           && r.sticker.pastes == (if images(AvatarUrl(f.avatarId)) then [AvatarPaste] else [])
           && r.sticker.overlays == Overlays(Fonts, f.name, uid.value, f.level, f.likes, f.guildName)
  {
  }

  /** A missing or empty uid gets 400 whatever the API, the assets and the fonts would do. */
  lemma MissingUidIs400(uid: Option<string>, region: Option<string>, api: string -> ApiReply,
                        images: string -> bool, fontFileReadable: bool)
    requires uid == None || uid == Some("")
    ensures GenerateBanner(uid, region, api, images, fontFileReadable) == ErrorJson(400, "Missing UID")
  {
  }

  /** Every sticker the handler serves carries "UID: " + uid at (284, 161), 25pt white. */
  lemma ServedStickerShowsUid(uid: Option<string>, region: Option<string>, api: string -> ApiReply,
                              images: string -> bool, fontFileReadable: bool)
    ensures var r := GenerateBanner(uid, region, api, images, fontFileReadable);
      r.PngImage? ==>
        uid.Some? && OverlayAt(r.sticker.overlays, Point(284, 161)) == Some(TextOverlay(Point(284, 161), "UID: " + uid.value, 25, White))
  {
    ServedPlan(uid, region, api, images, fontFileReadable);
    var r := GenerateBanner(uid, region, api, images, fontFileReadable);
    if r.PngImage? {
      var f := ExtractFields(Reply(uid, region, api)).value;
      UidOverlayIff(f.name, uid.value, f.level, f.likes, f.guildName);
    }
  }

  /**
   * The served sticker shows the account name at (180, 50) and the level at
   * (45, 160): the placeholder "Lv.N" when the level is missing, otherwise the
   * level's text, prefixed with "Lv" unless it already starts so.
   */
  lemma ServedStickerNameAndLevel(uid: Option<string>, region: Option<string>, api: string -> ApiReply,
                                  images: string -> bool, fontFileReadable: bool)
    ensures var r := GenerateBanner(uid, region, api, images, fontFileReadable);
      r.PngImage? ==>
        var data := Reply(uid, region, api).data;
        && |r.sticker.overlays| >= 2
        && r.sticker.overlays[0] == TextOverlay(Point(180, 50), data.accountName.value, 30, Black)
        && r.sticker.overlays[1].text == (if data.accountLevel.None? then "Lv.N" else LevelText(data.accountLevel.value))
        && StartsWith(r.sticker.overlays[1].text, "Lv")
  {
    ServedPlan(uid, region, api, images, fontFileReadable);
    var r := GenerateBanner(uid, region, api, images, fontFileReadable);
    if r.PngImage? {
      var f := ExtractFields(Reply(uid, region, api)).value;
      NameAndLevelAlwaysDrawn(f.name, uid.value, f.level, f.likes, f.guildName);
      assert LevelText(JString("Lv.N")) == "Lv.N" by {
        assert StartsWith("Lv.N", "Lv");
      }
    }
  }

  /**
   * The likes text appears on a served sticker exactly when the account has an
   * AccountLikes entry that is not the empty string; it is that value's text.
   */
  lemma ServedStickerLikes(uid: Option<string>, region: Option<string>, api: string -> ApiReply,
                           images: string -> bool, fontFileReadable: bool)
    ensures var r := GenerateBanner(uid, region, api, images, fontFileReadable);
      r.PngImage? ==>
        var likes := Reply(uid, region, api).data.accountLikes;
        OverlayAt(r.sticker.overlays, Point(360, 120))
          == if likes.Some? && likes.value != JString("")
             then Some(TextOverlay(Point(360, 120), Text(likes.value), 30, Black))
             else None
  {
    ServedPlan(uid, region, api, images, fontFileReadable);
    var r := GenerateBanner(uid, region, api, images, fontFileReadable);
    if r.PngImage? {
      var likes := Reply(uid, region, api).data.accountLikes;
      var f := ExtractFields(Reply(uid, region, api)).value;
      assert f.likes == if likes.Some? then likes.value else JString("");
      LikesOverlayIff(f.name, uid.value, f.level, f.likes, f.guildName);
    }
  }

  /**
   * The guild text appears on a served sticker exactly when the raw guild name
   * is not null, "" or "Not Found"; it is then that name, at (300, 10), 25pt white.
   */
  lemma ServedStickerGuild(uid: Option<string>, region: Option<string>, api: string -> ApiReply,
                           images: string -> bool, fontFileReadable: bool)
    ensures var r := GenerateBanner(uid, region, api, images, fontFileReadable);
      r.PngImage? ==>
        var g := RawGuildName(Reply(uid, region, api).data.guildInfo);
        OverlayAt(r.sticker.overlays, Point(300, 10))
          == if g == None || g == Some("") || g == Some("Not Found") then None
             else Some(TextOverlay(Point(300, 10), g.value, 25, White))
  {
    ServedPlan(uid, region, api, images, fontFileReadable);
    var r := GenerateBanner(uid, region, api, images, fontFileReadable);
    if r.PngImage? {
      var f := ExtractFields(Reply(uid, region, api)).value;
      GuildOverlayIff(f.name, uid.value, f.level, f.likes, f.guildName);
    }
  }

  /**
   * The served sticker has the avatar pasted exactly when the icon for the
   * account's avatar id (default "900000013") loads; a failed avatar never
   * changes the status.
   */
  lemma ServedStickerAvatar(uid: Option<string>, region: Option<string>, api: string -> ApiReply,
                            images: string -> bool, fontFileReadable: bool)
    ensures var r := GenerateBanner(uid, region, api, images, fontFileReadable);
      r.PngImage? ==>
        var id := Reply(uid, region, api).data.accountAvatarId;
        var url := AvatarUrl(if id.Some? then id.value else JString("900000013"));
        && r.sticker.pastes == (if images(url) then [Paste(Point(64, 57), 100, 100)] else [])
        && AvatarIdOfUrl(url) == Some(if id.Some? then Text(id.value) else "900000013")
  {
    ServedPlan(uid, region, api, images, fontFileReadable);
    var r := GenerateBanner(uid, region, api, images, fontFileReadable);
    if r.PngImage? {
      var id := Reply(uid, region, api).data.accountAvatarId;
      AvatarUrlRoundTrip(if id.Some? then id.value else JString(DefaultAvatarId));
    }
  }
}
