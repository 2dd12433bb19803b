# Sticker endpoint: decision layer

A Dafny model of the deterministic part of `sticker.py`, the one Flask handler
behind `GET /api/sticker?uid=...&region=...`. The handler asks a third-party
account API for a player's record, builds the avatar URL, and composes a
sticker: the avatar is pasted onto a fixed banner, and up to five text lines
(name, level, UID, likes, guild) are drawn on it. The response is a PNG or one
of three JSON errors.

The model keeps every decision the code takes and treats the image library as
an abstract canvas. A composed sticker is a `Plan`: the pastes applied to the
banner copy (at most the 100x100 avatar at (64, 57)) and the text overlays in
drawing order, each with position, text, point size and colour.

- `wrappers.dfy`: `Option`.
- `values.dfy` (module `JsonValues`): JSON scalars (string, integer, boolean,
  null) and the text Python's `str()` makes of them.
- `layout.dfy` (module `Layout`): the constants at sticker.py:9-12, the fixed
  slots, fonts and colours, and the `Plan` datatype. It also holds the
  `OverlayAt` lookup used to state properties of a plan.
- `composer.dfy` (module `Composer`): `create_sticker`. There is a `Canvas`
  class, the banner copy that `paste` and `draw.text` mutate, and an imperative
  `CreateSticker` that drives it step by step. The specification function
  `StickerPlan` describes the same result, and the lemmas state what gets drawn.
- `handler.dfy` (module `Handler`): `generate_banner`. It covers the uid check,
  the account-field extraction with its defaults, guild-name normalisation,
  the API and avatar URLs, and the choice between 400, 404, 500 and 200.

External effects are parameters. `api(url)` is what the account API answers at
`url`: a failure or a decoded record. `images(url)` says whether the image at
`url` downloads and decodes. `fontFileReadable` says whether the bundled font
loads.

Three behaviours of the code worth knowing:
- A failed avatar download never produces a 500. The sticker is served without
  the avatar.
- A "Guild Information" entry that is present but is not a JSON object makes
  the `.get` call raise inside the `try`. The handler then answers 404
  "Account Does Not Exist".
- A present but null level, likes or avatar id is not replaced by the default.
  It renders as "None", so the level becomes "LvNone" and the likes become
  "None".

## Model

| member | source | states |
|---|---|---|
| JsonValues.DecimalText | sticker.py:57 | `str()` of an integer is non-empty and in canonical form: it starts with '-' exactly for a negative number, and has no leading zero (the digits after a '-' never start with '0') |
| JsonValues.DecimalTextRoundTrip | sticker.py:57 | the text of an integer reads back as the same integer, so a numeric likes value is drawn without loss |
| JsonValues.Text | sticker.py:57 | `str()` of a JSON scalar (a string verbatim, an integer in decimal, True/False, None) is empty exactly for the empty string, so any number, boolean or null, 0 and False included, renders as visible text |
| JsonValues.LvTextOnlyFromStrings | sticker.py:51 | only a JSON string can render as text starting with "Lv"; the text of a number, a boolean or null never does |
| Composer.Canvas.CopyOf | sticker.py:43 | `banner.copy()` gives a canvas with nothing pasted or drawn yet |
| Composer.Canvas.PasteImage | sticker.py:48 | a paste adds one layer on top and leaves the text layers alone |
| Composer.Canvas.DrawText | sticker.py:50 | a `draw.text` adds one overlay at the end and leaves the pastes alone |
| Composer.LoadFonts | sticker.py:23-31 | the font set exists exactly when the font file loads, at sizes 30 (name), 25 (uid) and 25 (guild) |
| Composer.LevelText | sticker.py:51 | the drawn level always starts with "Lv"; it is the level's text, kept unchanged exactly when that text already starts with "Lv", otherwise prefixed with "Lv" |
| Composer.LevelTextIdempotent | sticker.py:51 | normalising an already normalised level text gives the same text |
| Composer.LevelTextOfNonStrings | sticker.py:51 | a numeric, boolean or null level is always drawn as "Lv" followed by its text |
| Composer.LevelTextExamples | sticker.py:51 | "40" and 40 give "Lv40"; "Lv99" and the placeholder "Lv.N" are unchanged; null gives "LvNone" |
| Composer.HeadLayer | sticker.py:50-52 | the head layer is exactly two overlays: the name verbatim at (180, 50), then a level text starting with "Lv" at (45, 160) |
| Composer.UidLayer | sticker.py:54-55 | the uid layer holds at most one overlay, and holds one exactly when the uid is non-empty |
| Composer.LikesLayer | sticker.py:56-57 | the likes layer holds at most one overlay, and holds one exactly when the value is not exactly "" |
| Composer.GuildLayer | sticker.py:58-59 | the guild layer holds at most one overlay, and holds one exactly when a non-empty guild name was passed |
| Composer.Overlays | sticker.py:50-59 | a sticker carries two to five text lines, and all five exactly when the uid, the likes and the guild name are all drawn |
| Composer.StickerPlan | sticker.py:33-61 | composition fails exactly when the banner or the fonts fail to load; the avatar is pasted at (64, 57), 100x100, exactly when it loads |
| Composer.CreateSticker | sticker.py:33-61 | the step-by-step composition (banner, avatar and fonts loaded in source order, then paste and draws on the copy) yields exactly `StickerPlan` |
| Composer.DrawSticker | sticker.py:46-59 | the drawing steps add the avatar paste when it loaded and append the name, level, uid, likes and guild layers in that order |
| Composer.DrawHead | sticker.py:50-52 | appends the name at (180, 50), then the level text at (45, 160), both 30pt black |
| Composer.DrawUid | sticker.py:54-55 | appends "UID: " + uid at (284, 161), 25pt white, exactly when the uid is non-empty |
| Composer.DrawLikes | sticker.py:56-57 | appends the likes text at (360, 120), 30pt black, unless the value is exactly the empty string |
| Composer.DrawGuild | sticker.py:58-59 | appends the guild name at (300, 10), 25pt white, exactly when it is present and non-empty |
| Composer.NameAndLevelAlwaysDrawn | sticker.py:50-52 | every sticker's first two overlays are the name at (180, 50) and the level at (45, 160), 30pt black, and the level starts with "Lv" |
| Composer.UidOverlayIff | sticker.py:54-55 | the uid slot holds "UID: " + uid, 25pt white, if and only if the uid is non-empty |
| Composer.LikesOverlayIff | sticker.py:56-57 | the likes slot holds the value's text, 30pt black, if and only if the value is not exactly ""; 0 is drawn as "0" and null as "None" |
| Composer.GuildOverlayIff | sticker.py:58-59 | the guild slot holds the name verbatim, 25pt white, if and only if a non-empty guild name was passed |
| Composer.OverlaysInSlotOrder | sticker.py:50-59 | every overlay sits in one of the five template slots, no slot is drawn twice, and the order is name, level, uid, likes, guild |
| Composer.AvatarFailureNonFatal | sticker.py:38-48 | with banner and fonts loaded, a failed avatar still yields a sticker; it lacks only the paste and has the same overlays as with the avatar |
| Handler.ApiUrl | sticker.py:71 | the request URL is the info endpoint's query prefix followed by the uid, then "&region=" and the region, unescaped, with the region as the last characters |
| Handler.ApiUrlUnambiguous | sticker.py:71 | when the uid holds no '&', the account API URL determines the uid and the region it was built from |
| Handler.AvatarUrl | sticker.py:88 | the avatar URL always lies under the icon path of the asset host |
| Handler.AvatarUrlRoundTrip | sticker.py:88 | the avatar URL names exactly the text of the avatar id it was built from |
| Handler.NormaliseGuild | sticker.py:82-84 | the guild name becomes absent exactly for null, "" and "Not Found"; any other name is kept unchanged |
| Handler.NormaliseGuildIdempotent | sticker.py:83-84 | normalising a normalised guild name changes nothing |
| Handler.RawGuildName | sticker.py:82 | a raw guild name exists exactly when "Guild Information" is an object holding a GuildName, and is then that value |
| Handler.AccountMissing | sticker.py:74-86 | a failed API call always means the account is missing; with a non-empty AccountName, the account is missing only when "Guild Information" is present but not an object; absent level, likes, avatar id or guild never make it missing |
| Handler.ExtractFields | sticker.py:70-86 | extraction fails, and the handler answers 404, exactly when the API call failed, the name is missing or empty, or the guild lookup raised; otherwise the name is kept, and absent level, likes and avatar id default to "Lv.N", "" and "900000013" |
| Handler.UidGiven | sticker.py:65-67 | the uid counts as given exactly when the query parameter, read with "" for an absent one, is non-empty |
| Handler.Reply | sticker.py:66-74 | the account API is queried at the URL built from the uid and the region, where an absent region becomes "sg" and a given one, even an empty one, is used as is |
| Handler.GenerateBanner | sticker.py:64-96 | the PNG sticker is served exactly when the uid is given, the account is usable and the banner and fonts load, whatever the avatar does; every other answer is a JSON error with status 400, 404 or 500 and its text: 400 "Missing UID" exactly when the uid is absent or empty, 404 "Account Does Not Exist" exactly when the account is unusable, 500 "Failed to generate sticker" exactly when the banner or fonts fail |
| Handler.MissingUidIs400 | sticker.py:65-68 | an absent or empty uid gives 400 "Missing UID" whatever the API, the images and the fonts would do |
| Handler.ServedPlan | sticker.py:88-96 | a served sticker is the composition of the extracted fields with the avatar URL built from the avatar id |
| Handler.ServedStickerShowsUid | sticker.py:54-55 | every sticker the handler serves carries "UID: " + uid at (284, 161), 25pt white, because an empty uid was already rejected |
| Handler.ServedStickerNameAndLevel | sticker.py:78-79 | a served sticker shows the account name and a level starting with "Lv": "Lv.N" when the level is missing, otherwise the normalised level |
| Handler.ServedStickerLikes | sticker.py:80 | a served sticker shows likes exactly when AccountLikes is present and not ""; a missing field is suppressed and 0 shows as "0" |
| Handler.ServedStickerGuild | sticker.py:82-84 | a served sticker shows a guild exactly when the raw guild name is not null, "" or "Not Found", and then shows it verbatim at (300, 10), 25pt white |
| Handler.ServedStickerAvatar | sticker.py:81-88 | a served sticker has the avatar pasted exactly when the icon for the avatar id loads; a missing id falls back to "900000013" |

## Left out

- HTTP fetching: `requests.get` and `raise_for_status` (sticker.py:15-21, 71-74) are network I/O. The account API and the image host are parameters that give a success or failure per URL.
- Flask routing, `request.args`, `jsonify`, `send_file` and the Vercel `handler` wrapper are framework plumbing. Query parameters are `Option<string>`, and a response is a status with an error text or an image plan.
- PIL image decoding, RGBA conversion, Lanczos resampling, alpha-masked pasting and glyph rasterisation are a foreign library and floating-point pixel work. They appear only as the `Paste` and `TextOverlay` entries of a plan.
- Font loading from disk and the `FONT_PATH` join (sticker.py:13, 23-31) are file I/O. They are reduced to a boolean for whether the font file loads.
- PNG encoding (sticker.py:93-95) is a codec that is not part of this model. Byte-identical output is therefore not stated. Every model function is deterministic.
- JSON parsing: the account API reply is a decoded record of optional fields. A reply that is not valid JSON or not a JSON object counts as `ApiFailure`, because every such reply ends in the same 404.
- JSON floats, arrays and objects as field values are not modelled. Python would render them in its own repr format.
- An AccountName or GuildName that is not a string is not modelled. Both fields are `Option<string>`, where None means absent or null. In the source, a falsy non-string name (0, false, an empty array or object) is answered 404 by the AccountName check at sticker.py:75-76. A falsy non-string guild name (0 or false) passes the sentinel test at sticker.py:83, but the guild line is then skipped at sticker.py:58. Only a truthy non-string reaches PIL's `draw.text`, whose behaviour on it is not visible here.
- The canvas records pastes and text overlays as two separate layers. In the source every paste precedes every text draw, so no ordering is lost.
- Multi-valued query parameters are not modelled: Flask takes the first one.
