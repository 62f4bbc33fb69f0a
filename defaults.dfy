/** The default embed and embed configuration shipped with the bot
    (core/components/DiscordBot/defaultJsons.ts), as parsed documents, and what the renderer
    and the button builder make of them. */
module Defaults {
  import opened Wrappers
  import opened Json
  import opened Placeholders
  import opened Render
  import opened Buttons

  // ---------------------------------------------------------------------------------
  // The default embed (defaultJsons.ts:1-37)

  /** The templates below are written with `Token`: `Token("uptime")` is `{{uptime}}`. */
  const TopUrl := Token("serverBrowserUrl")
  const ImageUrl := Https + "i.imgur.com/ZZRp4pj.png"
  const ThumbnailUrl := Https + "i.imgur.com/9i9lvOp.png"

  const Fence := "```\n"
  const CloseFence := "\n```"
  const StatusValue := Fence + Token("statusString") + CloseFence
  const PlayersValue := Fence + Token("serverClients") + "/" + Token("serverMaxClients") + CloseFence
  const DescriptionHead := "You can configure this embed in "
  const DescriptionPath := "`txAdmin > Settings > Discord Bot`, "
  const DescriptionTail := "and edit everything from it (except footer)."
  const Description := DescriptionHead + DescriptionPath + DescriptionTail
  const ConnectValue := "```\nconnect 123.123.123.123\n```"
  const RestartValue := Fence + Token("nextScheduledRestart") + CloseFence
  const UptimeValue := Fence + Token("uptime") + CloseFence

  /** One entry of `fields`: name, value and, for the inline ones, `"inline": true`. */
  function EmbedFieldJson(name: string, value: string, inline: bool): Json
  {
    if inline then JObj([Field("name", JStr(name)), Field("value", JStr(value)), Field("inline", JBool(true))])
    else JObj([Field("name", JStr(name)), Field("value", JStr(value))])
  }

  const DefaultEmbedFields: seq<Json> := [
    EmbedFieldJson("> STATUS", StatusValue, true),
    EmbedFieldJson("> PLAYERS", PlayersValue, true),
    EmbedFieldJson("> F8 CONNECT COMMAND", ConnectValue, false),
    EmbedFieldJson("> NEXT RESTART", RestartValue, true),
    EmbedFieldJson("> UPTIME", UptimeValue, true)]

  const DefaultEmbed: Json := JObj([
    Field("title", JStr(Token("serverName"))),
    Field("url", JStr(TopUrl)),
    Field("description", JStr(Description)),
    Field("fields", JArr(DefaultEmbedFields)),
    Field("image", JObj([Field("url", JStr(ImageUrl))])),
    Field("thumbnail", JObj([Field("url", JStr(ThumbnailUrl))]))])

  // ---------------------------------------------------------------------------------
  // The default embed configuration (defaultJsons.ts:39-63)

  const Https := "https://"

  /** One entry of `buttons`, keys in the order the file writes them. */
  function ButtonJson(emoji: string, caption: string, url: string): Json
  {
    JObj([Field("emoji", JStr(emoji)), Field("label", JStr(caption)), Field("url", JStr(url))])
  }

  /** A custom emoji reference `<:name:id>`. */
  function EmojiRef(name: string, id: string): string
  {
    "<:" + name + ":" + id + ">"
  }

  const InstallerEmoji := EmojiRef("banshield", "1151323684800311388")
  const DiscordEmoji := EmojiRef("Evorative_medium", "1151323146369122414")
  const WebsiteEmoji := EmojiRef("icons8website100", "1151323665724604466")
  const InstallerUrl := Https + "evoraguard.evorative.com/installer"
  const DiscordUrl := Https + "discord.evorative.com"
  const WebsiteUrl := Https + "evorative.com"

  const DefaultButtons: seq<Json> := [
    ButtonJson(InstallerEmoji, "Install Launcher", InstallerUrl),
    ButtonJson(DiscordEmoji, "Evorative Discord", DiscordUrl),
    ButtonJson(WebsiteEmoji, "Evorative Website", WebsiteUrl)]

  const DefaultEmbedConfig: Json := JObj([
    Field("onlineString", JStr("\U{1F7E2} Online")),
    Field("onlineColor", JStr("#0BA70B")),
    Field("partialString", JStr("\U{1F7E1} Partial")),
    Field("partialColor", JStr("#FFF100")),
    Field("offlineString", JStr("\U{1F534} Offline")),
    Field("offlineColor", JStr("#A70B28")),
    Field("buttons", JArr(DefaultButtons))])

  // ---------------------------------------------------------------------------------
  // Tokens in a template

  /** `{{` starts at position `j`. */
  predicate OpensToken(s: string, j: nat)
  {
    j + 1 < |s| && s[j] == '{' && s[j + 1] == '{'
  }

  /** One of the ten placeholder tokens starts at position `j`. */
  predicate KnownTokenAt(s: string, j: nat)
  {
    exists key :: key in Keys && MatchAt(s, Token(key), j)
  }

  /** Every `{{` in `s` opens one of the ten placeholder tokens. */
  predicate TokensKnown(s: string)
  {
    forall j: nat :: j < |s| && OpensToken(s, j) ==> KnownTokenAt(s, j)
  }

  lemma BraceFreeConcat(a: string, b: string)
    requires '{' !in a && '{' !in b
    ensures '{' !in a + b
  {
  }

  lemma DescriptionHeadBraceFree()
    ensures '{' !in DescriptionHead
  {
  }

  lemma DescriptionPathBraceFree()
    ensures '{' !in DescriptionPath
  {
  }

  lemma DescriptionTailBraceFree()
    ensures '{' !in DescriptionTail
  {
  }

  lemma DescriptionBraceFree()
    ensures '{' !in Description
  {
    DescriptionHeadBraceFree();
    DescriptionPathBraceFree();
    DescriptionTailBraceFree();
    BraceFreeConcat(DescriptionHead, DescriptionPath);
    BraceFreeConcat(DescriptionHead + DescriptionPath, DescriptionTail);
  }

  lemma BraceFreeTokensKnown(t: string)
    requires '{' !in t
    ensures TokensKnown(t)
  {
    forall j | 0 <= j < |t| ensures t[j] != '{' {
      assert t[j] in t;
    }
  }

  lemma TokenKnown(key: string)
    requires key in Keys
    ensures TokensKnown(Token(key))
  {
    var t := Token(key);
    KeysAreBraceFree();
    forall j | 2 <= j < |t| ensures t[j] != '{' {
      if j < |t| - 2 {
        assert t[j] == key[j - 2] && key[j - 2] in key;
      }
    }
    assert t[0..|t|] == t;
    assert MatchAt(t, Token(key), 0);
  }

  lemma MatchInLeft(a: string, b: string, pat: string, j: nat)
    requires MatchAt(a, pat, j)
    ensures MatchAt(a + b, pat, j)
  {
    assert (a + b)[j..j + |pat|] == a[j..j + |pat|];
  }

  lemma MatchInRight(a: string, b: string, pat: string, j: nat)
    requires MatchAt(b, pat, j)
    ensures MatchAt(a + b, pat, |a| + j)
  {
    assert (a + b)[|a| + j..|a| + j + |pat|] == b[j..j + |pat|];
  }

  /** A `{{` inside the left part of a join opens the token it opens there. */
  lemma KnownInLeft(a: string, b: string, j: nat)
    requires TokensKnown(a) && j + 1 < |a| && OpensToken(a + b, j)
    ensures KnownTokenAt(a + b, j)
  {
    assert OpensToken(a, j);
    var key :| key in Keys && MatchAt(a, Token(key), j);
    MatchInLeft(a, b, Token(key), j);
  }

  /** A `{{` that starts in the right part of a join opens the token it opens there. */
  lemma KnownInRight(a: string, b: string, j: nat)
    requires TokensKnown(b) && |a| <= j && OpensToken(a + b, j)
    ensures KnownTokenAt(a + b, j)
  {
    var jb: nat := j - |a|;
    assert (a + b)[j] == b[jb] && (a + b)[j + 1] == b[jb + 1];
    assert OpensToken(b, jb);
    var key :| key in Keys && MatchAt(b, Token(key), jb);
    MatchInRight(a, b, Token(key), jb);
  }

  /** Known tokens stay known when two templates are joined, as long as the left one does
      not end with `{`. */
  lemma ConcatTokensKnown(a: string, b: string)
    requires TokensKnown(a) && TokensKnown(b)
    requires a == [] || a[|a| - 1] != '{'
    ensures TokensKnown(a + b)
  {
    var s := a + b;
    if a != [] {
      assert s[|a| - 1] == a[|a| - 1];
    }
    forall j: nat | j < |s| && OpensToken(s, j) ensures KnownTokenAt(s, j) {
      if j + 1 < |a| {
        KnownInLeft(a, b, j);
      } else {
        KnownInRight(a, b, j);
      }
    }
  }

  /** `text + {{key}}`, with `text` free of braces, has only known tokens when `rest` has. */
  lemma TextTokenKnown(text: string, key: string, rest: string)
    requires '{' !in text && key in Keys && TokensKnown(rest)
    ensures TokensKnown(text + Token(key) + rest)
  {
    BraceFreeTokensKnown(text);
    TokenKnown(key);
    if text != [] {
      assert text[|text| - 1] in text;
    }
    ConcatTokensKnown(text, Token(key));
    var t := text + Token(key);
    assert t[|t| - 1] == '}';
    ConcatTokensKnown(t, rest);
  }

  /** Every string leaf of a document has only known tokens. */
  predicate LeavesKnown(v: Json)
    decreases v
  {
    match v
    case JStr(s) => TokensKnown(s)
    case JArr(items) => forall i :: 0 <= i < |items| ==> LeavesKnown(items[i])
    case JObj(fs) => forall i :: 0 <= i < |fs| ==> LeavesKnown(fs[i].value)
    case _ => true
  }

  lemma DefaultValuesKnown()
    ensures TokensKnown(Token("serverName")) && TokensKnown(TopUrl)
    ensures TokensKnown(StatusValue) && TokensKnown(PlayersValue) && TokensKnown(ConnectValue)
    ensures TokensKnown(RestartValue) && TokensKnown(UptimeValue)
  {
    TokenKnown("serverName");
    TokenKnown("serverBrowserUrl");
    FencedValuesKnown();
    PlayersValueKnown();
    BraceFreeTokensKnown(ConnectValue);
  }

  lemma FencedValuesKnown()
    ensures TokensKnown(StatusValue) && TokensKnown(RestartValue) && TokensKnown(UptimeValue)
  {
    BraceFreeTokensKnown(CloseFence);
    TextTokenKnown(Fence, "statusString", CloseFence);
    TextTokenKnown(Fence, "nextScheduledRestart", CloseFence);
    TextTokenKnown(Fence, "uptime", CloseFence);
  }

  lemma PlayersValueKnown()
    ensures TokensKnown(PlayersValue)
  {
    BraceFreeTokensKnown(CloseFence);
    TextTokenKnown("/", "serverMaxClients", CloseFence);
    TextTokenKnown(Fence, "serverClients", "/" + Token("serverMaxClients") + CloseFence);
    assert PlayersValue == Fence + Token("serverClients") + ("/" + Token("serverMaxClients") + CloseFence);
  }

  /** A string leaf whose text has only known tokens. */
  lemma StringLeafKnown(s: string)
    requires TokensKnown(s)
    ensures LeavesKnown(JStr(s))
  {
  }

  lemma EmbedFieldKnown(name: string, value: string, inline: bool)
    requires '{' !in name && TokensKnown(value)
    ensures LeavesKnown(EmbedFieldJson(name, value, inline))
  {
    BraceFreeTokensKnown(name);
  }

  lemma DefaultHeaderKnown()
    ensures LeavesKnown(JStr(Token("serverName"))) && LeavesKnown(JStr(TopUrl)) && LeavesKnown(JStr(Description))
  {
    TokenKnown("serverName");
    TokenKnown("serverBrowserUrl");
    DescriptionBraceFree();
    BraceFreeTokensKnown(Description);
  }

  lemma DefaultFieldsKnown()
    ensures LeavesKnown(JArr(DefaultEmbedFields))
  {
    DefaultValuesKnown();
    BraceFreeTokensKnown(ConnectValue);
    EmbedFieldKnown("> STATUS", StatusValue, true);
    EmbedFieldKnown("> PLAYERS", PlayersValue, true);
    EmbedFieldKnown("> F8 CONNECT COMMAND", ConnectValue, false);
    EmbedFieldKnown("> NEXT RESTART", RestartValue, true);
    EmbedFieldKnown("> UPTIME", UptimeValue, true);
    forall k | 0 <= k < |DefaultEmbedFields| ensures LeavesKnown(DefaultEmbedFields[k]) {
      assert k == 0 || k == 1 || k == 2 || k == 3 || k == 4;
    }
  }

  lemma DefaultImagesKnown()
    ensures LeavesKnown(JObj([Field("url", JStr(ImageUrl))]))
    ensures LeavesKnown(JObj([Field("url", JStr(ThumbnailUrl))]))
  {
    BraceFreeTokensKnown(ImageUrl);
    BraceFreeTokensKnown(ThumbnailUrl);
  }

  /** Every `{{` in the default embed opens one of the ten placeholder tokens. */
  lemma DefaultEmbedTokensKnown()
    ensures LeavesKnown(DefaultEmbed)
  {
    DefaultHeaderKnown();
    DefaultFieldsKnown();
    DefaultImagesKnown();
  }

  // ---------------------------------------------------------------------------------
  // Rendering the default embed

  /** The server-browser link of live placeholders is an `https://` link. */
  lemma ResolvedBrowserUrlIsHttps(live: LiveState, config: Json, cache: map<string, Json>)
    ensures StartsWith(Resolved(live, config, cache).serverBrowserUrl, Https)
  {
    var c := CachedText(cache, CfxIdCacheKey);
    assert Resolved(live, config, cache).serverBrowserUrl == BrowserUrlPrefix + c;
    ConcatStartsEnds(Https, "servers.fivem.net/servers/detail/");
    assert (BrowserUrlPrefix + c)[..8] == BrowserUrlPrefix[..8];
  }

  /** The top-level url `{{serverBrowserUrl}}` renders to a string that starts as the
      server-browser link does; an `https://` link passes the URL check. */
  lemma DefaultTopUrlRenders(p: PlaceholderMap)
    requires StartsWith(p.serverBrowserUrl, Https)
    ensures StartsWith(Substituted(TopUrl, p), Https)
    ensures IsValidEmbedUrl(Substituted(TopUrl, p))
  {
    assert Keys[4] == "serverBrowserUrl";
    assert Entries(p)[4].value == p.serverBrowserUrl;
    SubstitutedTokenPrefix(p, 4, Https);
  }

  /** The image and thumbnail urls hold no token and pass the URL check as they are. */
  lemma DefaultImageUrlsPass(p: PlaceholderMap)
    ensures Substituted(ImageUrl, p) == ImageUrl && IsValidEmbedUrl(ImageUrl)
    ensures Substituted(ThumbnailUrl, p) == ThumbnailUrl && IsValidEmbedUrl(ThumbnailUrl)
  {
    ImageUrlPasses(p);
    ThumbnailUrlPasses(p);
  }

  lemma ImageUrlPasses(p: PlaceholderMap)
    ensures Substituted(ImageUrl, p) == ImageUrl && IsValidEmbedUrl(ImageUrl)
  {
    HttpsUrlPasses("i.imgur.com/ZZRp4pj.png", p);
  }

  lemma ThumbnailUrlPasses(p: PlaceholderMap)
    ensures Substituted(ThumbnailUrl, p) == ThumbnailUrl && IsValidEmbedUrl(ThumbnailUrl)
  {
    HttpsUrlPasses("i.imgur.com/9i9lvOp.png", p);
  }

  /** An `https://` url with a brace-free rest is left alone by substitution and passes. */
  lemma HttpsUrlPasses(host: string, p: PlaceholderMap)
    requires '{' !in host
    ensures Substituted(Https + host, p) == Https + host && IsValidEmbedUrl(Https + host)
  {
    BraceFreeConcat(Https, host);
    SubstitutedBraceFree(Https + host, p);
    ConcatStartsEnds(Https, host);
  }

  /** A field entry has no `url` key, so it holds no URL to check. */
  lemma EmbedFieldHasNoUrl(name: string, value: string, inline: bool, p: PlaceholderMap)
    ensures UrlsValid(EmbedFieldJson(name, value, inline), p)
  {
    var fs := EmbedFieldJson(name, value, inline).fields;
    forall k | 0 <= k < |fs| ensures UrlsValid(fs[k].value, p) && UrlFieldValid(fs[k], p) {
      assert fs[k].key != "url";
    }
  }

  /** A field entry with a plain name renders to the same entry with its value
      substituted. */
  lemma EmbedFieldRenders(name: string, value: string, inline: bool, p: PlaceholderMap)
    requires '{' !in name
    ensures Render.Render(EmbedFieldJson(name, value, inline), p)
         == Ok(EmbedFieldJson(name, Substituted(value, p), inline))
  {
    var v := EmbedFieldJson(name, value, inline);
    EmbedFieldHasNoUrl(name, value, inline, p);
    RenderCorrect(v, p);
    SubstitutedBraceFree(name, p);
    var r := Render.Render(v, p).value;
    var want := EmbedFieldJson(name, Substituted(value, p), inline);
    assert r.fields[0] == want.fields[0];
    assert r.fields[1] == want.fields[1];
    if inline {
      assert r.fields[2] == want.fields[2];
    }
    assert r.fields == want.fields;
  }

  /** The default STATUS field renders its fenced placeholder to the status text between
      the fences, for a status text with neither `{` nor `$`. */
  lemma StatusFieldRenders(p: PlaceholderMap)
    requires '{' !in p.statusString && '$' !in p.statusString
    ensures Render.Render(EmbedFieldJson("> STATUS", StatusValue, true), p)
         == Ok(EmbedFieldJson("> STATUS", "```\n" + p.statusString + "\n```", true))
  {
    assert Keys[1] == "statusString" && Entries(p)[1].value == p.statusString;
    SubstitutedEmbeddedToken(p, 1, Fence, CloseFence);
    EmbedFieldRenders("> STATUS", StatusValue, true, p);
  }

  lemma DefaultFieldsUrlsValid(p: PlaceholderMap)
    ensures UrlsValid(JArr(DefaultEmbedFields), p)
  {
    EmbedFieldHasNoUrl("> STATUS", StatusValue, true, p);
    EmbedFieldHasNoUrl("> PLAYERS", PlayersValue, true, p);
    EmbedFieldHasNoUrl("> F8 CONNECT COMMAND", ConnectValue, false, p);
    EmbedFieldHasNoUrl("> NEXT RESTART", RestartValue, true, p);
    EmbedFieldHasNoUrl("> UPTIME", UptimeValue, true, p);
    forall i | 0 <= i < |DefaultEmbedFields| ensures UrlsValid(DefaultEmbedFields[i], p) {
      assert i == 0 || i == 1 || i == 2 || i == 3 || i == 4;
    }
  }

  lemma DefaultImagesUrlsValid(p: PlaceholderMap)
    ensures UrlsValid(JObj([Field("url", JStr(ImageUrl))]), p)
    ensures UrlsValid(JObj([Field("url", JStr(ThumbnailUrl))]), p)
  {
    DefaultImageUrlsPass(p);
    var image, thumbnail := Field("url", JStr(ImageUrl)), Field("url", JStr(ThumbnailUrl));
    assert UrlFieldValid(image, p) && UrlsValid(image.value, p);
    assert UrlFieldValid(thumbnail, p) && UrlsValid(thumbnail.value, p);
    assert [image][0] == image && [thumbnail][0] == thumbnail;
  }

  /** The default embed renders exactly when its top-level url renders to a valid URL, so
      with live placeholders it always renders. */
  lemma DefaultEmbedRenders(p: PlaceholderMap)
    ensures Render.Render(DefaultEmbed, p).Ok? <==> IsValidEmbedUrl(Substituted(TopUrl, p))
  {
    RenderCorrect(DefaultEmbed, p);
    DefaultFieldsUrlsValid(p);
    DefaultImagesUrlsValid(p);
    var fs := DefaultEmbed.fields;
    assert UrlsValid(fs[4].value, p) && UrlsValid(fs[5].value, p);
    assert UrlFieldValid(fs[1], p) <==> IsValidEmbedUrl(Substituted(TopUrl, p));
  }

  lemma DefaultEmbedRendersLive(live: LiveState, config: Json, cache: map<string, Json>)
    ensures Render.Render(DefaultEmbed, Resolved(live, config, cache)).Ok?
  {
    ResolvedBrowserUrlIsHttps(live, config, cache);
    DefaultTopUrlRenders(Resolved(live, config, cache));
    DefaultEmbedRenders(Resolved(live, config, cache));
  }

  // ---------------------------------------------------------------------------------
  // The default buttons and status styles

  /** The `<:name:id>` form: a name without `:` and a decimal id, both non-empty. */
  ghost predicate IsCustomEmoji(s: string)
  {
    exists name, id :: s == EmojiRef(name, id) && |name| > 0 && ':' !in name
      && |id| > 0 && forall i :: 0 <= i < |id| ==> IsDigit(id[i])
  }

  lemma EmojiRefIsCustom(name: string, id: string)
    requires |name| > 0 && ':' !in name
    requires |id| > 0 && forall i :: 0 <= i < |id| ==> IsDigit(id[i])
    ensures IsCustomEmoji(EmojiRef(name, id))
  {
  }

  /** The three default emoji are custom emoji references. */
  lemma DefaultEmojisCustom()
    ensures IsCustomEmoji(InstallerEmoji) && IsCustomEmoji(DiscordEmoji) && IsCustomEmoji(WebsiteEmoji)
  {
    EmojiRefIsCustom("banshield", "1151323684800311388");
    EmojiRefIsCustom("Evorative_medium", "1151323146369122414");
    EmojiRefIsCustom("icons8website100", "1151323665724604466");
  }

  /** A button entry has a string label, url and emoji. */
  lemma ButtonJsonFields(emoji: string, caption: string, url: string)
    ensures var fs := ButtonJson(emoji, caption, url).fields;
      && StringField(fs, "label") == Some(caption)
      && StringField(fs, "url") == Some(url)
      && StringField(fs, "emoji") == Some(emoji)
  {
    var fs := ButtonJson(emoji, caption, url).fields;
    GetField(fs, 0);
    GetField(fs, 1);
    GetField(fs, 2);
  }

  /** A button written as the defaults write theirs, with a brace-free label and an
      `https://` url, builds unchanged once its emoji passes the check. */
  lemma HttpsButtonBuilds(emoji: string, caption: string, host: string, p: PlaceholderMap, validEmoji: string -> bool)
    requires |caption| > 0 && '{' !in caption && '{' !in host && validEmoji(emoji)
    ensures CheckButton(ButtonJson(emoji, caption, Https + host), p, validEmoji)
         == Ok(Button(caption, Https + host, Some(emoji)))
  {
    var url := Https + host;
    ButtonJsonFields(emoji, caption, url);
    BraceFreeConcat(Https, host);
    SubstitutedBraceFree(url, p);
    SubstitutedBraceFree(caption, p);
    ConcatStartsEnds(Https, host);
    CheckButtonCorrect(ButtonJson(emoji, caption, url), p, validEmoji);
  }

  lemma DefaultButtonList()
    ensures ButtonList(DefaultEmbedConfig) == Some(DefaultButtons)
  {
    GetField(DefaultEmbedConfig.fields, 6);
  }

  /** A row of buttons that each build, built all together. */
  lemma CheckButtonsAllOk(bs: seq<Json>, row: seq<Button>, p: PlaceholderMap, validEmoji: string -> bool)
    requires |bs| == |row| && forall i :: 0 <= i < |bs| ==> CheckButton(bs[i], p, validEmoji) == Ok(row[i])
    ensures CheckButtons(bs, p, validEmoji) == Ok(row)
  {
    CheckButtonsCorrect(bs, p, validEmoji);
    assert CheckButtons(bs, p, validEmoji).value == row;
  }

  /** The row the default buttons make: labels, urls and emoji as written. */
  const DefaultRow: seq<Button> := [
    Button("Install Launcher", InstallerUrl, Some(InstallerEmoji)),
    Button("Evorative Discord", DiscordUrl, Some(DiscordEmoji)),
    Button("Evorative Website", WebsiteUrl, Some(WebsiteEmoji))]

  lemma DefaultButtonsCheck(p: PlaceholderMap, validEmoji: string -> bool)
    requires validEmoji(InstallerEmoji) && validEmoji(DiscordEmoji) && validEmoji(WebsiteEmoji)
    ensures CheckButtons(DefaultButtons, p, validEmoji) == Ok(DefaultRow)
  {
    var bs, row := DefaultButtons, DefaultRow;
    InstallerButtonBuilds(p, validEmoji);
    DiscordButtonBuilds(p, validEmoji);
    WebsiteButtonBuilds(p, validEmoji);
    forall i | 0 <= i < |bs| ensures CheckButton(bs[i], p, validEmoji) == Ok(row[i]) {
      assert i == 0 || i == 1 || i == 2;
    }
    CheckButtonsAllOk(bs, row, p, validEmoji);
  }

  lemma InstallerButtonBuilds(p: PlaceholderMap, validEmoji: string -> bool)
    requires validEmoji(InstallerEmoji)
    ensures CheckButton(DefaultButtons[0], p, validEmoji) == Ok(DefaultRow[0])
  {
    HttpsButtonBuilds(InstallerEmoji, "Install Launcher", "evoraguard.evorative.com/installer", p, validEmoji);
  }

  lemma DiscordButtonBuilds(p: PlaceholderMap, validEmoji: string -> bool)
    requires validEmoji(DiscordEmoji)
    ensures CheckButton(DefaultButtons[1], p, validEmoji) == Ok(DefaultRow[1])
  {
    HttpsButtonBuilds(DiscordEmoji, "Evorative Discord", "discord.evorative.com", p, validEmoji);
  }

  lemma WebsiteButtonBuilds(p: PlaceholderMap, validEmoji: string -> bool)
    requires validEmoji(WebsiteEmoji)
    ensures CheckButton(DefaultButtons[2], p, validEmoji) == Ok(DefaultRow[2])
  {
    HttpsButtonBuilds(WebsiteEmoji, "Evorative Website", "evorative.com", p, validEmoji);
  }

  /** With an emoji check that accepts custom emoji references, the default configuration
      builds its three buttons, in order, with labels and urls as written. */
  lemma DefaultButtonsBuild(p: PlaceholderMap, validEmoji: string -> bool)
    requires forall s :: IsCustomEmoji(s) ==> validEmoji(s)
    ensures ButtonRow(DefaultEmbedConfig, p, validEmoji) == Ok(Some(DefaultRow))
  {
    DefaultEmojisCustom();
    DefaultButtonList();
    DefaultButtonsCheck(p, validEmoji);
  }

  /** The default configuration's status texts and colours are the built-in fallbacks:
      it styles every state as an empty configuration does. */
  lemma DefaultStyleIsFallback(status: HealthStatus)
    ensures StatusStyle(status, DefaultEmbedConfig) == StatusStyle(status, JObj([]))
  {
    match status
    case Online => OnlineStyleIsFallback();
    case Partial => PartialStyleIsFallback();
    case Offline => OfflineStyleIsFallback();
    case OtherStatus =>
  }

  lemma OnlineStyleIsFallback()
    ensures StatusStyle(Online, DefaultEmbedConfig) == StatusStyle(Online, JObj([]))
  {
  }

  lemma PartialStyleIsFallback()
    ensures StatusStyle(Partial, DefaultEmbedConfig) == StatusStyle(Partial, JObj([]))
  {
  }

  lemma OfflineStyleIsFallback()
    ensures StatusStyle(Offline, DefaultEmbedConfig) == StatusStyle(Offline, JObj([]))
  {
  }
}
