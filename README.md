# Discord status embed, player info and update checks — a Dafny model

This project models the core of the txAdmin/Evorative Discord bot and update checker:

- **Placeholders** (`placeholders.dfy`): the live-state placeholder map the `/status` command
  builds. It covers status text and colour from the config with built-in fallbacks, player
  and slot counts, uptime, the next scheduled restart, and the server browser and join links.
- **Render** (`render.dfy`): `{{key}}` substitution with `String.prototype.replaceAll`
  semantics, including its `$` replacement patterns. It also models the recursive walk over
  the embed JSON and the `url`-field validation with its exact error messages.
- **Buttons** (`buttons.dfy`): the optional button row. It checks the button count, each
  button's shape, its URL after substitution and its emoji. Every failure message starts with
  `Embed Buttons Error: `.
- **StatusMessage** (`status_message.dfy`): one status-message generation. The embed JSON is
  checked first, then the config JSON, then the embed is rendered, then the buttons are built.
- **Lifecycle** (`lifecycle.dfy`): the `/status add|remove` handler as a method over a
  mutable persistent cache. It removes the previously posted message, and for `add` it posts
  a placeholder, edits in the real message and records the new channel and message ids. Each
  call to the chat platform is recorded in order.
- **Defaults** (`defaults.dfy`): the default embed and config as concrete documents, with
  lemmas about them. Every token in the default embed is a known placeholder. The default
  embed always renders, and the default buttons always build.
- **Info** (`info.dfy`): the `/info` command. It covers identifier resolution (self, member,
  raw id), the admin gate, the player-count guard, and the description lines with the
  ban/warn tally. The admin-only notes and identifiers fields are modelled too.
- **UpdateChecking** (`update_checker.dfy`): the changelog schema with its coercions, the
  txAdmin version notice, and the FXServer update tier (critical, recommended, optional). The
  checker is a class whose state the periodic check replaces.

Foreign operations are function-typed parameters of the model:

- discord.js calls;
- `humanize-duration`;
- locale date formatting;
- `semver`;
- the emoji and URL validators of the update schema;
- the player database lookup.

Each method is proved equal to a specification function. Each specification function has
lemmas stating what it promises.

## Model

| member | source | states |
|---|---|---|
| Placeholders.Entries | core/components/DiscordBot/commands/status.ts:71-87 | the placeholder map has exactly the fixed keys, in the order they are substituted |
| Placeholders.RestartText | core/components/DiscordBot/commands/status.ts:89-104 | the restart text is "not scheduled" with no restart and "skipped" when skipped; otherwise it starts with "right now " exactly when under 60000 ms away, and otherwise starts with "in ", the humanized duration and a space; it ends with " (tmp)" exactly for a temporary restart |
| Placeholders.ResolvePlaceholders | core/components/DiscordBot/commands/status.ts:71-116 | the map built step by step equals the specification; the player count is the decimal count; both links carry their fixed prefixes; uptime is "--" exactly when the server is not online or the humanizer yields "--" |
| Placeholders.ScheduledRestartText | core/components/DiscordBot/commands/status.ts:89-104 | the scheduler step sets the restart text the restart-text specification gives |
| Placeholders.StatusFields | core/components/DiscordBot/commands/status.ts:106-116 | an online, partial or offline state takes its configured text and colour or the fallback; any other state keeps the initial values |
| Placeholders.StatusStyleFallbacks | core/components/DiscordBot/commands/status.ts:105-116 | with no config entries, each health state gets its built-in text and colour, and an unknown state gets "Unknown" / #4C3539 |
| Placeholders.UnknownStatusIgnoresConfig | core/components/DiscordBot/commands/status.ts:74-77 | an unknown health state gets the same text and colour whatever the config says |
| Render.Token | core/components/DiscordBot/commands/status.ts:121 | a placeholder token is `{{`, then exactly the key, then `}}`, four characters longer than the key |
| Render.SubstitutionVerbatim | core/components/DiscordBot/commands/status.ts:121 | a replacement value without `$` is inserted verbatim by replaceAll |
| Render.SubstitutionLiteralHead | core/components/DiscordBot/commands/status.ts:121 | a `$`-free head of a replacement value is copied unchanged before the rest is expanded |
| Render.ReplaceAllExactToken | core/components/DiscordBot/commands/status.ts:121 | replacing a string that is exactly the pattern yields the expanded replacement value |
| Render.ReplacePlaceholders | core/components/DiscordBot/commands/status.ts:119-124 | the loop over the placeholder map computes the specified substitution |
| Render.SubstitutedNoTokens | core/components/DiscordBot/commands/status.ts:119-124 | a string containing no known token is left unchanged |
| Render.SubstitutedBraceFree | core/components/DiscordBot/commands/status.ts:119-124 | a string without `{` is left unchanged |
| Render.SubstitutedSingleToken | core/components/DiscordBot/commands/status.ts:119-124 | a string that is exactly one token becomes that placeholder's value, provided the value has no `{` or `$` |
| Render.SubstitutedTokenPrefix | core/components/DiscordBot/commands/status.ts:119-124 | substituting a lone token keeps any brace- and dollar-free prefix of the placeholder's value |
| Render.OtherTokenAbsent | core/components/DiscordBot/commands/status.ts:119-124 | inside brace-free text around one token, the token of any other key occurs nowhere |
| Render.ReplaceEmbeddedToken | core/components/DiscordBot/commands/status.ts:121 | replacing a token that sits in brace-free text puts the dollar-free value in its place and keeps the text around it |
| Render.SubstitutedEmbeddedToken | core/components/DiscordBot/commands/status.ts:119-124 | a token inside brace-free text renders to the same text with the key's value in its place, for a value with neither `{` nor `$` |
| Render.ReplaceAllKeepsPrefix | core/components/DiscordBot/commands/status.ts:121 | replacing a `{`-token never disturbs a brace-free prefix of the text |
| Render.UrlErrorMessageHead | core/components/DiscordBot/commands/status.ts:141-151 | the URL error names the empty URL exactly when the URL is empty, and otherwise quotes the URL |
| Render.UrlErrorMessageHint | core/components/DiscordBot/commands/status.ts:144-151 | the placeholder hint is appended exactly when the URL starts with `{{` |
| Render.ProcessValue | core/components/DiscordBot/commands/status.ts:125-135 | processing a value computes the specified rendering, error included |
| Render.ProcessObject | core/components/DiscordBot/commands/status.ts:136-157 | the loop over an object's entries computes the specified rendering, stopping at the first error |
| Render.RenderCorrect | core/components/DiscordBot/commands/status.ts:125-157 | rendering succeeds exactly when every `url` string in the document is valid after substitution; on success the output is the input with every string substituted and nothing else changed |
| Render.RenderItemsCorrect | core/components/DiscordBot/commands/status.ts:128-129 | an array renders exactly when every element renders, and it keeps its length and order |
| Render.RenderFieldCorrect | core/components/DiscordBot/commands/status.ts:138-155 | an entry renders exactly when its value renders and, if it is a `url`, the substituted URL is valid; the key is kept |
| Render.RenderFieldsCorrect | core/components/DiscordBot/commands/status.ts:136-157 | an object renders exactly when all its entries do, keeping keys and order |
| Render.RenderFieldsFirstError | core/components/DiscordBot/commands/status.ts:139-153 | the reported error is that of the first failing entry |
| Render.TitleScenario | core/components/DiscordBot/commands/status.ts:119-127 | a `{{serverName}}` title renders to the server's name |
| Buttons.BuildButtonRow | core/components/DiscordBot/commands/status.ts:175-220 | the imperative button loop computes the specified row or error |
| Buttons.BuildButton | core/components/DiscordBot/commands/status.ts:184-215 | building one button computes the specified button or error |
| Buttons.BuildButtons | core/components/DiscordBot/commands/status.ts:183-216 | the loop over the configured buttons computes the specified row, stopping at the first error |
| Buttons.CollectCorrect | core/components/DiscordBot/commands/status.ts:183-216 | collecting succeeds exactly when every element checks, and the row holds each element's result in order |
| Buttons.CheckButtonCorrect | core/components/DiscordBot/commands/status.ts:184-215 | a button is accepted exactly when it is an object with a non-empty string label and a string url, its substituted URL is valid and any emoji passes the emoji check; the button carries the substituted label and url and the emoji |
| Buttons.CheckButtonsCorrect | core/components/DiscordBot/commands/status.ts:183-216 | the buttons are accepted exactly when each one is, and the row keeps their count and order |
| Buttons.ButtonRowCorrect | core/components/DiscordBot/commands/status.ts:175-220 | there is no row exactly when the config has no button list; more than five buttons are refused; every error carries the buttons prefix; a row holds 1 to 5 buttons, each the check of the matching config entry; at most five buttons that all check always give a row |
| StatusMessage.TopFields | core/components/DiscordBot/commands/status.ts:136-140 | the embed's top-level entries are an object's fields, or an array's elements keyed by their decimal index |
| StatusMessage.ParsedDocument | core/components/DiscordBot/commands/status.ts:54-69 | a parsed document is accepted exactly when it is an object or array; otherwise the error carries the document's prefix |
| StatusMessage.GenerateStatusMessage | core/components/DiscordBot/commands/status.ts:49-226 | the generator computes the specified status message or error |
| StatusMessage.StatusMessageCorrect | core/components/DiscordBot/commands/status.ts:49-226 | a message is generated exactly when both documents are objects, every embed URL is valid and the buttons build; the message is the rendered embed, the colour of the health state and the button row |
| StatusMessage.EmbedCheckedFirst | core/components/DiscordBot/commands/status.ts:54-61 | a bad embed document fails with the embed prefix, whatever the config |
| StatusMessage.ScalarEmbedRefused | core/components/DiscordBot/commands/status.ts:56-61 | an embed that is neither object nor array fails with "not an Object" |
| StatusMessage.RenderErrorBeforeButtons | core/components/DiscordBot/commands/status.ts:158-220 | a render failure is reported before, and independently of, the button check |
| Lifecycle.PersistentCache.constructor | core/components/DiscordBot/commands/status.ts:229-230 | the cache starts with the given entries |
| Lifecycle.PersistentCache.Set | core/components/DiscordBot/commands/status.ts:287-288 | setting a key updates only that key |
| Lifecycle.PersistentCache.Delete | core/components/DiscordBot/commands/status.ts:252-253 | deleting a key removes only that key |
| Lifecycle.RemoveOldEmbed | core/components/DiscordBot/commands/status.ts:228-241 | removal computes the specified result and platform calls |
| Lifecycle.RemoveOldCorrect | core/components/DiscordBot/commands/status.ts:228-241 | without a saved record no call is made and "no message" is reported; removal succeeds exactly when a record exists, the channel is fetched and the message deleted; a deletion only happens in a fetched message channel |
| Lifecycle.HandleStatusCommand | core/components/DiscordBot/commands/status.ts:243-305 | the handler's reply, log line, platform calls and new cache equal the specified outcome |
| Lifecycle.PostStatusMessage | core/components/DiscordBot/commands/status.ts:267-304 | posting's reply, log line, calls and cache equal the specified outcome |
| Lifecycle.PostCorrect | core/components/DiscordBot/commands/status.ts:267-304 | the message is saved exactly when generation, the channel check, the placeholder send and the edit all succeed; only then are the new ids recorded; a generation failure sends nothing; an edit failure leaves the placeholder posted |
| Lifecycle.RecordLifecycle | core/components/DiscordBot/commands/status.ts:243-305 | the record changes only for a permitted admin, and only by removal of the old record or by saving the new one; a new message is saved exactly when every step succeeds |
| Lifecycle.RemoveOnlyNeverPosts | core/components/DiscordBot/commands/status.ts:248-265 | `remove` never posts; it reports success exactly when removal succeeded, and only then clears the record |
| Lifecycle.GenerationFailurePostsNothing | core/components/DiscordBot/commands/status.ts:267-275 | a generation failure is reported with its prefix and sends nothing |
| Lifecycle.MissingPermissionExplained | core/components/DiscordBot/commands/status.ts:277-300 | when the placeholder send or the edit fails, the reply is the send-failure warning carrying the permission explanation for Discord error 50013 and the error's own message otherwise; the record stays as the removal left it and nothing is logged |
| Defaults.DefaultEmbedTokensKnown | core/components/DiscordBot/defaultJsons.ts:1-37 | every `{{` in the default embed opens a known placeholder token |
| Defaults.ResolvedBrowserUrlIsHttps | core/components/DiscordBot/commands/status.ts:79 | the server browser link always starts with https:// |
| Defaults.DefaultTopUrlRenders | core/components/DiscordBot/defaultJsons.ts:3 | the default top-level url, once substituted, starts with https:// and is a valid embed URL |
| Defaults.DefaultImageUrlsPass | core/components/DiscordBot/defaultJsons.ts:31-36 | the default image and thumbnail URLs contain no placeholders and are valid |
| Defaults.HttpsUrlPasses | core/components/DiscordBot/commands/status.ts:125-157 | an https:// URL with no `{` in it comes out of placeholder substitution unchanged and passes the URL check |
| Defaults.EmbedFieldRenders | core/components/DiscordBot/commands/status.ts:125-157 | a field entry with a plain name renders to the same entry with its value substituted |
| Defaults.StatusFieldRenders | core/components/DiscordBot/defaultJsons.ts:6-10 | the default STATUS field renders to the status text between its code fences |
| Defaults.DefaultFieldsUrlsValid | core/components/DiscordBot/defaultJsons.ts:5-30 | the default fields hold no invalid URL |
| Defaults.DefaultImagesUrlsValid | core/components/DiscordBot/defaultJsons.ts:31-36 | the default image objects hold only valid URLs |
| Defaults.DefaultEmbedRenders | core/components/DiscordBot/defaultJsons.ts:1-37 | the default embed renders exactly when its substituted top-level url is valid |
| Defaults.DefaultEmbedRendersLive | core/components/DiscordBot/defaultJsons.ts:1-37 | the default embed renders for every live state, config and cache |
| Defaults.EmojiRefIsCustom | core/components/DiscordBot/defaultJsons.ts:48 | a `<:name:id>` reference with a colon-free name and a numeric id is a custom-emoji reference |
| Defaults.DefaultEmojisCustom | core/components/DiscordBot/defaultJsons.ts:46-62 | the three default button emojis are custom-emoji references |
| Defaults.HttpsButtonBuilds | core/components/DiscordBot/commands/status.ts:184-215 | a button with a plain label, an https:// link and an accepted emoji builds to exactly that button |
| Defaults.DefaultButtonList | core/components/DiscordBot/defaultJsons.ts:46-62 | the default config's button list is the three default buttons |
| Defaults.CheckButtonsAllOk | core/components/DiscordBot/commands/status.ts:183-216 | when every button checks to its row entry, the whole list checks to that row |
| Defaults.DefaultButtonsCheck | core/components/DiscordBot/defaultJsons.ts:46-62 | the default buttons check to the installer, Discord and website buttons |
| Defaults.DefaultButtonsBuild | core/components/DiscordBot/defaultJsons.ts:39-63 | the default config yields the three default buttons for every placeholder map |
| Defaults.DefaultStyleIsFallback | core/components/DiscordBot/defaultJsons.ts:40-45 | the default config's status texts and colours are the built-in fallbacks |
| Info.LeadingSpace | core/components/DiscordBot/commands/info.ts:79 | the leading-whitespace length is maximal |
| Info.TrailingSpaceStart | core/components/DiscordBot/commands/info.ts:79 | the trailing whitespace starts at the last non-whitespace character |
| Info.TrimCorrect | core/components/DiscordBot/commands/info.ts:79 | trimming yields the empty string exactly for all-whitespace input; otherwise the result has no whitespace at either end, and it is the input with only whitespace cut from its two ends |
| Info.Count | core/components/DiscordBot/commands/info.ts:122-126 | a tally never exceeds the history length |
| Info.TallyActions | core/components/DiscordBot/commands/info.ts:122-126 | the tally loop counts the bans and the warns |
| Info.CountIsMultiplicity | core/components/DiscordBot/commands/info.ts:122-126 | each tally is the action's multiplicity in the history |
| Info.CountsCoverHistory | core/components/DiscordBot/commands/info.ts:122-126 | bans plus warns is the history length |
| Info.CountTextForms | core/components/DiscordBot/commands/info.ts:127-128 | the noun is singular exactly for a count of one; the text starts with the decimal count |
| Info.CountTextInjective | core/components/DiscordBot/commands/info.ts:127-128 | different counts give different texts |
| Info.LogTextInjective | core/components/DiscordBot/commands/info.ts:127-129 | the log line determines both counts |
| Info.DescriptionSplitsIntoLines | core/components/DiscordBot/commands/info.ts:147-150 | splitting the description at newlines gives back exactly its lines |
| Info.BuildPlayerEmbed | core/components/DiscordBot/commands/info.ts:108-157 | building a player embed computes the specified embed |
| Info.PlayerEmbedFields | core/components/DiscordBot/commands/info.ts:131-157 | the embed is titled with the player's name and coloured #4262e2; it has the notes and identifiers fields exactly in admin mode, with "nothing here" fallbacks |
| Info.IdsTextSplits | core/components/DiscordBot/commands/info.ts:133 | the identifiers text splits back into the identifiers |
| Info.PlayerDescriptionLines | core/components/DiscordBot/commands/info.ts:108-150 | the description has the play-time, join, last-connection and whitelist lines, plus the log line only in admin mode |
| Info.WithData | core/components/DiscordBot/commands/info.ts:103-106 | the kept players are among the found ones and all have database data |
| Info.BuildEmbeds | core/components/DiscordBot/commands/info.ts:102-158 | the loop over players computes the specified embeds |
| Info.EmbedsOfCorrect | core/components/DiscordBot/commands/info.ts:103-158 | there is one embed per found player with database data, in order, and every such player is kept |
| Info.SearchId | core/components/DiscordBot/commands/info.ts:59-92 | a resolved search identifier is never empty, and a failed resolution never replies with embeds |
| Info.HandleInfo | core/components/DiscordBot/commands/info.ts:38-161 | the handler computes the specified reply |
| Info.PlayerCountGuard | core/components/DiscordBot/commands/info.ts:94-100 | embeds are sent only for 1 to 10 found players; none found and more than ten found each get their warning |
| Info.AdminInfoOnlyForAdmins | core/components/DiscordBot/commands/info.ts:46-57 | admin info asked for by a non-admin is refused; admin fields appear exactly when an admin asked for them |
| Info.BlankIdentifierRefused | core/components/DiscordBot/commands/info.ts:77-88 | a raw identifier is refused as invalid exactly when it is all whitespace |
| Json.ParseNatToString | core/components/DiscordBot/commands/status.ts:121 | a decimal count parses back to the number |
| Json.NatToStringInjective | core/components/DiscordBot/commands/status.ts:121 | different counts print differently |
| Json.SplitJoin | core/components/DiscordBot/commands/info.ts:133 | joining newline-free parts and splitting at newlines gives back the parts |
| UpdateChecking.ParseReleaseCorrect | core/components/UpdateChecker.ts:24-41 | a release is accepted exactly when its build coerces to a positive number, its download is an accepted URL and its txAdmin version is not 0.0.0; the release carries those values |
| UpdateChecking.ParseChangelogCorrect | core/components/UpdateChecker.ts:24-41 | a changelog is accepted exactly when it is an object and all four releases are; it is then valid |
| UpdateChecking.CoerceDecimalString | core/components/UpdateChecker.ts:30 | a decimal-string build number coerces to its value |
| UpdateChecking.TxUpdateCorrect | core/components/UpdateChecker.ts:78-107 | the txAdmin notice changes only when semver.lt holds; it then records the running version and the difference, grey for a patch and red otherwise |
| UpdateChecking.FxsTierCorrect | core/components/UpdateChecker.ts:109-148 | the tier is critical below the critical build, recommended below the recommended one, optional below the optional one, and none otherwise; each tier has its message, download link and "update to" subtext, and critical links to the higher of the critical and recommended builds |
| UpdateChecking.FxsTierMonotone | core/components/UpdateChecker.ts:109-148 | a newer running build never gets a more severe tier |
| UpdateChecking.FxsLinkValidated | core/components/UpdateChecker.ts:24-41 | every offered download link passed the schema's URL check |
| UpdateChecking.CheckedCorrect | core/components/UpdateChecker.ts:63-76 | a failed fetch or rejected changelog keeps the previous state; otherwise the FXServer notice is replaced by the new tier when there is one |
| UpdateChecking.UpdateChecker.constructor | core/components/UpdateChecker.ts:45-57 | a new checker holds no notices |
| UpdateChecking.UpdateChecker.CheckChangelog | core/components/UpdateChecker.ts:63-148 | one check replaces the state as the specified check does |
| UpdateChecking.UpdateChecker.CheckTxVersion | core/components/UpdateChecker.ts:78-107 | the version step replaces only the txAdmin notice, as the specified update does |
| UpdateChecking.UpdateChecker.CheckFxsVersion | core/components/UpdateChecker.ts:109-148 | the FXServer step replaces only the FXServer notice, as the specified tier update does |

## Left out

- Discord's embed, action-row and button builders are not modelled; the message is a plain
  datatype. That covers the colour, timestamp and footer setters and the "Embed Class Error"
  path. The model carries the `String()` form of the configured colour, or the built-in
  default. `setColor` receives the raw configured value, which may be a number rather than
  a string; that difference is not modelled.
- `JSON.parse` and `cloneDeep` are outside the model. The raw documents reach it already
  parsed, as a `Result`.
- JSON numbers are integers. Floating-point numbers and their `String()` forms are not
  modelled. The TypeError text is the V8 message for a non-string `url`, written as a
  constant.
- Object key order follows the field sequence. JavaScript's rule that integer-like keys are
  enumerated first is not modelled.
- `humanize-duration`, locale date formatting, `isValidButtonEmoji`, `parsePlayerId`, the
  player lookup, `semver.lt`/`semver.diff` and zod's URL check are function parameters.
  Their own behaviour is outside the model.
- Render.IsValidEmbedUrl: `isValidEmbedUrl` is taken to be the rule the bot's own error
  message states, at status.ts:39-40. A URL must be non-empty and start with http://,
  https:// or discord://. The helper's own body is not part of this model.
- `ensurePermission` becomes an optional admin name. `logDiscordAdminAction` becomes the
  `logged` output.
- Failures of `interaction.reply`, the console logging and concurrent handler runs are not
  modelled.
- The `got` fetch is an optional response. The `setInterval` timer, the constructor's
  immediate first check and the console output of UpdateChecker are not modelled. The
  constructor stands for the state before any check.
- UpdateChecking.CoerceNumber:
  - strings are coerced only when they are plain decimal digits;
  - `Number()` of strings with whitespace, a sign, a fraction, an exponent or a hex prefix is
    treated as a failed coercion;
  - `Number()` of one-element arrays is treated as a failed coercion.
- UpdateChecking.TxUpdateCorrect: the notice is raised when `semver.lt(latest, running)`
  holds. That is the direction the code compares in, and the model keeps it.
- Defaults.DefaultButtonsBuild is stated for any emoji check that accepts custom-emoji
  references. The real check lives in discord.js and is not part of this model.
- Render.SubstitutedEmbeddedToken covers text with one token. A text with two or more
  tokens, like the default PLAYERS field, is rendered by the same substitution fold. No
  lemma states its result.
- The text form of the default documents (`JSON.stringify` with indentation) is not
  modelled. They are modelled as parsed documents.
- txAdmin.ts, intercom.js, IFrameProvider.tsx, got.js and playerApiTypes.ts are not part of
  this model. Only their types and the values they provide appear, as parameters.
