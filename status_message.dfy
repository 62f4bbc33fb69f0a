/** `generateStatusMessage` (core/components/DiscordBot/commands/status.ts:49-226): parse
    checks, placeholders, the embed render and the button row, in the source's order. */
module StatusMessage {
  import opened Wrappers
  import opened Json
  import opened Placeholders
  import opened Render
  import opened Buttons

  /** What the generator hands to the platform: the rendered embed data, the colour set on
      the embed, and the button row when there is one. */
  datatype StatusMessage = StatusMessage(embed: seq<Field>, color: string, buttons: Option<seq<Button>>)

  const EmbedErrorPrefix := "Embed JSON Error: "
  const ConfigErrorPrefix := "Embed Config JSON Error: "
  const NotAnObject := "not an Object"

  /** `Object.entries(doc)` for an object or an array: an array's entries are keyed by
      their decimal index. */
  function TopFields(doc: Json): (fs: seq<Field>)
    requires IsObjectLike(doc)
    ensures doc.JObj? ==> fs == doc.fields
    ensures doc.JArr? ==>
      |fs| == |doc.items| && forall i :: 0 <= i < |fs| ==> fs[i] == Field(NatToString(i), doc.items[i])
  {
    if doc.JObj? then doc.fields else IndexFields(doc.items, 0)
  }

  function IndexFields(items: seq<Json>, from: nat): (fs: seq<Field>)
    ensures |fs| == |items|
    ensures forall i :: 0 <= i < |fs| ==> fs[i] == Field(NatToString(from + i), items[i])
    decreases |items|
  {
    if items == [] then []
    else [Field(NatToString(from), items[0])] + IndexFields(items[1..], from + 1)
  }

  /** One of the two `JSON.parse` + `instanceof Object` steps: the parser's own message or
      `not an Object`, behind the step's prefix. `raw` carries the parse outcome. */
  function ParsedDocument(raw: Result<Json, string>, prefix: string): (r: Result<Json, string>)
    ensures r.Ok? <==> raw.Ok? && IsObjectLike(raw.value)
    ensures r.Ok? ==> r.value == raw.value
    ensures r.Err? ==> StartsWith(r.error, prefix)
  {
    var r := if raw.Err? then Err(prefix + raw.error)
      else if !IsObjectLike(raw.value) then Err(prefix + NotAnObject)
      else Ok(raw.value);
    assert r.Err? ==> r.error[..|prefix|] == prefix;
    r
  }

  /** The whole generator, as a specification function. */
  function StatusMessageOf(
    live: LiveState, rawEmbed: Result<Json, string>, rawConfig: Result<Json, string>,
    cache: map<string, Json>, validEmoji: string -> bool): Result<StatusMessage, string>
  {
    match ParsedDocument(rawEmbed, EmbedErrorPrefix)
    case Err(e) => Err(e)
    case Ok(embed) =>
      match ParsedDocument(rawConfig, ConfigErrorPrefix)
      case Err(e) => Err(e)
      case Ok(config) =>
        var p := Resolved(live, config, cache);
        match RenderFields(TopFields(embed), p)
        case Err(e) => Err(RenderErrorMessage(e))
        case Ok(fields) =>
          match ButtonRow(config, p, validEmoji)
          case Err(e) => Err(e)
          case Ok(row) => Ok(StatusMessage(fields, p.statusColor, row))
  }

  /** The generator as the source runs it. */
  method GenerateStatusMessage(
    live: LiveState, rawEmbed: Result<Json, string>, rawConfig: Result<Json, string>,
    cache: map<string, Json>, validEmoji: string -> bool) returns (r: Result<StatusMessage, string>)
    ensures r == StatusMessageOf(live, rawEmbed, rawConfig, cache, validEmoji)
  {
    var embed := ParsedDocument(rawEmbed, EmbedErrorPrefix);
    if embed.Err? {
      return Err(embed.error);
    }
    var config := ParsedDocument(rawConfig, ConfigErrorPrefix);
    if config.Err? {
      return Err(config.error);
    }
    var p := ResolvePlaceholders(live, config.value, cache);
    var processed := ProcessObject(TopFields(embed.value), p);
    if processed.Err? {
      return Err(RenderErrorMessage(processed.error));
    }
    var row := BuildButtonRow(config.value, p, validEmoji);
    if row.Err? {
      return Err(row.error);
    }
    r := Ok(StatusMessage(processed.value, p.statusColor, row.value));
  }

  /** A message is produced exactly when both documents parse to objects, every `url` in
      the embed passes the URL check and the button row builds; it then holds the embed
      with every string substituted and its keys in order, the colour of the current
      health state, and the row. */
  lemma StatusMessageCorrect(
    live: LiveState, rawEmbed: Result<Json, string>, rawConfig: Result<Json, string>,
    cache: map<string, Json>, validEmoji: string -> bool)
    ensures var r := StatusMessageOf(live, rawEmbed, rawConfig, cache, validEmoji);
      r.Ok? <==>
        && rawEmbed.Ok? && IsObjectLike(rawEmbed.value)
        && rawConfig.Ok? && IsObjectLike(rawConfig.value)
        && (var p := Resolved(live, rawConfig.value, cache);
            var fs := TopFields(rawEmbed.value);
            && (forall i :: 0 <= i < |fs| ==> UrlsValid(fs[i].value, p) && UrlFieldValid(fs[i], p))
            && ButtonRow(rawConfig.value, p, validEmoji).Ok?)
    ensures var r := StatusMessageOf(live, rawEmbed, rawConfig, cache, validEmoji);
      r.Ok? ==>
        var p := Resolved(live, rawConfig.value, cache);
        var fs := TopFields(rawEmbed.value);
        && |r.value.embed| == |fs|
        && (forall i :: 0 <= i < |fs| ==>
              r.value.embed[i].key == fs[i].key && IsRenderingOf(fs[i].value, r.value.embed[i].value, p))
        && r.value.color == StatusStyle(live.status, rawConfig.value).1
        && r.value.buttons == ButtonRow(rawConfig.value, p, validEmoji).value
  {
    if rawEmbed.Ok? && IsObjectLike(rawEmbed.value) && rawConfig.Ok? && IsObjectLike(rawConfig.value) {
      var p := Resolved(live, rawConfig.value, cache);
      RenderFieldsCorrect(TopFields(rawEmbed.value), p);
    }
  }

  /** The embed document is checked first: when it does not parse to an object, the
      configuration does not matter. */
  lemma EmbedCheckedFirst(
    live: LiveState, rawEmbed: Result<Json, string>, rawConfig1: Result<Json, string>,
    rawConfig2: Result<Json, string>, cache: map<string, Json>, validEmoji: string -> bool)
    requires !(rawEmbed.Ok? && IsObjectLike(rawEmbed.value))
    ensures StatusMessageOf(live, rawEmbed, rawConfig1, cache, validEmoji)
         == StatusMessageOf(live, rawEmbed, rawConfig2, cache, validEmoji)
    ensures StatusMessageOf(live, rawEmbed, rawConfig1, cache, validEmoji).Err?
    ensures StartsWith(StatusMessageOf(live, rawEmbed, rawConfig1, cache, validEmoji).error, EmbedErrorPrefix)
  {
  }

  /** A document that parses to a string, number, boolean or null is refused with
      `not an Object`. */
  lemma ScalarEmbedRefused(
    live: LiveState, doc: Json, rawConfig: Result<Json, string>,
    cache: map<string, Json>, validEmoji: string -> bool)
    requires !doc.JObj? && !doc.JArr?
    ensures StatusMessageOf(live, Ok(doc), rawConfig, cache, validEmoji) == Err("Embed JSON Error: not an Object")
  {
    assert EmbedErrorPrefix + NotAnObject == "Embed JSON Error: not an Object";
  }

  /** Render errors come before button errors: an embed with a bad url fails with the
      url message whatever the buttons are. */
  lemma RenderErrorBeforeButtons(
    live: LiveState, embed: Json, config: Json, cache: map<string, Json>,
    validEmoji1: string -> bool, validEmoji2: string -> bool)
    requires IsObjectLike(embed) && IsObjectLike(config)
    requires RenderFields(TopFields(embed), Resolved(live, config, cache)).Err?
    ensures StatusMessageOf(live, Ok(embed), Ok(config), cache, validEmoji1)
         == StatusMessageOf(live, Ok(embed), Ok(config), cache, validEmoji2)
         == Err(RenderErrorMessage(RenderFields(TopFields(embed), Resolved(live, config, cache)).error))
  {
  }
}
