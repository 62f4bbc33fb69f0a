/** The link-button row of the status message
    (core/components/DiscordBot/commands/status.ts:27-47, 175-220). */
module Buttons {
  import opened Wrappers
  import opened Json
  import opened Placeholders
  import opened Render

  /** A link button as handed to `ButtonBuilder`: rendered label and url, raw emoji. */
  datatype Button = Button(caption: string, url: string, emoji: Option<string>)

  const MaxButtons := 5

  const ButtonsErrorPrefix := "**Embed Buttons Error:** "

  const OverLimitMessage := "Over limit of 5 buttons."

  const InvalidButtonMessage :=
    "Invalid button in Discord Status Embed Config.\n"
    + "                    All buttons must have:\n"
    + "                    - Label: string, not empty\n"
    + "                    - URL: string, not empty, valid URL"

  const ValidEmojiMessage :=
    "All emojis must be one of:\n"
    + "- UTF-8 emoji ('\U{1F604}')\n"
    + "- Valid emoji ID ('1062339910654246964')\n"
    + "- Discord custom emoji (`<:name:id>` or `<a:name:id>`).\n"
    + "To get the full emoji code, insert it into discord, and add `\\` before it then send the message"

  /** The string held by `obj[key]`, if it is a string. */
  function StringField(fs: seq<Field>, key: string): Option<string>
  {
    match Get(fs, key)
    case Some(JStr(s)) => Some(s)
    case _ => None
  }

  /** `isValidButtonConfig` (status.ts:27-37): an object with a non-empty string label, a
      string url, and an emoji that is a string or missing. */
  predicate IsValidButtonConfig(btn: Json)
  {
    && btn.JObj?
    && StringField(btn.fields, "label").Some? && |StringField(btn.fields, "label").value| > 0
    && StringField(btn.fields, "url").Some?
    && (Get(btn.fields, "emoji").None? || StringField(btn.fields, "emoji").Some?)
  }

  /** The message for a button url that fails the check (status.ts:192-202). */
  function ButtonUrlErrorMessage(u: string, caption: string): string
  {
    var head := if |u| > 0 then "Invalid URL `" + u + "`" else "Empty URL";
    var hint := if StartsWith(u, "{{") then BadPlaceholderHint else "";
    head + " for button `" + caption + "`." + "\n" + ValidUrlMessage + "\n" + hint
  }

  /** One iteration of the button loop: shape check, url rendered and checked, label
      rendered, emoji checked only when present (status.ts:184-215). `validEmoji` is the
      platform's `isValidButtonEmoji`, kept abstract. */
  function CheckButton(btn: Json, p: PlaceholderMap, validEmoji: string -> bool): Result<Button, string>
  {
    if !IsValidButtonConfig(btn) then Err(InvalidButtonMessage)
    else
      var caption := StringField(btn.fields, "label").value;
      var url := Substituted(StringField(btn.fields, "url").value, p);
      var emoji := StringField(btn.fields, "emoji");
      if !IsValidEmbedUrl(url) then Err(ButtonUrlErrorMessage(url, caption))
      else if emoji.Some? && !validEmoji(emoji.value) then
        Err("Invalid emoji for button `" + caption + "`.\n" + ValidEmojiMessage)
      else Ok(Button(Substituted(caption, p), url, emoji))
  }

  /** The per-entry results gathered in input order; the first failure stops the row. */
  function Collect(bs: seq<Json>, check: Json -> Result<Button, string>): Result<seq<Button>, string>
  {
    if bs == [] then Ok([])
    else
      match Collect(bs[..|bs| - 1], check)
      case Err(e) => Err(e)
      case Ok(row) =>
        match check(bs[|bs| - 1])
        case Err(e) => Err(e)
        case Ok(b) => Ok(row + [b])
  }

  /** The check applied to every configured button. */
  function ButtonCheck(p: PlaceholderMap, validEmoji: string -> bool): Json -> Result<Button, string>
  {
    btn => CheckButton(btn, p, validEmoji)
  }

  /** The buttons in input order; the first invalid one stops the row. */
  function CheckButtons(bs: seq<Json>, p: PlaceholderMap, validEmoji: string -> bool): Result<seq<Button>, string>
  {
    Collect(bs, ButtonCheck(p, validEmoji))
  }

  /** `config.buttons` when it is a non-empty array: the only case with a button row. */
  function ButtonList(config: Json): Option<seq<Json>>
  {
    match Property(config, "buttons")
    case Some(JArr(bs)) => if |bs| > 0 then Some(bs) else None
    case _ => None
  }

  /** The button row: absent, built, or an error carrying the buttons prefix. */
  function ButtonRow(config: Json, p: PlaceholderMap, validEmoji: string -> bool): Result<Option<seq<Button>>, string>
  {
    match ButtonList(config)
    case None => Ok(None)
    case Some(bs) =>
      if |bs| > MaxButtons then Err(ButtonsErrorPrefix + OverLimitMessage)
      else
        match CheckButtons(bs, p, validEmoji)
        case Err(e) => Err(ButtonsErrorPrefix + e)
        case Ok(row) => Ok(Some(row))
  }

  /** One pass of the button loop body: the checks run in the source's order and the
      label is rendered only once the url has passed. */
  method BuildButton(cfgButton: Json, p: PlaceholderMap, validEmoji: string -> bool)
    returns (r: Result<Button, string>)
    ensures r == CheckButton(cfgButton, p, validEmoji)
  {
    if !IsValidButtonConfig(cfgButton) {
      return Err(InvalidButtonMessage);
    }
    var caption := StringField(cfgButton.fields, "label").value;
    var processedUrl := ReplacePlaceholders(StringField(cfgButton.fields, "url").value, p);
    var emoji := StringField(cfgButton.fields, "emoji");
    if !IsValidEmbedUrl(processedUrl) {
      return Err(ButtonUrlErrorMessage(processedUrl, caption));
    }
    var processedLabel := ReplacePlaceholders(caption, p);
    if emoji.Some? && !validEmoji(emoji.value) {
      return Err("Invalid emoji for button `" + caption + "`.\n" + ValidEmojiMessage);
    }
    r := Ok(Button(processedLabel, processedUrl, emoji));
  }

  /** The `for (const cfgButton of ...)` loop: buttons appended in order, the first
      failure ends the loop. */
  method BuildButtons(bs: seq<Json>, p: PlaceholderMap, validEmoji: string -> bool)
    returns (r: Result<seq<Button>, string>)
    ensures r == CheckButtons(bs, p, validEmoji)
  {
    var row: seq<Button> := [];
    var i := 0;
    while i < |bs|
      invariant 0 <= i <= |bs|
      invariant Collect(bs[..i], ButtonCheck(p, validEmoji)) == Ok(row)
    {
      var btn := BuildButton(bs[i], p, validEmoji);
      CollectExtend(bs, i, row, ButtonCheck(p, validEmoji));
      if btn.Err? {
        return Err(btn.error);
      }
      row := row + [btn.value];
      i := i + 1;
    }
    assert bs[..|bs|] == bs;
    r := Ok(row);
  }

  /** The button block of `generateStatusMessage`: no row without a button list, the
      count limit first, then the loop, every error under the buttons prefix. */
  method BuildButtonRow(config: Json, p: PlaceholderMap, validEmoji: string -> bool)
    returns (r: Result<Option<seq<Button>>, string>)
    ensures r == ButtonRow(config, p, validEmoji)
  {
    var list := ButtonList(config);
    if list.None? {
      return Ok(None);
    }
    var bs := list.value;
    if |bs| > MaxButtons {
      return Err(ButtonsErrorPrefix + OverLimitMessage);
    }
    var row := BuildButtons(bs, p, validEmoji);
    if row.Err? {
      return Err(ButtonsErrorPrefix + row.error);
    }
    r := Ok(Some(row.value));
  }

  lemma {:induction false} CollectPrefixError(bs: seq<Json>, check: Json -> Result<Button, string>, n: nat)
    requires n <= |bs| && Collect(bs[..n], check).Err?
    ensures Collect(bs[..|bs|], check) == Collect(bs[..n], check)
    decreases |bs| - n
  {
    if n < |bs| {
      assert bs[..n + 1][..n] == bs[..n];
      CollectPrefixError(bs, check, n + 1);
    }
  }

  /** One more entry: it either fails the whole list or is appended to the row. */
  lemma CollectExtend(bs: seq<Json>, i: nat, row: seq<Button>, check: Json -> Result<Button, string>)
    requires i < |bs| && Collect(bs[..i], check) == Ok(row)
    ensures check(bs[i]).Err? ==> Collect(bs, check) == Err(check(bs[i]).error)
    ensures check(bs[i]).Ok? ==> Collect(bs[..i + 1], check) == Ok(row + [check(bs[i]).value])
  {
    assert bs[..i + 1][..i] == bs[..i] && bs[..i + 1][i] == bs[i];
    if check(bs[i]).Err? {
      CollectPrefixError(bs, check, i + 1);
      assert bs[..|bs|] == bs;
    }
  }

  /** The collection succeeds exactly when every entry does, and then lists the entries'
      results in input order. */
  lemma {:induction false} CollectCorrect(bs: seq<Json>, check: Json -> Result<Button, string>)
    ensures Collect(bs, check).Ok? <==> forall i :: 0 <= i < |bs| ==> check(bs[i]).Ok?
    ensures Collect(bs, check).Ok? ==>
      |Collect(bs, check).value| == |bs|
      && forall i :: 0 <= i < |bs| ==> Collect(bs, check).value[i] == check(bs[i]).value
  {
    if bs != [] {
      var n := |bs| - 1;
      var init := bs[..n];
      CollectCorrect(init, check);
      var prev := Collect(init, check);
      if prev.Err? {
        var k :| 0 <= k < n && !check(init[k]).Ok?;
        assert init[k] == bs[k];
      } else if check(bs[n]).Ok? {
        var row := prev.value + [check(bs[n]).value];
        forall i | 0 <= i < |bs|
          ensures check(bs[i]).Ok? && row[i] == check(bs[i]).value
        {
          if i < n {
            assert init[i] == bs[i];
          }
        }
      }
    }
  }

  /** A button passes exactly when its shape is valid, its rendered url passes the URL
      check and its emoji, when present, passes the emoji check; it then carries the
      rendered caption and url and the raw emoji. */
  lemma CheckButtonCorrect(btn: Json, p: PlaceholderMap, validEmoji: string -> bool)
    ensures CheckButton(btn, p, validEmoji).Ok? <==>
      && IsValidButtonConfig(btn)
      && IsValidEmbedUrl(Substituted(StringField(btn.fields, "url").value, p))
      && (StringField(btn.fields, "emoji").Some? ==> validEmoji(StringField(btn.fields, "emoji").value))
    ensures CheckButton(btn, p, validEmoji).Ok? ==>
      CheckButton(btn, p, validEmoji).value == Button(
        Substituted(StringField(btn.fields, "label").value, p),
        Substituted(StringField(btn.fields, "url").value, p),
        StringField(btn.fields, "emoji"))
  {
  }

  /** The buttons all pass exactly when each one does, and the row lists them in input
      order. */
  lemma CheckButtonsCorrect(bs: seq<Json>, p: PlaceholderMap, validEmoji: string -> bool)
    ensures CheckButtons(bs, p, validEmoji).Ok? <==> forall i :: 0 <= i < |bs| ==> CheckButton(bs[i], p, validEmoji).Ok?
    ensures CheckButtons(bs, p, validEmoji).Ok? ==>
      |CheckButtons(bs, p, validEmoji).value| == |bs|
      && forall i :: 0 <= i < |bs| ==> CheckButtons(bs, p, validEmoji).value[i] == CheckButton(bs[i], p, validEmoji).value
  {
    CollectCorrect(bs, ButtonCheck(p, validEmoji));
  }

  /** The row is absent unless `buttons` is a non-empty array; more than five buttons fail
      with the limit message; every failure carries the buttons prefix; a built row holds
      one button per entry, in input order. */
  lemma ButtonRowCorrect(config: Json, p: PlaceholderMap, validEmoji: string -> bool)
    ensures ButtonRow(config, p, validEmoji) == Ok(None) <==> ButtonList(config).None?
    ensures ButtonList(config).Some? && |ButtonList(config).value| > MaxButtons ==>
      ButtonRow(config, p, validEmoji) == Err(ButtonsErrorPrefix + OverLimitMessage)
    ensures ButtonRow(config, p, validEmoji).Err? ==> StartsWith(ButtonRow(config, p, validEmoji).error, ButtonsErrorPrefix)
    ensures ButtonRow(config, p, validEmoji).Ok? && ButtonRow(config, p, validEmoji).value.Some? ==>
      var bs := ButtonList(config).value;
      var row := ButtonRow(config, p, validEmoji).value.value;
      && 1 <= |row| == |bs| <= MaxButtons
      && forall i :: 0 <= i < |bs| ==> CheckButton(bs[i], p, validEmoji) == Ok(row[i])
    ensures
      (&& ButtonList(config).Some? && |ButtonList(config).value| <= MaxButtons
       && forall i :: 0 <= i < |ButtonList(config).value| ==>
            CheckButton(ButtonList(config).value[i], p, validEmoji).Ok?)
      ==> ButtonRow(config, p, validEmoji).Ok? && ButtonRow(config, p, validEmoji).value.Some?
  {
    match ButtonList(config)
    case None =>
    case Some(bs) =>
      CheckButtonsCorrect(bs, p, validEmoji);
      var r := ButtonRow(config, p, validEmoji);
      if r.Err? {
        var e := if |bs| > MaxButtons then OverLimitMessage else CheckButtons(bs, p, validEmoji).error;
        assert r.error == ButtonsErrorPrefix + e;
        assert (ButtonsErrorPrefix + e)[..|ButtonsErrorPrefix|] == ButtonsErrorPrefix;
      }
  }
}
