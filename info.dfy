/** The `/info` command (core/components/DiscordBot/commands/info.ts:38-162): the admin
    check, the search identifier, the player-count guard and one embed per player with
    database data, whose description lists play time, dates and, for admins, the ban and
    warn tally. */
module Info {
  import opened Wrappers
  import opened Json

  /** The type of a history item: `'ban' | 'warn'`. */
  datatype ActionType = Ban | Warn

  /** The database record of a player, as far as the command reads it. Timestamps are in
      seconds; a missing or zero `tsWhitelisted` means not whitelisted; `notes` is the
      note text when there is a note. */
  datatype DbData = DbData(
    playTime: int,
    tsJoined: int,
    tsLastConnection: int,
    tsWhitelisted: Option<int>,
    notes: Option<string>,
    ids: seq<string>)

  /** A player found by the search: its display name, its database record (`getDbData()`,
      absent for a player without one) and the types of its history items. */
  datatype Player = Player(displayName: string, dbData: Option<DbData>, history: seq<ActionType>)

  datatype EmbedField = EmbedField(name: string, value: string)

  /** The data of one player embed: title, description, the admin fields when present,
      and the colour. */
  datatype Embed = Embed(title: string, description: string, fields: Option<seq<EmbedField>>, color: string)

  /** The subcommand; any other name reaches the handler's final `else`. */
  datatype Subcommand = SelfCommand | MemberCommand | IdCommand | UnknownCommand(name: string)

  /** The interaction's options: the `admininfo` flag, the subcommand, the caller's own
      Discord id (`interaction.member?.user.id`), the id of the `member` option when it
      resolves to a member with a user, and the raw `id` option. */
  datatype Request = Request(
    adminInfo: bool,
    subcommand: Subcommand,
    callerId: Option<string>,
    memberId: Option<string>,
    idInput: string)

  /** The code the handler calls out to: whether the caller is a txAdmin admin,
      `parsePlayerId` (the lower-cased id when all four of its results are truthy),
      `findPlayersByIdentifier`, the duration humanizer and `tsToLocaleDate`. */
  datatype Env = Env(
    callerIsAdmin: bool,
    parsePlayerId: string -> Option<string>,
    findPlayers: string -> seq<Player>,
    humanizer: int -> string,
    localeDate: int -> string)

  /** What the handler replies with, or the error it throws. */
  datatype Reply = Danger(text: string) | Warning(text: string) | Embeds(embeds: seq<Embed>) | Thrown(message: string)

  const EmbedColor := "#4262e2"
  const MaxPlayers := 10
  const NothingHere := "nothing here"
  const NotYet := "not yet"
  const NotAdminMessage := "You cannot use the `admininfo` option if you are not a txAdmin admin."
  const NoCallerIdMessage := "Could not resolve your Discord ID."
  const NoMemberMessage := "Failed to resolve member ID."
  const InvalidIdentifierMessage := "Invalid identifier."

  // ---------------------------------------------------------------------------------
  // Trimming the `id` option

  /** The characters `String.prototype.trim` removes: white space and line terminators. */
  predicate IsJsWhitespace(c: char)
  {
    || c == '\t' || c == '\n' || c == '\U{000B}' || c == '\U{000C}' || c == '\r'
    || c == ' ' || c == '\U{00A0}' || c == '\U{1680}' || ('\U{2000}' <= c <= '\U{200A}')
    || c == '\U{2028}' || c == '\U{2029}' || c == '\U{202F}' || c == '\U{205F}'
    || c == '\U{3000}' || c == '\U{FEFF}'
  }

  /** The number of white-space characters the string starts with. */
  function LeadingSpace(s: string): (k: nat)
    ensures k <= |s| && forall i :: 0 <= i < k ==> IsJsWhitespace(s[i])
    ensures k < |s| ==> !IsJsWhitespace(s[k])
    decreases |s|
  {
    if s != [] && IsJsWhitespace(s[0]) then 1 + LeadingSpace(s[1..]) else 0
  }

  /** Where the white space the string ends with begins. */
  function TrailingSpaceStart(s: string): (k: nat)
    ensures k <= |s| && forall i :: k <= i < |s| ==> IsJsWhitespace(s[i])
    ensures 0 < k ==> !IsJsWhitespace(s[k - 1])
    decreases |s|
  {
    if s != [] && IsJsWhitespace(s[|s| - 1]) then TrailingSpaceStart(s[..|s| - 1]) else |s|
  }

  /** `s.trim()`. */
  function Trim(s: string): string
  {
    var t := s[LeadingSpace(s)..];
    t[..TrailingSpaceStart(t)]
  }

  /** White space up to `a` and white space after it make an all-white-space string. */
  lemma LeadingThenRestSpace(s: string, a: nat)
    requires a <= |s| && forall i :: 0 <= i < a ==> IsJsWhitespace(s[i])
    requires forall j :: 0 <= j < |s[a..]| ==> IsJsWhitespace(s[a..][j])
    ensures forall i :: 0 <= i < |s| ==> IsJsWhitespace(s[i])
  {
    forall i | 0 <= i < |s| ensures IsJsWhitespace(s[i]) {
      if i >= a {
        assert s[i] == s[a..][i - a];
      }
    }
  }

  /** The trimmed input is empty exactly when the input is all white space; otherwise it
      has no white space at either end. It is the input with only white space cut from
      its two ends. */
  lemma TrimCorrect(s: string)
    ensures Trim(s) == [] <==> forall i :: 0 <= i < |s| ==> IsJsWhitespace(s[i])
    ensures Trim(s) != [] ==>
      && !IsJsWhitespace(Trim(s)[0]) && !IsJsWhitespace(Trim(s)[|Trim(s)| - 1])
    ensures exists a, b ::
      && 0 <= a <= b <= |s| && Trim(s) == s[a..b]
      && (forall i :: 0 <= i < a ==> IsJsWhitespace(s[i]))
      && (forall i :: b <= i < |s| ==> IsJsWhitespace(s[i]))
  {
    var a := LeadingSpace(s);
    var t := s[a..];
    var b := TrailingSpaceStart(t);
    assert Trim(s) == s[a..a + b];
    if b == 0 {
      LeadingThenRestSpace(s, a);
    } else {
      assert Trim(s)[0] == t[0];
      assert Trim(s)[b - 1] == t[b - 1];
    }
    forall i | a + b <= i < |s| ensures IsJsWhitespace(s[i]) {
      assert s[i] == t[i - a];
    }
  }

  // ---------------------------------------------------------------------------------
  // The ban and warn tally

  /** The number of history items of one type. */
  function Count(history: seq<ActionType>, kind: ActionType): (n: nat)
    ensures n <= |history|
  {
    if history == [] then 0
    else Count(history[..|history| - 1], kind) + (if history[|history| - 1] == kind then 1 else 0)
  }

  /** The loop over the history that increments `actionCount[log.type]`. */
  method TallyActions(history: seq<ActionType>) returns (bans: nat, warns: nat)
    ensures bans == Count(history, Ban) && warns == Count(history, Warn)
  {
    bans, warns := 0, 0;
    var i := 0;
    while i < |history|
      invariant 0 <= i <= |history|
      invariant bans == Count(history[..i], Ban) && warns == Count(history[..i], Warn)
    {
      assert history[..i + 1][..i] == history[..i];
      if history[i] == Ban {
        bans := bans + 1;
      } else {
        warns := warns + 1;
      }
      i := i + 1;
    }
    assert history[..|history|] == history;
  }

  /** The tally of a type is the number of times it occurs in the history. */
  lemma {:induction false} CountIsMultiplicity(history: seq<ActionType>, kind: ActionType)
    ensures Count(history, kind) == multiset(history)[kind]
  {
    if history != [] {
      var init := history[..|history| - 1];
      CountIsMultiplicity(init, kind);
      assert history == init + [history[|history| - 1]];
    }
  }

  /** Every history item is counted once: the two tallies add up to the history's length. */
  lemma {:induction false} CountsCoverHistory(history: seq<ActionType>)
    ensures Count(history, Ban) + Count(history, Warn) == |history|
  {
    if history != [] {
      CountsCoverHistory(history[..|history| - 1]);
    }
  }

  // ---------------------------------------------------------------------------------
  // The Log line

  /** `1 ban` for exactly one, `N bans` for any other count, zero included. */
  function CountText(n: nat, noun: string): (r: string)
  {
    if n == 1 then "1 " + noun else NatToString(n) + " " + noun + "s"
  }

  /** The singular form is used exactly for a count of one, and a count is printed in
      decimal before the noun. */
  lemma CountTextForms(n: nat, noun: string)
    ensures CountText(n, noun) == "1 " + noun <==> n == 1
    ensures StartsWith(CountText(n, noun), NatToString(n) + " " + noun)
  {
    var r := CountText(n, noun);
    if n == 1 {
      assert NatToString(1) == "1";
      assert r[..|NatToString(n) + " " + noun|] == r;
    } else {
      assert |r| == |NatToString(n)| + 2 + |noun|;
      assert r[..|NatToString(n) + " " + noun|] == NatToString(n) + " " + noun;
    }
  }

  lemma CountTextHasNoComma(n: nat, noun: string)
    requires ',' !in noun
    ensures ',' !in CountText(n, noun)
  {
    var d := NatToString(n);
    assert forall i :: 0 <= i < |d| ==> d[i] != ',';
    assert ',' !in d;
  }

  /** Two counts print alike only when they are equal. */
  lemma CountTextInjective(m: nat, n: nat, noun: string)
    requires CountText(m, noun) == CountText(n, noun)
    ensures m == n
  {
    CountTextForms(m, noun);
    CountTextForms(n, noun);
    if m != 1 && n != 1 {
      var a, b := NatToString(m), NatToString(n);
      assert |a| == |b|;
      assert a == CountText(m, noun)[..|a|];
      assert b == CountText(n, noun)[..|b|];
      NatToStringInjective(m, n);
    }
  }

  /** `${banText}, ${warnText}`. */
  function LogText(bans: nat, warns: nat): string
  {
    CountText(bans, "ban") + ", " + CountText(warns, "warn")
  }

  /** Two ways of writing a string as a comma-free head and a rest that starts with a
      comma split it at the same place. */
  lemma CommaFreeHeadsAgree(a1: string, r1: string, a2: string, r2: string)
    requires ',' !in a1 && ',' !in a2
    requires |r1| > 0 && r1[0] == ',' && |r2| > 0 && r2[0] == ','
    requires a1 + r1 == a2 + r2
    ensures a1 == a2
  {
    var s := a1 + r1;
    assert s[|a1|] == ',' && s[|a2|] == ',';
    assert a1 == s[..|a1|];
    assert a2 == s[..|a2|];
  }

  /** The Log line determines both tallies. */
  lemma LogTextInjective(bans1: nat, warns1: nat, bans2: nat, warns2: nat)
    requires LogText(bans1, warns1) == LogText(bans2, warns2)
    ensures bans1 == bans2 && warns1 == warns2
  {
    var a1, a2 := CountText(bans1, "ban"), CountText(bans2, "ban");
    var w1, w2 := CountText(warns1, "warn"), CountText(warns2, "warn");
    var s := LogText(bans1, warns1);
    CountTextHasNoComma(bans1, "ban");
    CountTextHasNoComma(bans2, "ban");
    assert s == a1 + (", " + w1) == a2 + (", " + w2);
    CommaFreeHeadsAgree(a1, ", " + w1, a2, ", " + w2);
    assert a1 == s[..|a1|] == a2;
    assert w1 == s[|a1| + 2..] == w2;
    CountTextInjective(bans1, bans2, "ban");
    CountTextInjective(warns1, warns2, "warn");
  }

  // ---------------------------------------------------------------------------------
  // The description

  /** One body entry as a description line: `**• label:** \`value\``. */
  function DescriptionLine(caption: string, value: string): string
  {
    "**• " + caption + ":** `" + value + "`"
  }

  /** The body's lines, one per entry, in insertion order. */
  function DescriptionLines(body: seq<(string, string)>): seq<string>
  {
    seq(|body|, i requires 0 <= i < |body| => DescriptionLine(body[i].0, body[i].1))
  }

  /** The body entries in insertion order, one line each, joined with newlines. */
  function Description(body: seq<(string, string)>): string
  {
    Join(DescriptionLines(body), "\n")
  }

  /** With newline-free labels and values, the description splits back into one line per
      body entry, in order. */
  lemma DescriptionSplitsIntoLines(body: seq<(string, string)>)
    requires |body| >= 1
    requires forall i :: 0 <= i < |body| ==> '\n' !in body[i].0 && '\n' !in body[i].1
    ensures Split(Description(body), '\n') == DescriptionLines(body)
  {
    var lines := DescriptionLines(body);
    forall i | 0 <= i < |lines| ensures '\n' !in lines[i] {
      assert lines[i] == "**• " + body[i].0 + ":** `" + body[i].1 + "`";
    }
    assert "\n" == ['\n'];
    SplitJoin(lines, '\n');
  }

  // ---------------------------------------------------------------------------------
  // One player's embed

  /** A missing or zero `tsWhitelisted` is falsy. */
  function WhitelistedText(db: DbData, env: Env): string
  {
    if db.tsWhitelisted.Some? && db.tsWhitelisted.value != 0 then env.localeDate(db.tsWhitelisted.value)
    else NotYet
  }

  /** The four entries every player embed lists. */
  function BasicBody(db: DbData, env: Env): seq<(string, string)>
  {
    [("Play time", env.humanizer(db.playTime * 60 * 1000)),
     ("Join date", env.localeDate(db.tsJoined)),
     ("Last connection", env.localeDate(db.tsLastConnection)),
     ("Whitelisted", WhitelistedText(db, env))]
  }

  function NotesText(db: DbData): string
  {
    if db.notes.Some? then db.notes.value else NothingHere
  }

  function IdsText(db: DbData): string
  {
    if |db.ids| > 0 then Join(db.ids, "\n") else NothingHere
  }

  function AdminFields(db: DbData): seq<EmbedField>
  {
    [EmbedField("• Notes:", "```" + NotesText(db) + "```"),
     EmbedField("• Identifiers:", "```" + IdsText(db) + "```")]
  }

  /** The embed of one player with database data; the Log entry and the admin fields
      only on an admin query. */
  function PlayerEmbed(player: Player, db: DbData, includeAdmin: bool, env: Env): Embed
  {
    if includeAdmin then
      var log := LogText(Count(player.history, Ban), Count(player.history, Warn));
      Embed(player.displayName, Description(BasicBody(db, env) + [("Log", log)]), Some(AdminFields(db)), EmbedColor)
    else
      Embed(player.displayName, Description(BasicBody(db, env)), None, EmbedColor)
  }

  /** The loop body for one player: the body record, the tally on an admin query, the Log
      entry added afterwards, then the embed. */
  method BuildPlayerEmbed(player: Player, db: DbData, includeAdmin: bool, env: Env) returns (e: Embed)
    ensures e == PlayerEmbed(player, db, includeAdmin, env)
  {
    var body := BasicBody(db, env);
    var fields: Option<seq<EmbedField>> := None;
    if includeAdmin {
      var bans, warns := TallyActions(player.history);
      body := body + [("Log", LogText(bans, warns))];
      fields := Some(AdminFields(db));
    }
    e := Embed(player.displayName, Description(body), fields, EmbedColor);
  }

  /** The entries of a player's description, in order. */
  function BodyOf(player: Player, db: DbData, includeAdmin: bool, env: Env): seq<(string, string)>
  {
    if includeAdmin then BasicBody(db, env) + [("Log", LogText(Count(player.history, Ban), Count(player.history, Warn)))]
    else BasicBody(db, env)
  }

  /** A player embed is titled with the display name and has the command's colour; the
      Notes and Identifiers fields are there exactly on an admin query, with the
      fallbacks for a missing note and an empty id list. */
  lemma PlayerEmbedFields(player: Player, db: DbData, includeAdmin: bool, env: Env)
    ensures var e := PlayerEmbed(player, db, includeAdmin, env);
      && e.title == player.displayName && e.color == EmbedColor
      && (e.fields.Some? <==> includeAdmin)
      && (includeAdmin ==> e.fields.value == [
            EmbedField("• Notes:", "```" + (if db.notes.Some? then db.notes.value else "nothing here") + "```"),
            EmbedField("• Identifiers:", "```" + (if |db.ids| > 0 then Join(db.ids, "\n") else "nothing here") + "```")])
  {
  }

  /** The identifiers field lists one id per line: it splits back into the ids when none
      holds a newline. */
  lemma IdsTextSplits(db: DbData)
    requires |db.ids| > 0 && forall i :: 0 <= i < |db.ids| ==> '\n' !in db.ids[i]
    ensures Split(IdsText(db), '\n') == db.ids
  {
    assert "\n" == ['\n'];
    SplitJoin(db.ids, '\n');
  }

  /** The labels of a player's description hold no newline. */
  lemma BodyLabelsNewlineFree(player: Player, db: DbData, includeAdmin: bool, env: Env)
    ensures forall i :: 0 <= i < |BodyOf(player, db, includeAdmin, env)| ==> '\n' !in BodyOf(player, db, includeAdmin, env)[i].0
  {
    var body := BodyOf(player, db, includeAdmin, env);
    forall i | 0 <= i < |body| ensures '\n' !in body[i].0 {
    }
  }

  /** The formatted lines of a player's description, with the tally read as multiplicities. */
  lemma BodyOfLines(player: Player, db: DbData, includeAdmin: bool, env: Env)
    ensures DescriptionLines(BodyOf(player, db, includeAdmin, env)) ==
      [DescriptionLine("Play time", env.humanizer(db.playTime * 60 * 1000)),
       DescriptionLine("Join date", env.localeDate(db.tsJoined)),
       DescriptionLine("Last connection", env.localeDate(db.tsLastConnection)),
       DescriptionLine("Whitelisted", WhitelistedText(db, env))]
      + (if includeAdmin then [DescriptionLine("Log", LogText(multiset(player.history)[Ban], multiset(player.history)[Warn]))] else [])
  {
    CountIsMultiplicity(player.history, Ban);
    CountIsMultiplicity(player.history, Warn);
  }

  /** When the formatted values hold no newline, a player's description splits into the
      Play time, Join date, Last connection and Whitelisted lines, in that order, then on
      an admin query a Log line with the number of bans and warns in the history. */
  lemma PlayerDescriptionLines(player: Player, db: DbData, includeAdmin: bool, env: Env)
    requires forall i :: 0 <= i < |BodyOf(player, db, includeAdmin, env)| ==> '\n' !in BodyOf(player, db, includeAdmin, env)[i].1
    ensures Split(PlayerEmbed(player, db, includeAdmin, env).description, '\n') ==
      [DescriptionLine("Play time", env.humanizer(db.playTime * 60 * 1000)),
       DescriptionLine("Join date", env.localeDate(db.tsJoined)),
       DescriptionLine("Last connection", env.localeDate(db.tsLastConnection)),
       DescriptionLine("Whitelisted",
         if db.tsWhitelisted.Some? && db.tsWhitelisted.value != 0 then env.localeDate(db.tsWhitelisted.value) else "not yet")]
      + (if includeAdmin then [DescriptionLine("Log", LogText(multiset(player.history)[Ban], multiset(player.history)[Warn]))] else [])
  {
    var body := BodyOf(player, db, includeAdmin, env);
    assert PlayerEmbed(player, db, includeAdmin, env).description == Description(body);
    BodyLabelsNewlineFree(player, db, includeAdmin, env);
    DescriptionSplitsIntoLines(body);
    BodyOfLines(player, db, includeAdmin, env);
  }

  // ---------------------------------------------------------------------------------
  // The per-player loop

  /** The players that have database data, in search order. */
  function WithData(players: seq<Player>): (r: seq<Player>)
    ensures |r| <= |players|
    ensures forall i :: 0 <= i < |r| ==> r[i].dbData.Some? && r[i] in players
  {
    if players == [] then []
    else
      var last := players[|players| - 1];
      WithData(players[..|players| - 1]) + (if last.dbData.Some? then [last] else [])
  }

  /** The embeds, one per player with database data, in search order. */
  function EmbedsOf(players: seq<Player>, includeAdmin: bool, env: Env): seq<Embed>
  {
    if players == [] then []
    else
      var last := players[|players| - 1];
      EmbedsOf(players[..|players| - 1], includeAdmin, env)
        + (if last.dbData.Some? then [PlayerEmbed(last, last.dbData.value, includeAdmin, env)] else [])
  }

  /** The loop that pushes one embed per player, skipping players without data. */
  method BuildEmbeds(players: seq<Player>, includeAdmin: bool, env: Env) returns (embeds: seq<Embed>)
    ensures embeds == EmbedsOf(players, includeAdmin, env)
  {
    embeds := [];
    var i := 0;
    while i < |players|
      invariant 0 <= i <= |players|
      invariant embeds == EmbedsOf(players[..i], includeAdmin, env)
    {
      assert players[..i + 1][..i] == players[..i];
      var player := players[i];
      var dbData := player.dbData;
      if dbData.Some? {
        var e := BuildPlayerEmbed(player, dbData.value, includeAdmin, env);
        embeds := embeds + [e];
      }
      i := i + 1;
    }
    assert players[..|players|] == players;
  }

  /** The embeds are those of the players with data, one each and in order; no player is
      skipped that has data. */
  lemma {:induction false} EmbedsOfCorrect(players: seq<Player>, includeAdmin: bool, env: Env)
    ensures var es, ps := EmbedsOf(players, includeAdmin, env), WithData(players);
      && |es| == |ps| <= |players|
      && forall i :: 0 <= i < |es| ==> es[i] == PlayerEmbed(ps[i], ps[i].dbData.value, includeAdmin, env)
    ensures forall p :: p in players && p.dbData.Some? ==> p in WithData(players)
  {
    if players != [] {
      var init := players[..|players| - 1];
      EmbedsOfCorrect(init, includeAdmin, env);
      forall p | p in players && p.dbData.Some? ensures p in WithData(players) {
        if p != players[|players| - 1] {
          var k :| 0 <= k < |players| && players[k] == p;
          assert init[k] == p;
        }
      }
    }
  }

  // ---------------------------------------------------------------------------------
  // The handler

  function InvalidIdMessage(input: string): string
  {
    "The provided identifier (`" + input + "`) does not seem to be valid."
  }

  function NoPlayerMessage(searchId: string): string
  {
    "Identifier (`" + searchId + "`) does not seem to be associated to any player in the txAdmin Database."
  }

  function TooManyPlayersMessage(searchId: string): string
  {
    "The identifier (`" + searchId + "`) is associated with more than 10 players, please use the txAdmin Web Panel to search for it."
  }

  /** The identifier to search for, or the reply that ends the command. An empty caller
      id or parsed id is falsy, as a missing one is. */
  function SearchId(req: Request, env: Env): (r: Result<string, Reply>)
    ensures r.Ok? ==> r.value != ""
    ensures r.Err? ==> !r.error.Embeds?
  {
    match req.subcommand
    case SelfCommand =>
      if req.callerId.None? || req.callerId.value == "" then Err(Danger(NoCallerIdMessage))
      else Ok("discord:" + req.callerId.value)
    case MemberCommand =>
      if req.memberId.None? then Err(Danger(NoMemberMessage))
      else Ok("discord:" + req.memberId.value)
    case IdCommand =>
      var input := Trim(req.idInput);
      if input == "" then Err(Danger(InvalidIdentifierMessage))
      else
        var parsed := env.parsePlayerId(input);
        if parsed.None? || parsed.value == "" then Err(Danger(InvalidIdMessage(input)))
        else Ok(parsed.value)
    case UnknownCommand(name) => Err(Thrown("Subcommand " + name + " not found."))
  }

  /** The handler's reply. */
  function InfoReply(req: Request, env: Env): Reply
  {
    if req.adminInfo && !env.callerIsAdmin then Danger(NotAdminMessage)
    else
      match SearchId(req, env)
      case Err(reply) => reply
      case Ok(searchId) => PlayersReply(searchId, env.findPlayers(searchId), req.adminInfo, env)
  }

  /** The reply once the search ran: a warning for no match or too many, else the embeds. */
  function PlayersReply(searchId: string, players: seq<Player>, includeAdmin: bool, env: Env): Reply
  {
    if |players| == 0 then Warning(NoPlayerMessage(searchId))
    else if |players| > MaxPlayers then Warning(TooManyPlayersMessage(searchId))
    else Embeds(EmbedsOf(players, includeAdmin, env))
  }

  /** The handler as the source runs it. */
  method HandleInfo(req: Request, env: Env) returns (reply: Reply)
    ensures reply == InfoReply(req, env)
  {
    var includeAdminInfo := false;
    if req.adminInfo {
      if !env.callerIsAdmin {
        return Danger(NotAdminMessage);
      }
      includeAdminInfo := true;
    }
    var searchId := SearchId(req, env);
    if searchId.Err? {
      return searchId.error;
    }
    var players := env.findPlayers(searchId.value);
    assert InfoReply(req, env) == PlayersReply(searchId.value, players, includeAdminInfo, env);
    if |players| == 0 {
      return Warning(NoPlayerMessage(searchId.value));
    } else if |players| > MaxPlayers {
      return Warning(TooManyPlayersMessage(searchId.value));
    }
    var embeds := BuildEmbeds(players, includeAdminInfo, env);
    reply := Embeds(embeds);
  }

  /** Embeds are sent only when the search matched between one and ten players, and then
      at most one per player; zero players and more than ten get their warnings. */
  lemma PlayerCountGuard(req: Request, env: Env)
    ensures var r := InfoReply(req, env);
      r.Embeds? ==>
        && SearchId(req, env).Ok?
        && 1 <= |env.findPlayers(SearchId(req, env).value)| <= MaxPlayers
        && |r.embeds| <= |env.findPlayers(SearchId(req, env).value)|
    ensures !(req.adminInfo && !env.callerIsAdmin) && SearchId(req, env).Ok? ==>
      var id := SearchId(req, env).value;
      && (|env.findPlayers(id)| == 0 ==> InfoReply(req, env) == Warning(NoPlayerMessage(id)))
      && (|env.findPlayers(id)| > MaxPlayers ==> InfoReply(req, env) == Warning(TooManyPlayersMessage(id)))
      && (1 <= |env.findPlayers(id)| <= MaxPlayers ==> InfoReply(req, env).Embeds?)
  {
    if !(req.adminInfo && !env.callerIsAdmin) && SearchId(req, env).Ok? {
      EmbedsOfCorrect(env.findPlayers(SearchId(req, env).value), req.adminInfo, env);
    }
  }

  /** Admin fields appear only for an admin who set the flag; a non-admin who set it is
      refused before anything else happens. */
  lemma AdminInfoOnlyForAdmins(req: Request, env: Env)
    ensures req.adminInfo && !env.callerIsAdmin ==> InfoReply(req, env) == Danger(NotAdminMessage)
    ensures InfoReply(req, env).Embeds? ==>
      forall i :: 0 <= i < |InfoReply(req, env).embeds| ==>
        (InfoReply(req, env).embeds[i].fields.Some? <==> req.adminInfo && env.callerIsAdmin)
  {
    var r := InfoReply(req, env);
    if r.Embeds? {
      var players := env.findPlayers(SearchId(req, env).value);
      EmbedsOfCorrect(players, req.adminInfo, env);
      var ps := WithData(players);
      forall i | 0 <= i < |r.embeds|
        ensures r.embeds[i].fields.Some? <==> req.adminInfo && env.callerIsAdmin
      {
        PlayerEmbedFields(ps[i], ps[i].dbData.value, req.adminInfo, env);
      }
    }
  }

  /** An `id` option that is empty once trimmed, all white space, is an invalid
      identifier. */
  lemma BlankIdentifierRefused(req: Request, env: Env)
    requires req.subcommand == IdCommand && !(req.adminInfo && !env.callerIsAdmin)
    ensures (forall i :: 0 <= i < |req.idInput| ==> IsJsWhitespace(req.idInput[i])) <==>
      InfoReply(req, env) == Danger(InvalidIdentifierMessage)
  {
    TrimCorrect(req.idInput);
    var input := Trim(req.idInput);
    if input != "" {
      var parsed := env.parsePlayerId(input);
      if parsed.None? || parsed.value == "" {
        assert |InvalidIdMessage(input)| > |InvalidIdentifierMessage|;
      }
    }
  }
}
