/** The `/status add` and `/status remove` command: the persistent record of the last
    status message, removing it, and posting a new one
    (core/components/DiscordBot/commands/status.ts:228-305). */
module Lifecycle {
  import opened Wrappers
  import opened Json
  import opened Placeholders
  import opened StatusMessage

  const ChannelIdKey := "discord:status:channelId"
  const MessageIdKey := "discord:status:messageId"

  const NoRecordMessage := "no old message id saved, maybe was never sent, maybe it was removed"
  const NotTextChannelMessage := "oldChannel is not a guild text or announcement channel"
  const RemovedMessage := "Old status embed removed."
  const SavedMessage := "Status embed saved."
  const RemoveFailedPrefix := "**Failed to remove old status embed:**\n"
  const GenerateFailedPrefix := "**Failed to generate new embed:**\n"
  const SendFailedPrefix := "**Failed to send new embed:**\n"
  const UnsupportedChannelMessage := "channel type not supported"
  const MissingPermissionCode := 50013
  const MissingPermissionMessage :=
    "This bot does not have permission to send messages in this channel.\n"
    + "            Please edit the channel and give this bot the \"Send Messages\" permission."

  /** The key-value store that survives restarts; `Delete` and `Set` change it in place. */
  class PersistentCache {
    var entries: map<string, Json>

    constructor (initial: map<string, Json>)
      ensures entries == initial
    {
      entries := initial;
    }

    method Set(key: string, value: Json)
      modifies this
      ensures entries == old(entries)[key := value]
    {
      entries := entries[key := value];
    }

    method Delete(key: string)
      modifies this
      ensures entries == old(entries) - {key}
    {
      entries := entries - {key};
    }
  }

  /** The kinds of channel the command tells apart. */
  datatype ChannelKind = GuildText | GuildAnnouncement | OtherChannel

  predicate IsMessageChannel(kind: Option<ChannelKind>)
  {
    kind == Some(GuildText) || kind == Some(GuildAnnouncement)
  }

  /** A rejected platform call: the API error code, when there is one, and the message. */
  datatype PlatformError = PlatformError(code: Option<int>, message: string)

  /** What the chat platform answers to each call the command makes, fixed in advance:
      fetching a channel (`None` for no channel), deleting a message, the invoking channel,
      posting the placeholder (the new message id) and editing it into the status message. */
  datatype Platform = Platform(
    fetchChannel: string -> Result<Option<ChannelKind>, PlatformError>,
    deleteMessage: (string, string) -> Result<(), PlatformError>,
    channel: Option<ChannelKind>,
    channelId: string,
    sendPlaceholder: Result<string, PlatformError>,
    editMessage: (string, StatusMessage) -> Result<(), PlatformError>)

  /** The platform calls in the order they were made. */
  datatype Call =
    | FetchChannel(channelId: string)
    | DeleteMessage(channelId: string, messageId: string)
    | SendPlaceholder
    | EditMessage(messageId: string, content: StatusMessage)

  /** The ephemeral reply: `embedder.success` or `embedder.warning`. */
  datatype Reply = Success(text: string) | Warning(text: string)

  /** The inputs of `generateStatusMessage` other than the cache. */
  datatype GeneratorInput = GeneratorInput(
    live: LiveState,
    rawEmbed: Result<Json, string>,
    rawConfig: Result<Json, string>,
    validEmoji: string -> bool)

  /** Everything one run of the command leaves behind. `reply` is `None` when the
      permission check turned the caller away (it answers on its own). */
  datatype Outcome = Outcome(reply: Option<Reply>, logged: Option<string>, calls: seq<Call>, entries: map<string, Json>)

  // ---------------------------------------------------------------------------------
  // removeOldEmbed

  /** `removeOldEmbed` as a specification function: the error message, if any, and the
      calls made. */
  function RemoveOld(entries: map<string, Json>, platform: Platform): (Result<(), string>, seq<Call>)
  {
    if ChannelIdKey in entries && entries[ChannelIdKey].JStr?
       && MessageIdKey in entries && entries[MessageIdKey].JStr?
    then
      var channelId := entries[ChannelIdKey].s;
      var messageId := entries[MessageIdKey].s;
      match platform.fetchChannel(channelId)
      case Err(e) => (Err(e.message), [FetchChannel(channelId)])
      case Ok(kind) =>
        if IsMessageChannel(kind) then
          var calls := [FetchChannel(channelId), DeleteMessage(channelId, messageId)];
          match platform.deleteMessage(channelId, messageId)
          case Err(e) => (Err(e.message), calls)
          case Ok(_) => (Ok(()), calls)
        else (Err(NotTextChannelMessage), [FetchChannel(channelId)])
    else (Err(NoRecordMessage), [])
  }

  method RemoveOldEmbed(cache: PersistentCache, platform: Platform) returns (r: Result<(), string>, calls: seq<Call>)
    ensures (r, calls) == RemoveOld(cache.entries, platform)
  {
    var oldChannelId := if ChannelIdKey in cache.entries then Some(cache.entries[ChannelIdKey]) else None;
    var oldMessageId := if MessageIdKey in cache.entries then Some(cache.entries[MessageIdKey]) else None;
    if !(oldChannelId.Some? && oldChannelId.value.JStr? && oldMessageId.Some? && oldMessageId.value.JStr?) {
      return Err(NoRecordMessage), [];
    }
    var channelId := oldChannelId.value.s;
    var messageId := oldMessageId.value.s;
    calls := [FetchChannel(channelId)];
    var oldChannel := platform.fetchChannel(channelId);
    if oldChannel.Err? {
      return Err(oldChannel.error.message), calls;
    }
    if !IsMessageChannel(oldChannel.value) {
      return Err(NotTextChannelMessage), calls;
    }
    calls := calls + [DeleteMessage(channelId, messageId)];
    assert calls == [FetchChannel(channelId), DeleteMessage(channelId, messageId)];
    var deleted := platform.deleteMessage(channelId, messageId);
    if deleted.Err? {
      return Err(deleted.error.message), calls;
    }
    r := Ok(());
  }

  /** Both record entries are stored as strings. */
  predicate HasRecord(entries: map<string, Json>)
  {
    ChannelIdKey in entries && entries[ChannelIdKey].JStr? && MessageIdKey in entries && entries[MessageIdKey].JStr?
  }

  /** Removal makes no platform call when no record is stored; it deletes only the
      recorded message, and only after finding its channel to be a text or announcement
      channel; it succeeds exactly when that deletion does. */
  lemma RemoveOldCorrect(entries: map<string, Json>, platform: Platform)
    ensures var (r, calls) := RemoveOld(entries, platform);
      && (calls == [] <==> !HasRecord(entries))
      && (!HasRecord(entries) ==> r == Err(NoRecordMessage))
      && (r.Ok? <==>
            HasRecord(entries)
            && calls == [FetchChannel(entries[ChannelIdKey].s), DeleteMessage(entries[ChannelIdKey].s, entries[MessageIdKey].s)]
            && platform.deleteMessage(entries[ChannelIdKey].s, entries[MessageIdKey].s).Ok?)
      && (forall c :: c in calls && c.DeleteMessage? ==>
            && c == DeleteMessage(entries[ChannelIdKey].s, entries[MessageIdKey].s)
            && platform.fetchChannel(c.channelId).Ok?
            && IsMessageChannel(platform.fetchChannel(c.channelId).value))
  {
  }

  // ---------------------------------------------------------------------------------
  // The command handler

  /** The text after `**Failed to send new embed:**`: the permission explanation for a
      missing-permission error, otherwise the error's own message. */
  function SendErrorText(e: PlatformError): string
  {
    if e.code == Some(MissingPermissionCode) then MissingPermissionMessage else e.message
  }

  /** The cache after the removal step: the record is cleared only when the old message
      was deleted. */
  function Cleared(entries: map<string, Json>, platform: Platform): map<string, Json>
  {
    if RemoveOld(entries, platform).0.Ok? then entries - {ChannelIdKey, MessageIdKey} else entries
  }

  /** The posting step, after removal, for the generated message `generated`. */
  function Post(calls: seq<Call>, cleared: map<string, Json>, platform: Platform, generated: Result<StatusMessage, string>): Outcome
  {
    match generated
    case Err(e) => Outcome(Some(Warning(GenerateFailedPrefix + e)), None, calls, cleared)
    case Ok(message) =>
      if !IsMessageChannel(platform.channel) then
        Outcome(Some(Warning(SendFailedPrefix + UnsupportedChannelMessage)), None, calls, cleared)
      else
        match platform.sendPlaceholder
        case Err(e) => Outcome(Some(Warning(SendFailedPrefix + SendErrorText(e))), None, calls + [SendPlaceholder], cleared)
        case Ok(id) =>
          var sent := calls + [SendPlaceholder, EditMessage(id, message)];
          match platform.editMessage(id, message)
          case Err(e) => Outcome(Some(Warning(SendFailedPrefix + SendErrorText(e))), None, sent, cleared)
          case Ok(_) =>
            var saved := cleared[ChannelIdKey := JStr(platform.channelId)][MessageIdKey := JStr(id)];
            Outcome(Some(Success(SavedMessage)), Some(SavedMessage), sent, saved)
  }

  /** The message `add` generates, from the cache as the removal step left it. */
  function Generated(entries: map<string, Json>, platform: Platform, gen: GeneratorInput): Result<StatusMessage, string>
  {
    StatusMessageOf(gen.live, gen.rawEmbed, gen.rawConfig, Cleared(entries, platform), gen.validEmoji)
  }

  /** The handler as a specification function over the cache contents before the run. */
  function Handle(
    entries: map<string, Json>, platform: Platform, adminName: Option<string>,
    subcommand: string, gen: GeneratorInput): Outcome
  {
    if adminName.None? then Outcome(None, None, [], entries)
    else
      var (removed, calls) := RemoveOld(entries, platform);
      var cleared := Cleared(entries, platform);
      if subcommand == "remove" then
        if removed.Ok? then Outcome(Some(Success(RemovedMessage)), Some(RemovedMessage), calls, cleared)
        else Outcome(Some(Warning(RemoveFailedPrefix + removed.error)), None, calls, cleared)
      else Post(calls, cleared, platform, Generated(entries, platform, gen))
  }

  /** The handler as the source runs it, changing the cache in place. */
  method HandleStatusCommand(
    cache: PersistentCache, platform: Platform, adminName: Option<string>,
    subcommand: string, gen: GeneratorInput)
    returns (reply: Option<Reply>, logged: Option<string>, calls: seq<Call>)
    modifies cache
    ensures Outcome(reply, logged, calls, cache.entries)
         == Handle(old(cache.entries), platform, adminName, subcommand, gen)
  {
    if adminName.None? {
      return None, None, [];
    }
    var isRemoveOnly := subcommand == "remove";
    var removed;
    removed, calls := RemoveOldEmbed(cache, platform);
    if removed.Ok? {
      cache.Delete(ChannelIdKey);
      cache.Delete(MessageIdKey);
      assert cache.entries == old(cache.entries) - {ChannelIdKey, MessageIdKey};
      if isRemoveOnly {
        return Some(Success(RemovedMessage)), Some(RemovedMessage), calls;
      }
    } else if isRemoveOnly {
      return Some(Warning(RemoveFailedPrefix + removed.error)), None, calls;
    }
    assert cache.entries == Cleared(old(cache.entries), platform);

    var newStatusMessage := GenerateStatusMessage(gen.live, gen.rawEmbed, gen.rawConfig, cache.entries, gen.validEmoji);
    assert newStatusMessage == Generated(old(cache.entries), platform, gen);
    reply, logged, calls := PostStatusMessage(cache, platform, calls, newStatusMessage);
  }

  /** The posting step as the source runs it: the placeholder, the edit, then the record. */
  method PostStatusMessage(
    cache: PersistentCache, platform: Platform, callsSoFar: seq<Call>, newStatusMessage: Result<StatusMessage, string>)
    returns (reply: Option<Reply>, logged: Option<string>, calls: seq<Call>)
    modifies cache
    ensures Outcome(reply, logged, calls, cache.entries) == Post(callsSoFar, old(cache.entries), platform, newStatusMessage)
  {
    calls := callsSoFar;
    if newStatusMessage.Err? {
      return Some(Warning(GenerateFailedPrefix + newStatusMessage.error)), None, calls;
    }
    if !IsMessageChannel(platform.channel) {
      return Some(Warning(SendFailedPrefix + UnsupportedChannelMessage)), None, calls;
    }
    calls := calls + [SendPlaceholder];
    var newMessage := platform.sendPlaceholder;
    if newMessage.Err? {
      return Some(Warning(SendFailedPrefix + SendErrorText(newMessage.error))), None, calls;
    }
    var id := newMessage.value;
    calls := calls + [EditMessage(id, newStatusMessage.value)];
    assert calls == callsSoFar + [SendPlaceholder, EditMessage(id, newStatusMessage.value)];
    var edited := platform.editMessage(id, newStatusMessage.value);
    if edited.Err? {
      return Some(Warning(SendFailedPrefix + SendErrorText(edited.error))), None, calls;
    }
    cache.Set(ChannelIdKey, JStr(platform.channelId));
    cache.Set(MessageIdKey, JStr(id));
    reply, logged := Some(Success(SavedMessage)), Some(SavedMessage);
  }

  // ---------------------------------------------------------------------------------
  // What the handler guarantees

  /** Posting saves exactly when the message was generated, the channel takes messages,
      and the placeholder was posted and then edited; only then is the record written, and
      it names the invoking channel and the new message. Nothing is posted for a message
      that could not be generated, and a posted placeholder stays behind unsaved exactly
      when the edit failed. */
  lemma PostCorrect(calls: seq<Call>, cleared: map<string, Json>, platform: Platform, generated: Result<StatusMessage, string>)
    ensures var o := Post(calls, cleared, platform, generated);
      var saved := o.reply == Some(Success(SavedMessage));
      && (saved <==>
            generated.Ok? && IsMessageChannel(platform.channel) && platform.sendPlaceholder.Ok?
            && platform.editMessage(platform.sendPlaceholder.value, generated.value).Ok?)
      && (saved ==>
            && o.entries == cleared[ChannelIdKey := JStr(platform.channelId)][MessageIdKey := JStr(platform.sendPlaceholder.value)]
            && o.calls == calls + [SendPlaceholder, EditMessage(platform.sendPlaceholder.value, generated.value)]
            && o.logged == Some(SavedMessage))
      && (!saved ==> o.entries == cleared && o.logged == None)
      && (generated.Err? ==> o.calls == calls && o.reply == Some(Warning(GenerateFailedPrefix + generated.error)))
      && (SendPlaceholder in o.calls[|calls|..] <==>
            generated.Ok? && IsMessageChannel(platform.channel))
      && ((|o.calls| == |calls| + 2 && !saved) <==>
            generated.Ok? && IsMessageChannel(platform.channel) && platform.sendPlaceholder.Ok?
            && platform.editMessage(platform.sendPlaceholder.value, generated.value).Err?)
  {
  }

  /** What a run leaves in the record: written only by a saved `add`, cleared only by a
      successful removal, otherwise untouched. */
  lemma RecordLifecycle(
    entries: map<string, Json>, platform: Platform, adminName: Option<string>,
    subcommand: string, gen: GeneratorInput)
    ensures var o := Handle(entries, platform, adminName, subcommand, gen);
      var generated := Generated(entries, platform, gen);
      var saved := o.reply == Some(Success(SavedMessage));
      && (saved <==>
            adminName.Some? && subcommand != "remove" && generated.Ok?
            && IsMessageChannel(platform.channel) && platform.sendPlaceholder.Ok?
            && platform.editMessage(platform.sendPlaceholder.value, generated.value).Ok?)
      && (saved ==>
            o.entries == Cleared(entries, platform)[ChannelIdKey := JStr(platform.channelId)]
                           [MessageIdKey := JStr(platform.sendPlaceholder.value)])
      && (!saved ==> o.entries == if adminName.Some? then Cleared(entries, platform) else entries)
      && (o.entries != entries ==> adminName.Some? && (saved || RemoveOld(entries, platform).0.Ok?))
  {
    if adminName.Some? {
      PostCorrect(RemoveOld(entries, platform).1, Cleared(entries, platform), platform, Generated(entries, platform, gen));
    }
  }

  /** `remove` never posts: it only deletes the old message and clears the record, and it
      replies with success exactly when the deletion went through. */
  lemma RemoveOnlyNeverPosts(
    entries: map<string, Json>, platform: Platform, adminName: string, gen: GeneratorInput)
    ensures var o := Handle(entries, platform, Some(adminName), "remove", gen);
      var removed := RemoveOld(entries, platform).0;
      && SendPlaceholder !in o.calls
      && o.calls == RemoveOld(entries, platform).1
      && (o.reply == Some(Success(RemovedMessage)) <==> removed.Ok?)
      && (removed.Ok? ==> o.entries == entries - {ChannelIdKey, MessageIdKey} && o.logged == Some(RemovedMessage))
      && (removed.Err? ==> o.reply == Some(Warning(RemoveFailedPrefix + removed.error)) && o.entries == entries)
  {
    var (r, calls) := RemoveOld(entries, platform);
    assert SendPlaceholder !in calls;
  }

  /** For `add`, a failed removal does not stop the command; a message that cannot be
      generated stops it before anything is posted. */
  lemma GenerationFailurePostsNothing(
    entries: map<string, Json>, platform: Platform, adminName: string, subcommand: string, gen: GeneratorInput)
    requires subcommand != "remove"
    requires Generated(entries, platform, gen).Err?
    ensures var o := Handle(entries, platform, Some(adminName), subcommand, gen);
      && o.reply == Some(Warning(GenerateFailedPrefix + Generated(entries, platform, gen).error))
      && o.calls == RemoveOld(entries, platform).1
      && SendPlaceholder !in o.calls
  {
    var (r, calls) := RemoveOld(entries, platform);
    assert SendPlaceholder !in calls;
    PostCorrect(calls, Cleared(entries, platform), platform, Generated(entries, platform, gen));
  }

  /** A send or edit that fails is reported after `**Failed to send new embed:**`, with
      the missing-permission error (Discord code 50013) explained and any other error shown
      by its own message; the record stays as the removal step left it. */
  lemma MissingPermissionExplained(calls: seq<Call>, cleared: map<string, Json>, platform: Platform, generated: Result<StatusMessage, string>)
    ensures var o := Post(calls, cleared, platform, generated);
      generated.Ok? && IsMessageChannel(platform.channel) && platform.sendPlaceholder.Err? ==>
        var e := platform.sendPlaceholder.error;
        && o.entries == cleared && o.logged == None
        && (e.code == Some(50013) ==> o.reply == Some(Warning(SendFailedPrefix + MissingPermissionMessage)))
        && (e.code != Some(50013) ==> o.reply == Some(Warning(SendFailedPrefix + e.message)))
    ensures var o := Post(calls, cleared, platform, generated);
      generated.Ok? && IsMessageChannel(platform.channel) && platform.sendPlaceholder.Ok?
      && platform.editMessage(platform.sendPlaceholder.value, generated.value).Err? ==>
        var e := platform.editMessage(platform.sendPlaceholder.value, generated.value).error;
        && o.entries == cleared && o.logged == None
        && (e.code == Some(50013) ==> o.reply == Some(Warning(SendFailedPrefix + MissingPermissionMessage)))
        && (e.code != Some(50013) ==> o.reply == Some(Warning(SendFailedPrefix + e.message)))
  {
  }
}
