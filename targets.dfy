/** `get_target` (utils/telegram/targets.py, and the same function in
    utils/telegram.py): a path names a local archive, anything else a live
    chat. */
module Targets {
  import opened Common
  import opened Files
  import opened Remote
  import opened Abstract
  import opened LiveTarget
  import opened ArchiveTarget
  import Base

  /** The target object `get_target` hands back. */
  datatype AnyTarget = Live(chat: TgChat) | Archive(dump: DumpChat)

  /** `get_target`: build a `DumpChat` for a path, otherwise `TgChat.create`
      for the chat id. The remaining parameters are what the client and the
      stores answer: `lookup` for the chat, the stored rows of either kind
      of store, and `nameAnswer` for the archive's name. */
  method GetTarget(variant: Variant, client: Client, fs: FileSystem, target: TargetRef, extra: ExtraConfigs,
                   representsChatId: Option<int>, lookup: ChatLookup, storedCorrelation: seq<CorrelationRow>,
                   storedArchive: seq<ArchiveRow>, storedMeta: seq<MetaRow>, nameAnswer: Option<Base.NameFields>)
    returns (r: Result<AnyTarget>)
    modifies client, fs
    ensures target.PathRef? ==> r.Ok? && r.value.Archive? && fresh(r.value.dump)
    ensures target.PathRef? ==>
              r.value.dump.path == target.path && r.value.dump.client == client && r.value.dump.fs == fs
              && r.value.dump.settings == InitSettings(variant, target, extra)
              && r.value.dump.chatId == ResolveChatId(representsChatId, storedMeta)
              && r.value.dump.rows == storedArchive
              && r.value.dump.variant == variant
              && r.value.dump.meta == storedMeta + [MetaRow(ChatIdKey, r.value.dump.chatId)]
    ensures target.PathRef? ==>
              fs.dirs == old(fs.dirs) + Ancestors(Parent(r.value.dump.settings.dbPath))
              && fs.files == old(fs.files) + {r.value.dump.settings.dbPath}
    ensures target.PathRef? && variant == Earlier ==>
              r.value.dump.friendlyName == None && client.calls == old(client.calls)
    ensures target.PathRef? && variant == Current && nameAnswer.None? ==>
              r.value.dump.friendlyName == Some("Chat " + PathString(target.path)) && client.calls == old(client.calls)
    ensures target.PathRef? && variant == Current && nameAnswer.Some? ==>
              r.value.dump.friendlyName == Some(Base.FriendlyName(Base.ArchiveWithClient(nameAnswer.value)))
              && client.calls == old(client.calls) + [GetChat(r.value.dump.chatId)]
    ensures target.ChatRef? ==> client.calls == old(client.calls) + [GetChat(target.id)]
    ensures target.ChatRef? && lookup.Preview? ==> r == Err(NotAMember)
    ensures target.ChatRef? && lookup.Preview? ==> fs.dirs == old(fs.dirs) && fs.files == old(fs.files)
    ensures target.ChatRef? && lookup.Member? ==> r.Ok? && r.value.Live? && fresh(r.value.chat)
    ensures target.ChatRef? && lookup.Member? ==>
              r.value.chat.targetId == target.id && r.value.chat.target == lookup.chat
              && r.value.chat.client == client && r.value.chat.fs == fs
              && r.value.chat.rows == storedCorrelation
              && (r.value.chat.forwardMessages <==> extra.forwardMessages == Some(true) && !lookup.chat.hasProtectedContent)
              && r.value.chat.variant == variant
              && r.value.chat.settings == InitSettings(variant, target, extra)
    ensures target.ChatRef? && lookup.Member? ==>
              fs.dirs == old(fs.dirs) + Ancestors(Parent(r.value.chat.settings.dbPath)) + Ancestors(r.value.chat.settings.targetPath)
              && fs.files == old(fs.files) + {r.value.chat.settings.dbPath}
    ensures target.ChatRef? && lookup.Member? && variant == Current ==>
              r.value.chat.friendlyName == Some(Base.FriendlyName(Base.LiveChat(NameFieldsOf(lookup.chat))))
    ensures target.ChatRef? && lookup.Member? && variant == Earlier ==> r.value.chat.friendlyName == None
  {
    if target.PathRef? {
      var d := new DumpChat(variant, client, fs, target.path, representsChatId, extra, storedArchive, storedMeta, nameAnswer);
      return Ok(Archive(d));
    }
    var c := TgChat.Create(variant, client, fs, target.id, lookup, extra, storedCorrelation);
    if c.Err? {
      return Err(c.error);
    }
    return Ok(Live(c.value));
  }
}
