/** `DumpChat`, a local archive acting as a source or a sink
    (utils/telegram/targets.py, and the earlier copy in utils/telegram.py).
    Its store holds the table `messages`, one row per archived message in
    insertion order, and the table `meta`, whose `chat_id` entries say
    which chat the archive represents. */
module ArchiveTarget {
  import opened Common
  import opened PyStr
  import opened Files
  import opened Remote
  import opened Abstract
  import opened Messages
  import Base

  /** A row of `messages`: the archive's chat, the message, its text and
      the path of its media file. */
  datatype ArchiveRow = ArchiveRow(chatId: int, messageId: int, text: Option<string>, mediaPath: Option<FsPath>)

  /** A row of `meta`. */
  datatype MetaRow = MetaRow(name: string, value: int)

  const ChatIdKey: string := "chat_id"

  // ---------------------------------------------------------------------------
  // Which chat the archive represents

  /** `select value from meta where name = 'chat_id'` and `fetchone()`:
      the first such row in table order. */
  function StoredChatId(meta: seq<MetaRow>): Option<int>
  {
    if meta == [] then None
    else if meta[0].name == ChatIdKey then Some(meta[0].value)
    else StoredChatId(meta[1..])
  }

  /** The stored chat id is the value of the first `chat_id` row, and
      there is none exactly when no row is named `chat_id`. */
  lemma {:induction false} StoredChatIdIsFirst(meta: seq<MetaRow>)
    ensures StoredChatId(meta).None? <==> forall i | 0 <= i < |meta| :: meta[i].name != ChatIdKey
    ensures StoredChatId(meta).Some? ==>
              exists i | 0 <= i < |meta| :: meta[i].name == ChatIdKey && StoredChatId(meta).value == meta[i].value
                                           && forall j | 0 <= j < i :: meta[j].name != ChatIdKey
  {
    if meta != [] && meta[0].name != ChatIdKey {
      var rest := meta[1..];
      StoredChatIdIsFirst(rest);
      if StoredChatId(rest).Some? {
        var i :| 0 <= i < |rest| && rest[i].name == ChatIdKey && StoredChatId(rest).value == rest[i].value
                 && forall j | 0 <= j < i :: rest[j].name != ChatIdKey;
        assert meta[i + 1] == rest[i];
        forall j | 0 <= j < i + 1
          ensures meta[j].name != ChatIdKey
        {
          if j > 0 {
            assert meta[j] == rest[j - 1];
          }
        }
      } else {
        forall i | 0 <= i < |meta|
          ensures meta[i].name != ChatIdKey
        {
          if i > 0 {
            assert meta[i] == rest[i - 1];
          }
        }
      }
    }
  }

  /** `__get_chat_id`: a truthy explicit id wins, then the stored one, then 0. */
  function ResolveChatId(explicit: Option<int>, meta: seq<MetaRow>): int
  {
    if explicit.Some? && explicit.value != 0 then explicit.value
    else if StoredChatId(meta).Some? then StoredChatId(meta).value
    else 0
  }

  /** Writing the chat id back with `insert or replace` adds a row (the
      name is not unique), so the first stored value keeps winning. */
  lemma {:induction false} FirstMetaWins(meta: seq<MetaRow>, v: int)
    ensures StoredChatId(meta + [MetaRow(ChatIdKey, v)]) == if StoredChatId(meta).Some? then StoredChatId(meta) else Some(v)
  {
    if meta == [] {
      assert meta + [MetaRow(ChatIdKey, v)] == [MetaRow(ChatIdKey, v)];
    } else {
      assert (meta + [MetaRow(ChatIdKey, v)])[1..] == meta[1..] + [MetaRow(ChatIdKey, v)];
      FirstMetaWins(meta[1..], v);
    }
  }

  /** Reopening an archive without an explicit id gives the id it was
      first stored with, whatever explicit id a later opening used. */
  lemma ReopenGivesFirstStoredId(explicit: Option<int>, meta: seq<MetaRow>)
    ensures var written := meta + [MetaRow(ChatIdKey, ResolveChatId(explicit, meta))];
            ResolveChatId(None, written) == if StoredChatId(meta).Some? then StoredChatId(meta).value
                                            else ResolveChatId(explicit, meta)
  {
    FirstMetaWins(meta, ResolveChatId(explicit, meta));
  }

  /** Opening an archive without an explicit id resolves the same chat
      every time. */
  lemma ReopenIsStable(meta: seq<MetaRow>)
    ensures ResolveChatId(None, meta + [MetaRow(ChatIdKey, ResolveChatId(None, meta))]) == ResolveChatId(None, meta)
  {
    FirstMetaWins(meta, ResolveChatId(None, meta));
  }

  // ---------------------------------------------------------------------------
  // Where a message's media is archived

  /** The archive file of a message's media: `<target path>/<message id>/<name>`.
      The name is `get_filename` of `message.media`, the media-kind value,
      which has neither a `file_name` nor a `media_type`. */
  function ArchiveFile(targetPath: FsPath, messageId: int): FsPath
  {
    Child(Child(targetPath, IntToString(messageId)), Base.GetFilename(Base.MediaAttrs("", None)))
  }

  /** Every message's media is archived as `Unknown.jpg`, in a directory of its own. */
  lemma ArchiveFileName(targetPath: FsPath, messageId: int)
    ensures ArchiveFile(targetPath, messageId) == Child(Child(targetPath, IntToString(messageId)), "Unknown.jpg")
    ensures Parent(ArchiveFile(targetPath, messageId)) == Child(targetPath, IntToString(messageId))
  {
    Base.BareMediaFilename();
    ParentOfChild(Child(targetPath, IntToString(messageId)), "Unknown.jpg");
  }

  /** What `__download_media` returns as written: None without media, the
      path when the file is already there; after a download it lists the
      downloaded file as if it were a directory, which raises. */
  function DownloadOutcomeAsWritten(hasMedia: bool, alreadyThere: bool, file: FsPath): (r: Result<Option<FsPath>>)
    ensures r.Err? <==> hasMedia && !alreadyThere
    ensures r.Err? ==> r.error == NotADirectory
    ensures r.Ok? ==> r == DownloadOutcome(hasMedia, alreadyThere, file)
  {
    if !hasMedia then Ok(None)
    else if alreadyThere then Ok(Some(file))
    else Err(NotADirectory)
  }

  /** What `__download_media` evidently means to return: None without
      media, otherwise the path of the archive file, downloaded or not. */
  function DownloadOutcome(hasMedia: bool, alreadyThere: bool, file: FsPath): Result<Option<FsPath>>
  {
    if !hasMedia then Ok(None) else Ok(Some(file))
  }

  /** As written, the first archive of a message with media raises, so no
      row is written for it; only a second archive, which finds the file
      the first one downloaded, succeeds. The intended version succeeds
      both times with the same path. */
  lemma FirstArchiveOfMediaFails(file: FsPath)
    ensures DownloadOutcomeAsWritten(true, false, file) == Err(NotADirectory)
    ensures DownloadOutcomeAsWritten(true, true, file) == Ok(Some(file))
    ensures DownloadOutcome(true, false, file) == DownloadOutcome(true, true, file) == Ok(Some(file))
  {
  }

  // ---------------------------------------------------------------------------
  // Replaying the archive

  /** The calls `retrieve_message` makes for one row. */
  function RetrieveCalls(chatId: int, messageId: int, lookup: ChatLookup): seq<Call>
  {
    [GetChat(chatId)] + if lookup.Member? then [GetMessages(lookup.chat.id, messageId)] else []
  }

  /** What `retrieve_message` raises for one row's answers, if anything. */
  function RetrieveError(lookup: ChatLookup, fetched: Fetched): Option<Error>
  {
    if lookup.Preview? then Some(NotAMember)
    else if FirstFetched(fetched).None? then Some(IndexOutOfRange)
    else None
  }

  /** The calls of replaying the first `n` rows with the client's
      `answers`, one per row. */
  function ReplayCalls(chatId: int, rows: seq<ArchiveRow>, answers: seq<(ChatLookup, Fetched)>, n: nat): seq<Call>
    requires n <= |rows| && n <= |answers|
  {
    if n == 0 then []
    else ReplayCalls(chatId, rows, answers, n - 1) + RetrieveCalls(chatId, rows[n - 1].messageId, answers[n - 1].0)
  }

  class DumpChat {
    const variant: Variant
    const client: Client
    const fs: FileSystem
    const path: FsPath
    const settings: Settings
    var chatId: int
    var friendlyName: Option<string>
    var rows: seq<ArchiveRow>
    var meta: seq<MetaRow>

    /** `DumpChat.__init__`: the common settings, the store opened (its
        tables created when missing), the chat id resolved; the current
        code then names the archive, by the chat the client reports
        (`nameAnswer`) or, without a client, by its path. */
    constructor (variant: Variant, client: Client, fs: FileSystem, path: FsPath, representsChatId: Option<int>,
                 extra: ExtraConfigs, storedRows: seq<ArchiveRow>, storedMeta: seq<MetaRow>,
                 nameAnswer: Option<Base.NameFields>)
      modifies fs, client
      ensures this.variant == variant && this.client == client && this.fs == fs && this.path == path
      ensures settings == InitSettings(variant, PathRef(path), extra)
      ensures chatId == ResolveChatId(representsChatId, storedMeta)
      ensures meta == storedMeta + [MetaRow(ChatIdKey, chatId)]
      ensures rows == storedRows
      ensures fs.dirs == old(fs.dirs) + Ancestors(Parent(settings.dbPath))
      ensures fs.files == old(fs.files) + {settings.dbPath}
      ensures variant == Earlier ==> friendlyName == None
      ensures variant == Current && nameAnswer.None? ==> friendlyName == Some("Chat " + PathString(path))
      ensures variant == Current && nameAnswer.Some? ==>
                friendlyName == Some(Base.FriendlyName(Base.ArchiveWithClient(nameAnswer.value)))
      ensures client.calls == old(client.calls) + if variant == Current && nameAnswer.Some? then [GetChat(chatId)] else []
    {
      var s := InitSettings(variant, PathRef(path), extra);
      var connected := InitDb(fs, s.dbPath);
      this.variant := variant;
      this.client := client;
      this.fs := fs;
      this.path := path;
      this.settings := s;
      this.chatId := 0;
      this.friendlyName := None;
      this.rows := storedRows;
      this.meta := storedMeta;
      new;
      GetChatId(representsChatId);
      if variant == Current {
        NameArchive(nameAnswer);
      }
    }

    /** The current code's `get_friendly_chat_name(self, client)` for an
        archive: with a client, the name of the chat it reports for the
        archive's chat id; without one, `Chat <path>`. */
    method NameArchive(nameAnswer: Option<Base.NameFields>)
      modifies this`friendlyName, client
      ensures nameAnswer.None? ==> friendlyName == Some("Chat " + PathString(path)) && client.calls == old(client.calls)
      ensures nameAnswer.Some? ==>
                friendlyName == Some(Base.FriendlyName(Base.ArchiveWithClient(nameAnswer.value)))
                && client.calls == old(client.calls) + [GetChat(chatId)]
    {
      var name;
      if nameAnswer.Some? {
        client.Record(GetChat(chatId));
        name := Base.GetFriendlyChatName(Base.ArchiveWithClient(nameAnswer.value));
      } else {
        name := Base.GetFriendlyChatName(Base.ArchiveWithoutClient(PathString(path)));
      }
      friendlyName := Some(name);
    }

    /** `__get_chat_id`: resolve the chat id and write it back. */
    method GetChatId(representsChatId: Option<int>)
      modifies this`chatId, this`meta
      ensures chatId == ResolveChatId(representsChatId, old(meta))
      ensures meta == old(meta) + [MetaRow(ChatIdKey, chatId)]
    {
      var stored := StoredChatId(meta);
      if representsChatId.Some? && representsChatId.value != 0 {
        chatId := representsChatId.value;
      } else if stored.Some? {
        chatId := stored.value;
      } else {
        chatId := 0;
      }
      meta := meta + [MetaRow(ChatIdKey, chatId)];
    }

    /** `__download_media`, with the path of the downloaded file returned:
        nothing without media; otherwise make the message's directory and
        download into the archive file unless it is already there. */
    method DownloadMedia(msg: TgMessage) returns (r: Result<Option<FsPath>>)
      modifies client, fs
      ensures r == DownloadOutcome(msg.media.Some?, old(fs.Exists(ArchiveFile(settings.targetPath, msg.id))),
                                   ArchiveFile(settings.targetPath, msg.id))
      ensures r.Ok? && r.value.Some? ==> fs.Exists(r.value.value)
      ensures msg.media.None? ==>
                fs.dirs == old(fs.dirs) && fs.files == old(fs.files) && client.calls == old(client.calls)
      ensures msg.media.Some? ==>
                fs.dirs == old(fs.dirs) + Ancestors(Parent(ArchiveFile(settings.targetPath, msg.id)))
      ensures msg.media.Some? && old(fs.Exists(ArchiveFile(settings.targetPath, msg.id))) ==>
                fs.files == old(fs.files) && client.calls == old(client.calls)
      ensures msg.media.Some? && !old(fs.Exists(ArchiveFile(settings.targetPath, msg.id))) ==>
                fs.files == old(fs.files) + {ArchiveFile(settings.targetPath, msg.id)}
                && client.calls == old(client.calls) + [Call.DownloadMedia(msg.id, ArchiveFile(settings.targetPath, msg.id))]
    {
      if msg.media.None? {
        return Ok(None);
      }
      var file := ArchiveFile(settings.targetPath, msg.id);
      ghost var existed := fs.Exists(file);
      assert file !in Ancestors(Parent(file)) by {
        ParentOfChild(Child(settings.targetPath, IntToString(msg.id)), Base.GetFilename(Base.MediaAttrs("", None)));
        if file in Ancestors(Parent(file)) {
          AncestorsAreShorter(Parent(file), file);
        }
      }
      fs.MakeDirs(Parent(file));
      assert fs.Exists(file) == existed;
      if fs.Exists(file) {
        return Ok(Some(file));
      }
      client.Record(Call.DownloadMedia(msg.id, file));
      fs.WriteFile(file);
      return Ok(Some(file));
    }

    /** `send_message`: archive the message, with the path of its media,
        as one new row. The media is archived by the corrected
        `DownloadMedia`; as written, `DownloadOutcomeAsWritten` raises
        before the row is written whenever a download happens. */
    method SendMessage(m: UniversalMessage)
      modifies this`rows, client, fs
      ensures m.message.None? ==>
                rows == old(rows) && fs.dirs == old(fs.dirs) && fs.files == old(fs.files) && client.calls == old(client.calls)
      ensures m.message.Some? ==>
                rows == old(rows) + [ArchiveRow(chatId, m.message.value.id, m.message.value.text,
                                                if m.message.value.media.Some? then Some(ArchiveFile(settings.targetPath, m.message.value.id)) else None)]
      ensures m.message.Some? && m.message.value.media.None? ==>
                fs.dirs == old(fs.dirs) && fs.files == old(fs.files) && client.calls == old(client.calls)
      ensures m.message.Some? && m.message.value.media.Some? ==>
                var file := ArchiveFile(settings.targetPath, m.message.value.id);
                fs.Exists(file) && fs.dirs == old(fs.dirs) + Ancestors(Parent(file))
      ensures m.message.Some? && m.message.value.media.Some? && old(fs.Exists(ArchiveFile(settings.targetPath, m.message.value.id))) ==>
                fs.files == old(fs.files) && client.calls == old(client.calls)
      ensures m.message.Some? && m.message.value.media.Some? && !old(fs.Exists(ArchiveFile(settings.targetPath, m.message.value.id))) ==>
                var file := ArchiveFile(settings.targetPath, m.message.value.id);
                fs.files == old(fs.files) + {file}
                && client.calls == old(client.calls) + [Call.DownloadMedia(m.message.value.id, file)]
    {
      if m.message.None? {
        return;
      }
      var msg := m.message.value;
      var path := DownloadMedia(msg);
      rows := rows + [ArchiveRow(chatId, msg.id, msg.text, path.value)];
    }

    /** `iter_messages` as written: the rows come back as `sqlite3.Row`
        objects, which are not dicts, so the first row takes the
        pyrogram-message branch and its `.id` raises AttributeError. The
        fetch is taken to run on the connection's own thread. */
    method IterMessagesAsWritten() returns (yielded: seq<UniversalMessage>, err: Option<Error>)
      ensures yielded == []
      ensures err.None? <==> rows == []
      ensures err.Some? ==> err.value == AttributeMissing
    {
      yielded := [];
      if rows == [] {
        return yielded, None;
      }
      return yielded, Some(AttributeMissing);
    }

    /** `u` is the message retrieved for `row` of this archive from the
        client's `answer`. */
    predicate Replayed(u: UniversalMessage, row: ArchiveRow, answer: (ChatLookup, Fetched))
      reads this, u
    {
      RetrieveError(answer.0, answer.1).None?
      && u.client == client && u.chatId == chatId && u.messageId == row.messageId
      && u.canForward == !answer.0.chat.hasProtectedContent
      && u.message == FirstFetched(answer.1)
    }

    /** The message of one archive row, retrieved from the client. */
    method ReplayRow(row: ArchiveRow, answer: (ChatLookup, Fetched)) returns (r: Result<UniversalMessage>)
      modifies client
      ensures r.Ok? <==> RetrieveError(answer.0, answer.1).None?
      ensures r.Ok? ==> fresh(r.value) && Replayed(r.value, row, answer)
      ensures r.Err? ==> Some(r.error) == RetrieveError(answer.0, answer.1)
      ensures client.calls == old(client.calls) + RetrieveCalls(chatId, row.messageId, answer.0)
    {
      r := NewUniversalMessage(client, chatId, row.messageId, true, true, [], answer.0, answer.1);
    }

    /** `iter_messages` taking the dict branch meant for archive rows: one
        retrieved message per row, in table order, until the end of the
        table or the first exception. `answers[i]` is what the client
        answers for row `i`. */
    method IterMessages(answers: seq<(ChatLookup, Fetched)>) returns (yielded: seq<UniversalMessage>, err: Option<Error>)
      modifies client
      ensures |yielded| <= |rows| && |yielded| <= |answers|
      ensures err.None? <==> |yielded| == |rows|
      ensures forall i | 0 <= i < |yielded| :: fresh(yielded[i]) && Replayed(yielded[i], rows[i], answers[i])
      ensures err.Some? && err != Some(OutOfFuel) ==> |yielded| < |answers|
      ensures err.Some? && |yielded| >= |answers| ==> err == Some(OutOfFuel)
      ensures err.Some? && |yielded| < |answers| ==> err == RetrieveError(answers[|yielded|].0, answers[|yielded|].1)
      ensures err.None? || err == Some(OutOfFuel) ==>
                client.calls == old(client.calls) + ReplayCalls(chatId, rows, answers, |yielded|)
      ensures err.Some? && err != Some(OutOfFuel) ==>
                client.calls == old(client.calls) + ReplayCalls(chatId, rows, answers, |yielded| + 1)
    {
      yielded := [];
      var i := 0;
      while i < |rows|
        invariant 0 <= i <= |rows| && i <= |answers| && |yielded| == i
        invariant forall j | 0 <= j < i :: fresh(yielded[j]) && Replayed(yielded[j], rows[j], answers[j])
        invariant client.calls == old(client.calls) + ReplayCalls(chatId, rows, answers, i)
      {
        if i == |answers| {
          return yielded, Some(OutOfFuel);
        }
        var r := ReplayRow(rows[i], answers[i]);
        if r.Err? {
          return yielded, Some(r.error);
        }
        yielded := yielded + [r.value];
        i := i + 1;
      }
      return yielded, None;
    }
  }
}
