/** `TgChat`, a live Telegram chat acting as a source or a sink
    (utils/telegram/targets.py, and the earlier copy in utils/telegram.py).
    Its store is the correlation table `messages`, one row per message it
    received, in insertion order. */
module LiveTarget {
  import opened Common
  import opened PyStr
  import opened Files
  import opened Remote
  import opened Abstract
  import opened Messages
  import Base

  /** A row of the correlation table: which message of which chat became
      which message of the sink. `added_at` is the row's position. */
  datatype CorrelationRow = CorrelationRow(inputChatId: int, inputMessageId: int,
                                           outputChatId: int, outputMessageId: int)

  // ---------------------------------------------------------------------------
  // The resume point

  /** Row `i` is the most recently added row whose input chat is `chatId`. */
  ghost predicate IsLatestFor(rows: seq<CorrelationRow>, chatId: int, i: int)
  {
    0 <= i < |rows| && rows[i].inputChatId == chatId
    && forall j | i < j < |rows| :: rows[j].inputChatId != chatId
  }

  ghost predicate HasRowFor(rows: seq<CorrelationRow>, chatId: int)
  {
    exists i | 0 <= i < |rows| :: rows[i].inputChatId == chatId
  }

  /** The query `select input_message_id ... where input_chat_id = ? order by
      added_at desc limit 1`, or 0 when it finds nothing. */
  function ResumePoint(rows: seq<CorrelationRow>, chatId: int): int
  {
    if rows == [] then 0
    else if rows[|rows| - 1].inputChatId == chatId then rows[|rows| - 1].inputMessageId
    else ResumePoint(rows[..|rows| - 1], chatId)
  }

  /** The resume point is the input message of the most recently added row
      for the chat, and 0 when the chat has no row. */
  lemma {:induction false} ResumePointIsLatest(rows: seq<CorrelationRow>, chatId: int)
    ensures !HasRowFor(rows, chatId) ==> ResumePoint(rows, chatId) == 0
    ensures HasRowFor(rows, chatId) ==>
              exists i | IsLatestFor(rows, chatId, i) :: ResumePoint(rows, chatId) == rows[i].inputMessageId
  {
    if rows != [] {
      var n := |rows| - 1;
      var front := rows[..n];
      if rows[n].inputChatId == chatId {
        assert IsLatestFor(rows, chatId, n);
      } else {
        ResumePointIsLatest(front, chatId);
        if HasRowFor(rows, chatId) {
          var i :| 0 <= i < |rows| && rows[i].inputChatId == chatId;
          assert front[i].inputChatId == chatId;
          var k :| IsLatestFor(front, chatId, k) && ResumePoint(front, chatId) == front[k].inputMessageId;
          assert IsLatestFor(rows, chatId, k);
        } else {
          forall i | 0 <= i < n
            ensures front[i].inputChatId != chatId
          {
            assert front[i] == rows[i];
          }
        }
      }
    }
  }

  /** Recording a message makes it the chat's resume point. */
  lemma ResumeAfterRecord(rows: seq<CorrelationRow>, row: CorrelationRow)
    ensures ResumePoint(rows + [row], row.inputChatId) == row.inputMessageId
  {
  }

  /** Rows about other chats do not move a chat's resume point. */
  lemma {:induction false} ResumeIgnoresOtherChats(rows: seq<CorrelationRow>, more: seq<CorrelationRow>, chatId: int)
    requires forall j | 0 <= j < |more| :: more[j].inputChatId != chatId
    ensures ResumePoint(rows + more, chatId) == ResumePoint(rows, chatId)
  {
    if more != [] {
      var n := |more| - 1;
      assert (rows + more)[|rows| + n] == more[n];
      assert (rows + more)[..|rows| + n] == rows + more[..n];
      ResumeIgnoresOtherChats(rows, more[..n], chatId);
    } else {
      assert rows + more == rows;
    }
  }

  // ---------------------------------------------------------------------------
  // The history a source yields

  /** The history without its service messages, in the client's order. */
  function NonService(h: seq<TgMessage>): seq<TgMessage>
  {
    if h == [] then []
    else NonService(h[..|h| - 1]) + (if h[|h| - 1].service then [] else [h[|h| - 1]])
  }

  /** Exactly the non-service messages are kept. */
  lemma {:induction false} NonServiceKeepsExactly(h: seq<TgMessage>)
    ensures forall m :: m in NonService(h) <==> m in h && !m.service
  {
    if h != [] {
      var n := |h| - 1;
      NonServiceKeepsExactly(h[..n]);
      assert h == h[..n] + [h[n]];
    }
  }

  /** Filtering a history piece by piece filters the whole, so the kept
      messages stay in the client's order. */
  lemma {:induction false} NonServiceAppend(a: seq<TgMessage>, b: seq<TgMessage>)
    ensures NonService(a + b) == NonService(a) + NonService(b)
  {
    if b != [] {
      var n := |b| - 1;
      assert (a + b)[|a| + n] == b[n];
      assert (a + b)[..|a| + n] == a + b[..n];
      NonServiceAppend(a, b[..n]);
    } else {
      assert a + b == a;
    }
  }

  /** What `iter_messages` keeps of the history: the current code skips
      service messages, the earlier one keeps every message. */
  function Kept(v: Variant, h: seq<TgMessage>): seq<TgMessage>
  {
    if v == Current then NonService(h) else h
  }

  // ---------------------------------------------------------------------------
  // The media path

  /** The scratch directory of a message: `chats/<target id>/<message id>`. */
  function ScratchDir(targetId: int, messageId: int): FsPath
  {
    Child(Child(Chats(), IntToString(targetId)), IntToString(messageId))
  }

  /** The client method a media kind is sent with: `send_<kind>`. */
  function SendFunction(kind: string): string
  {
    "send_" + kind
  }

  /** The kinds the current code passes a `file_name` for. */
  predicate TakesFileName(kind: string)
  {
    kind != "photo" && kind != "audio" && kind != "sticker"
  }

  /** The `file_name` keyword argument of the send call, if any. */
  function FileNameArg(v: Variant, kind: string, fileName: string): Option<string>
  {
    if v == Current && TakesFileName(kind) then Some(fileName) else None
  }

  /** Only the current code names the file, and never a photo, an audio or a sticker. */
  lemma FileNameOnlyForNamedKinds(v: Variant, kind: string, fileName: string)
    ensures FileNameArg(v, kind, fileName).Some? <==>
              v == Current && kind !in ["photo", "audio", "sticker"]
  {
  }

  /** A run of the media path that ends in the ValueError the current code
      answers by running `send_message` again. */
  predicate IsRetry(a: MediaAttempt)
  {
    a.download.SavedAs? && a.send.RaisedValueError?
  }

  /** The position of the first run from `i` on that does not end in a
      retry, or `|attempts|` when they all do. */
  function RetriesFrom(attempts: seq<MediaAttempt>, i: nat): (r: nat)
    requires i <= |attempts|
    ensures i <= r <= |attempts|
    ensures r < |attempts| ==> !IsRetry(attempts[r])
    decreases |attempts| - i
  {
    if i == |attempts| || !IsRetry(attempts[i]) then i else RetriesFrom(attempts, i + 1)
  }

  /** The number of runs that end in a retry before the first that does not. */
  function RetryCount(attempts: seq<MediaAttempt>): (k: nat)
    ensures k <= |attempts|
    ensures k < |attempts| ==> !IsRetry(attempts[k])
  {
    RetriesFrom(attempts, 0)
  }

  lemma {:induction false} RetriesFromBefore(attempts: seq<MediaAttempt>, i: nat, j: nat)
    requires i <= |attempts| && i <= j < RetriesFrom(attempts, i)
    ensures IsRetry(attempts[j])
    decreases |attempts| - i
  {
    if j > i {
      RetriesFromBefore(attempts, i + 1, j);
    }
  }

  /** Every run before the one that settles it is a retry. */
  lemma RetriesBefore(attempts: seq<MediaAttempt>, j: nat)
    requires j < RetryCount(attempts)
    ensures IsRetry(attempts[j])
  {
    RetriesFromBefore(attempts, 0, j);
  }

  /** A run in front of the others moves every position by one. */
  lemma {:induction false} RetriesFromShift(x: MediaAttempt, rest: seq<MediaAttempt>, i: nat)
    requires i <= |rest|
    ensures RetriesFrom([x] + rest, i + 1) == 1 + RetriesFrom(rest, i)
    decreases |rest| - i
  {
    if i < |rest| {
      assert ([x] + rest)[i + 1] == rest[i];
      if IsRetry(rest[i]) {
        RetriesFromShift(x, rest, i + 1);
      }
    }
  }

  /** How many runs the current code makes: the retries and the one that settles it. */
  function Runs(attempts: seq<MediaAttempt>): (n: nat)
    ensures n <= |attempts|
  {
    var k := RetryCount(attempts);
    if k < |attempts| then k + 1 else k
  }

  /** The client calls of one run: download into the scratch directory,
      then, when a file was saved, send it with the message's caption. */
  function RunCalls(v: Variant, toChat: int, msg: TgMessage, scratch: FsPath, a: MediaAttempt): seq<Call>
    requires msg.media.Some?
  {
    [DownloadMedia(msg.id, scratch)]
    + if a.download.NotAPath? then []
      else [SendMedia(SendFunction(msg.media.value), toChat, Child(scratch, a.download.fileName), msg.text,
                      FileNameArg(v, msg.media.value, a.download.fileName))]
  }

  /** The client calls of the first `n` runs. */
  function AllRunCalls(v: Variant, toChat: int, msg: TgMessage, scratch: FsPath, attempts: seq<MediaAttempt>, n: nat): seq<Call>
    requires msg.media.Some? && n <= |attempts|
  {
    if n == 0 then []
    else AllRunCalls(v, toChat, msg, scratch, attempts, n - 1) + RunCalls(v, toChat, msg, scratch, attempts[n - 1])
  }

  /** The calls of the first `k + 1` runs, after any earlier calls `pre`,
      in the order a run makes them: the download, then the send when a
      file was saved. */
  lemma CallsOfNextRun(pre: seq<Call>, v: Variant, toChat: int, msg: TgMessage, scratch: FsPath,
                       attempts: seq<MediaAttempt>, k: nat)
    requires msg.media.Some? && k < |attempts|
    ensures attempts[k].download.NotAPath? ==>
              pre + AllRunCalls(v, toChat, msg, scratch, attempts, k + 1)
              == pre + AllRunCalls(v, toChat, msg, scratch, attempts, k) + [DownloadMedia(msg.id, scratch)]
    ensures attempts[k].download.SavedAs? ==>
              pre + AllRunCalls(v, toChat, msg, scratch, attempts, k + 1)
              == pre + AllRunCalls(v, toChat, msg, scratch, attempts, k) + [DownloadMedia(msg.id, scratch)]
                 + [SendMedia(SendFunction(msg.media.value), toChat, Child(scratch, attempts[k].download.fileName), msg.text,
                              FileNameArg(v, msg.media.value, attempts[k].download.fileName))]
  {
    var earlier := AllRunCalls(v, toChat, msg, scratch, attempts, k);
    assert AllRunCalls(v, toChat, msg, scratch, attempts, k + 1) == earlier + RunCalls(v, toChat, msg, scratch, attempts[k]);
  }

  /** The file one run saves in the scratch directory, if any. */
  function RunFile(scratch: FsPath, a: MediaAttempt): set<FsPath>
  {
    if a.download.SavedAs? then {Child(scratch, a.download.fileName)} else {}
  }

  /** The files the first `n` runs saved in the scratch directory. */
  function Downloaded(scratch: FsPath, attempts: seq<MediaAttempt>, n: nat): set<FsPath>
    requires n <= |attempts|
  {
    if n == 0 then {} else Downloaded(scratch, attempts, n - 1) + RunFile(scratch, attempts[n - 1])
  }

  lemma {:induction false} DownloadedAreInside(scratch: FsPath, attempts: seq<MediaAttempt>, n: nat)
    requires n <= |attempts|
    ensures forall f | f in Downloaded(scratch, attempts, n) :: |f.parts| > 0 && Parent(f) == scratch
  {
    if n > 0 {
      DownloadedAreInside(scratch, attempts, n - 1);
      var a := attempts[n - 1];
      if a.download.SavedAs? {
        ParentOfChild(scratch, a.download.fileName);
      }
    }
  }

  /** What `send_message` ended in. */
  datatype Delivery =
    | NoMessage                 // the message carried no pyrogram message
    | Forwarded(recorded: bool) // copied; a row when the copy was a single message
    | Sent(recorded: bool)      // sent by text or media; a row when a message came back
    | DownloadFailed            // the download did not give a path: logged, nothing sent
    | Raised(error: Error)      // an exception escaped

  /** How the current media path ends: it retries on every ValueError,
      gives up on a failed download, and only then cleans up and records.
      `blocked` says the scratch directory held a sub-directory, on which
      the clean-up raises. */
  function MediaDelivery(attempts: seq<MediaAttempt>, blocked: bool): Delivery
  {
    var k := RetryCount(attempts);
    if k == |attempts| then Raised(OutOfFuel)
    else if attempts[k].download.NotAPath? then DownloadFailed
    else if blocked then Raised(IsADirectory)
    else Sent(attempts[k].send.sent.Some?)
  }

  /** How the earlier media path ends: one run, no download check and no
      retry. `noFile` says the scratch directory held no file after the
      download; `blocked` as above. */
  function EarlierMediaDelivery(attempts: seq<MediaAttempt>, noFile: bool, blocked: bool): Delivery
  {
    if attempts == [] then Raised(OutOfFuel)
    else if noFile then Raised(NoFileDownloaded)
    else if attempts[0].send.RaisedValueError? then Raised(SendFailed)
    else if blocked then Raised(IsADirectory)
    else Sent(attempts[0].send.sent.Some?)
  }

  /** The scratch directory held no file after the first run's download. */
  predicate NoFileAfter(before: set<FsPath>, attempts: seq<MediaAttempt>)
  {
    before == {} && attempts != [] && attempts[0].download.NotAPath?
  }

  /** How many runs the earlier media path makes: at most one. */
  function EarlierRuns(attempts: seq<MediaAttempt>): (n: nat)
    ensures n <= |attempts|
  {
    if attempts == [] then 0 else 1
  }

  /** The current code only records after a run that neither failed to
      download nor raised, and a failed download never reaches the send. */
  lemma MediaRecordsOnlyAfterCleanSend(attempts: seq<MediaAttempt>, blocked: bool)
    ensures MediaDelivery(attempts, blocked) == Sent(true) <==>
              RetryCount(attempts) < |attempts| && !blocked
              && attempts[RetryCount(attempts)].download.SavedAs?
              && attempts[RetryCount(attempts)].send.Returned?
              && attempts[RetryCount(attempts)].send.sent.Some?
    ensures MediaDelivery(attempts, blocked) != Raised(SendFailed)
  {
  }

  /** A ValueError that the earlier code lets escape is retried by the
      current code, which then settles on the next run. */
  lemma RetryRecoversEarlierFailure(first: MediaAttempt, rest: seq<MediaAttempt>, noFile: bool, blocked: bool)
    requires IsRetry(first) && !noFile
    ensures EarlierMediaDelivery([first] + rest, noFile, blocked) == Raised(SendFailed)
    ensures MediaDelivery([first] + rest, blocked) == MediaDelivery(rest, blocked)
  {
    assert ([first] + rest)[0] == first;
    RetriesFromShift(first, rest, 0);
    if RetryCount(rest) < |rest| {
      assert ([first] + rest)[RetryCount([first] + rest)] == rest[RetryCount(rest)];
    }
  }

  class TgChat {
    const variant: Variant
    const client: Client
    const fs: FileSystem
    const targetId: int
    const target: ChatInfo
    const settings: Settings
    var forwardMessages: bool
    var friendlyName: Option<string>
    var rows: seq<CorrelationRow>

    /** `TgChat.__init__`: the common settings, the store opened (which
        makes the target directory), then the forward flag narrowed by the
        chat's protection. The current code also sets the friendly name.
        `storedRows` is what the store already holds. */
    constructor (variant: Variant, client: Client, fs: FileSystem, chatId: int, chatEntity: ChatInfo,
                 extra: ExtraConfigs, storedRows: seq<CorrelationRow>)
      modifies fs
      ensures this.variant == variant && this.client == client && this.fs == fs
      ensures targetId == chatId && target == chatEntity
      ensures settings == InitSettings(variant, ChatRef(chatId), extra)
      ensures forwardMessages <==> extra.forwardMessages == Some(true) && !chatEntity.hasProtectedContent
      ensures variant == Current ==> friendlyName == Some(Base.FriendlyName(Base.LiveChat(NameFieldsOf(chatEntity))))
      ensures variant == Earlier ==> friendlyName == None
      ensures rows == storedRows
      ensures fs.dirs == old(fs.dirs) + Ancestors(Parent(settings.dbPath)) + Ancestors(settings.targetPath)
      ensures fs.files == old(fs.files) + {settings.dbPath}
    {
      var s := InitSettings(variant, ChatRef(chatId), extra);
      var connected := InitDb(fs, s.dbPath);
      fs.MakeDirs(s.targetPath);
      var name: Option<string> := None;
      if variant == Current {
        var n := Base.GetFriendlyChatName(Base.LiveChat(NameFieldsOf(chatEntity)));
        name := Some(n);
      }
      this.variant := variant;
      this.client := client;
      this.fs := fs;
      this.targetId := chatId;
      this.target := chatEntity;
      this.settings := s;
      this.friendlyName := name;
      this.rows := storedRows;
      this.forwardMessages := s.forwardMessages && !chatEntity.hasProtectedContent;
    }

    /** `TgChat.create`: look the chat up, refuse a preview, build the target. */
    static method Create(variant: Variant, client: Client, fs: FileSystem, chatId: int, lookup: ChatLookup,
                         extra: ExtraConfigs, storedRows: seq<CorrelationRow>)
      returns (r: Result<TgChat>)
      modifies client, fs
      ensures client.calls == old(client.calls) + [GetChat(chatId)]
      ensures lookup.Preview? ==> r == Err(NotAMember)
      ensures lookup.Preview? ==> fs.dirs == old(fs.dirs) && fs.files == old(fs.files)
      ensures lookup.Member? ==> r.Ok? && fresh(r.value)
      ensures lookup.Member? ==> r.value.variant == variant && r.value.client == client && r.value.fs == fs
      ensures lookup.Member? ==> r.value.targetId == chatId && r.value.target == lookup.chat
      ensures lookup.Member? ==> r.value.rows == storedRows
      ensures lookup.Member? ==>
                (r.value.forwardMessages <==> extra.forwardMessages == Some(true) && !lookup.chat.hasProtectedContent)
      ensures lookup.Member? ==> r.value.settings == InitSettings(variant, ChatRef(chatId), extra)
      ensures lookup.Member? && variant == Current ==>
                r.value.friendlyName == Some(Base.FriendlyName(Base.LiveChat(NameFieldsOf(lookup.chat))))
      ensures lookup.Member? && variant == Earlier ==> r.value.friendlyName == None
      ensures lookup.Member? ==>
                fs.dirs == old(fs.dirs) + Ancestors(Parent(r.value.settings.dbPath)) + Ancestors(r.value.settings.targetPath)
                && fs.files == old(fs.files) + {r.value.settings.dbPath}
    {
      client.Record(GetChat(chatId));
      if lookup.Preview? {
        return Err(NotAMember);
      }
      var t := new TgChat(variant, client, fs, chatId, lookup.chat, extra, storedRows);
      return Ok(t);
    }

    /** `u` is what `_get_universal_message` makes of the history message `m`. */
    predicate Wraps(u: UniversalMessage, m: TgMessage)
      reads this, u
    {
      u.client == client && u.chatId == targetId && u.messageId == m.id
      && u.message == Some(m) && u.canForward == forwardMessages
    }

    /** `iter_messages`: ask the client for the history from the resume
        point on, and wrap each kept message, in the client's order.
        `history` is what the client's generator gives. */
    method IterMessages(history: seq<TgMessage>) returns (yielded: seq<UniversalMessage>)
      modifies client
      ensures client.calls == old(client.calls) + [GetChatHistory(target.id, ResumePoint(rows, targetId))]
      ensures |yielded| == |Kept(variant, history)|
      ensures forall i | 0 <= i < |yielded| :: fresh(yielded[i]) && Wraps(yielded[i], Kept(variant, history)[i])
    {
      var offset := ResumePoint(rows, targetId);
      client.Record(GetChatHistory(target.id, offset));
      yielded := [];
      var i := 0;
      while i < |history|
        invariant 0 <= i <= |history|
        invariant client.calls == old(client.calls) + [GetChatHistory(target.id, offset)]
        invariant |yielded| == |Kept(variant, history[..i])|
        invariant forall j | 0 <= j < |yielded| :: fresh(yielded[j]) && Wraps(yielded[j], Kept(variant, history[..i])[j])
      {
        var m := history[i];
        assert history[..i + 1][..i] == history[..i];
        if !(variant == Current && m.service) {
          var u := new UniversalMessage(client, targetId, m.id, forwardMessages, [MessageArg(Some(m))]);
          assert [MessageArg(Some(m))][..0] == [];
          yielded := yielded + [u];
        }
        i := i + 1;
      }
      assert history[..|history|] == history;
    }

    /** `__insert_sent_message`: one correlation row for the message sent. */
    method InsertSentMessage(m: UniversalMessage, sentId: int)
      modifies this`rows
      ensures rows == old(rows) + [CorrelationRow(m.chatId, m.messageId, targetId, sentId)]
      ensures ResumePoint(rows, m.chatId) == m.messageId
    {
      rows := rows + [CorrelationRow(m.chatId, m.messageId, targetId, sentId)];
    }

    /** The forward path: copy the message; record it when a single message came back. */
    method ForwardMessage(m: UniversalMessage, msg: TgMessage, copyAnswer: CopyResult) returns (d: Delivery)
      modifies this`rows, client
      ensures d == Forwarded(copyAnswer.CopiedOne?)
      ensures client.calls == old(client.calls) + [CopyMessage(target.id, m.chatId, msg.id)]
      ensures rows == old(rows) + if copyAnswer.CopiedOne? then [CorrelationRow(m.chatId, m.messageId, targetId, copyAnswer.sentId)] else []
    {
      client.Record(CopyMessage(target.id, m.chatId, msg.id));
      if copyAnswer.CopiedOne? {
        InsertSentMessage(m, copyAnswer.sentId);
        return Forwarded(true);
      }
      return Forwarded(false);
    }

    /** The text path: make the scratch directory, send the text, record a
        message that came back. The directory stays. */
    method SendTextMessage(m: UniversalMessage, msg: TgMessage, scratch: FsPath, textAnswer: Option<int>) returns (d: Delivery)
      modifies this`rows, client, fs
      ensures d == Sent(textAnswer.Some?)
      ensures client.calls == old(client.calls) + [SendText(target.id, msg.text)]
      ensures fs.dirs == old(fs.dirs) + Ancestors(scratch) && fs.files == old(fs.files)
      ensures rows == old(rows) + if textAnswer.Some? then [CorrelationRow(m.chatId, m.messageId, targetId, textAnswer.value)] else []
    {
      fs.MakeDirs(scratch);
      client.Record(SendText(target.id, msg.text));
      if textAnswer.Some? {
        InsertSentMessage(m, textAnswer.value);
        return Sent(true);
      }
      return Sent(false);
    }

    /** The runs of the current media path that end in a ValueError, each
        followed by the directory being made again for the next run.
        Returns how many there were. */
    method RetryRuns(msg: TgMessage, scratch: FsPath, attempts: seq<MediaAttempt>) returns (k: nat)
      requires msg.media.Some?
      modifies client, fs
      ensures k == RetryCount(attempts)
      ensures fs.dirs == old(fs.dirs) + Ancestors(scratch)
      ensures fs.DirsIn(scratch) == old(fs.DirsIn(scratch))
      ensures fs.files == old(fs.files) + Downloaded(scratch, attempts, k)
      ensures client.calls == old(client.calls) + AllRunCalls(Current, target.id, msg, scratch, attempts, k)
    {
      MakeDirsAddsNothingInside(fs.dirs, scratch);
      fs.MakeDirs(scratch);
      k := 0;
      while k < |attempts| && IsRetry(attempts[k])
        invariant 0 <= k <= |attempts| && RetriesFrom(attempts, k) == RetryCount(attempts)
        invariant fs.dirs == old(fs.dirs) + Ancestors(scratch) && fs.IsDir(scratch)
        invariant fs.files == old(fs.files) + Downloaded(scratch, attempts, k)
        invariant client.calls == old(client.calls) + AllRunCalls(Current, target.id, msg, scratch, attempts, k)
      {
        RetryRun(msg, scratch, attempts[k]);
        k := k + 1;
      }
    }

    /** One run that ends in the ValueError: download, send, and make the
        directory again as the repeated `send_message` does. */
    method RetryRun(msg: TgMessage, scratch: FsPath, a: MediaAttempt)
      requires msg.media.Some? && IsRetry(a) && fs.IsDir(scratch)
      modifies client, fs
      ensures fs.dirs == old(fs.dirs) + Ancestors(scratch)
      ensures fs.files == old(fs.files) + RunFile(scratch, a)
      ensures client.calls == old(client.calls) + RunCalls(Current, target.id, msg, scratch, a)
    {
      var kind := msg.media.value;
      var name := a.download.fileName;
      client.Record(DownloadMedia(msg.id, scratch));
      ParentOfChild(scratch, name);
      fs.WriteFile(Child(scratch, name));
      client.Record(SendMedia(SendFunction(kind), target.id, Child(scratch, name), msg.text, FileNameArg(Current, kind, name)));
      fs.MakeDirs(scratch);
    }

    /** The current media path: make the scratch directory, download, send
        (with a `file_name` for the kinds that take one); a ValueError runs
        it all again. A failed download stops it; after a send the
        directory is emptied and removed, then a returned message is
        recorded. `attempts` are the client's answers to successive runs. */
    method SendMediaWithRetry(m: UniversalMessage, msg: TgMessage, scratch: FsPath, attempts: seq<MediaAttempt>) returns (d: Delivery)
      requires msg.media.Some?
      modifies this`rows, client, fs
      ensures d == MediaDelivery(attempts, old(fs.DirsIn(scratch)) != {})
      ensures client.calls == old(client.calls) + AllRunCalls(Current, target.id, msg, scratch, attempts, Runs(attempts))
      ensures d.Sent? ==> fs.dirs == old(fs.dirs) + Ancestors(scratch) - {scratch}
      ensures d.Sent? ==> fs.files == old(fs.files) - old(fs.FilesIn(scratch))
      ensures !d.Sent? ==> fs.dirs == old(fs.dirs) + Ancestors(scratch)
      ensures !d.Sent? ==> fs.files == old(fs.files) + Downloaded(scratch, attempts, Runs(attempts))
      ensures rows == old(rows) + if d == Sent(true) then [CorrelationRow(m.chatId, m.messageId, targetId, attempts[RetryCount(attempts)].send.sent.value)] else []
    {
      var i := RetryRuns(msg, scratch, attempts);
      if i == |attempts| {
        return Raised(OutOfFuel);
      }
      d := FinalRun(m, msg, scratch, attempts, i, old(fs.files), old(client.calls));
    }

    /** The download of one run: the client call, and the file it saved
        in the scratch directory, if any. */
    method DownloadRun(msg: TgMessage, scratch: FsPath, a: MediaAttempt)
      requires fs.IsDir(scratch)
      modifies client, fs
      ensures client.calls == old(client.calls) + [DownloadMedia(msg.id, scratch)]
      ensures fs.files == old(fs.files) + RunFile(scratch, a) && fs.dirs == old(fs.dirs)
    {
      client.Record(DownloadMedia(msg.id, scratch));
      if a.download.SavedAs? {
        ParentOfChild(scratch, a.download.fileName);
        fs.WriteFile(Child(scratch, a.download.fileName));
      }
    }

    /** The clean-up after a send: every file of the scratch directory
        removed, then the directory itself. The files are those of `before`
        plus files `added` inside the directory since. */
    method ClearScratch(scratch: FsPath, ghost before: set<FsPath>, ghost added: set<FsPath>)
      requires fs.files == before + added
      requires forall f | f in added :: |f.parts| > 0 && Parent(f) == scratch
      requires fs.DirsIn(scratch) == {}
      modifies fs
      ensures fs.dirs == old(fs.dirs) - {scratch}
      ensures fs.files == before - EntriesIn(before, scratch)
    {
      ClearAfterAdding(before, added, scratch);
      fs.RemoveFilesIn(scratch);
      fs.RemoveDir(scratch);
    }

    /** The run `attempts[k]` of the current media path, the first that
        does not end in a retry: download, then, when a file was saved,
        send it, empty and remove the scratch directory `scratch` and record
        a returned message. `before` and `callsBefore` are the files and
        the client's calls from before the first run; the `k` earlier runs
        left their files in `scratch`. */
    method FinalRun(m: UniversalMessage, msg: TgMessage, scratch: FsPath, attempts: seq<MediaAttempt>, k: nat,
                    ghost before: set<FsPath>, ghost callsBefore: seq<Call>)
      returns (d: Delivery)
      requires msg.media.Some? && k == RetryCount(attempts) < |attempts| && fs.IsDir(scratch)
      requires fs.files == before + Downloaded(scratch, attempts, k)
      requires client.calls == callsBefore + AllRunCalls(Current, target.id, msg, scratch, attempts, k)
      modifies this`rows, client, fs
      ensures d == MediaDelivery(attempts, old(fs.DirsIn(scratch)) != {})
      ensures client.calls == callsBefore + AllRunCalls(Current, target.id, msg, scratch, attempts, Runs(attempts))
      ensures d.Sent? ==> fs.dirs == old(fs.dirs) - {scratch}
      ensures d.Sent? ==> fs.files == before - EntriesIn(before, scratch)
      ensures !d.Sent? ==> fs.dirs == old(fs.dirs)
      ensures !d.Sent? ==> fs.files == before + Downloaded(scratch, attempts, Runs(attempts))
      ensures rows == old(rows) + if d == Sent(true) then [CorrelationRow(m.chatId, m.messageId, targetId, attempts[k].send.sent.value)] else []
    {
      var a := attempts[k];
      assert Runs(attempts) == k + 1;
      CallsOfNextRun(callsBefore, Current, target.id, msg, scratch, attempts, k);
      assert Downloaded(scratch, attempts, k + 1) == Downloaded(scratch, attempts, k) + RunFile(scratch, a);
      DownloadedAreInside(scratch, attempts, k);
      ghost var earlier := Downloaded(scratch, attempts, k);
      DownloadRun(msg, scratch, a);
      if a.download.NotAPath? {
        return DownloadFailed;
      }
      d := SendAndClear(m, msg, scratch, a, before, earlier);
    }

    /** The end of a run whose download saved a file: send it, then, when
        the scratch directory holds no sub-directory, empty and remove it
        and record a returned message. The files are those of `before`
        plus the files `earlier` runs and this one left in `scratch`. */
    method SendAndClear(m: UniversalMessage, msg: TgMessage, scratch: FsPath, a: MediaAttempt,
                        ghost before: set<FsPath>, ghost earlier: set<FsPath>)
      returns (d: Delivery)
      requires msg.media.Some? && a.download.SavedAs? && !IsRetry(a)
      requires fs.files == before + earlier + RunFile(scratch, a)
      requires forall f | f in earlier :: |f.parts| > 0 && Parent(f) == scratch
      modifies this`rows, client, fs
      ensures d == if old(fs.DirsIn(scratch)) != {} then Raised(IsADirectory) else Sent(a.send.sent.Some?)
      ensures client.calls == old(client.calls)
                              + [SendMedia(SendFunction(msg.media.value), target.id, Child(scratch, a.download.fileName), msg.text,
                                           FileNameArg(Current, msg.media.value, a.download.fileName))]
      ensures d.Sent? ==> fs.dirs == old(fs.dirs) - {scratch} && fs.files == before - EntriesIn(before, scratch)
      ensures !d.Sent? ==> fs.dirs == old(fs.dirs) && fs.files == old(fs.files)
      ensures rows == old(rows) + if d == Sent(true) then [CorrelationRow(m.chatId, m.messageId, targetId, a.send.sent.value)] else []
    {
      var kind := msg.media.value;
      var file := Child(scratch, a.download.fileName);
      client.Record(SendMedia(SendFunction(kind), target.id, file, msg.text, FileNameArg(Current, kind, a.download.fileName)));
      if fs.DirsIn(scratch) != {} {
        return Raised(IsADirectory);
      }
      ParentOfChild(scratch, a.download.fileName);
      ClearScratch(scratch, before, earlier + RunFile(scratch, a));
      if a.send.sent.Some? {
        InsertSentMessage(m, a.send.sent.value);
        return Sent(true);
      }
      return Sent(false);
    }

    /** The earlier media path: make the scratch directory, download, take
        some file of the directory (a RuntimeError when there is none), send
        it without a `file_name`; a ValueError escapes. After a send the
        directory is emptied and removed, then a returned message is
        recorded. Only `attempts[0]` is used. Returns the file sent. */
    method SendMediaOnce(m: UniversalMessage, msg: TgMessage, scratch: FsPath, attempts: seq<MediaAttempt>)
      returns (d: Delivery, sentFile: Option<FsPath>)
      requires msg.media.Some?
      modifies this`rows, client, fs
      ensures d == EarlierMediaDelivery(attempts, NoFileAfter(old(fs.FilesIn(scratch)), attempts),
                                        old(fs.DirsIn(scratch)) != {})
      ensures attempts == [] ==> client.calls == old(client.calls)
      ensures attempts != [] ==>
                client.calls == old(client.calls) + [DownloadMedia(msg.id, scratch)]
                                + if sentFile.None? then []
                                  else [SendMedia(SendFunction(msg.media.value), target.id, sentFile.value, msg.text, None)]
      ensures sentFile.Some? <==> attempts != [] && !NoFileAfter(old(fs.FilesIn(scratch)), attempts)
      ensures sentFile.Some? ==>
                sentFile.value in old(fs.FilesIn(scratch)) + Downloaded(scratch, attempts, EarlierRuns(attempts))
      ensures d.Sent? ==> fs.dirs == old(fs.dirs) + Ancestors(scratch) - {scratch}
      ensures d.Sent? ==> fs.files == old(fs.files) - old(fs.FilesIn(scratch))
      ensures !d.Sent? ==> fs.dirs == old(fs.dirs) + Ancestors(scratch)
      ensures !d.Sent? ==> fs.files == old(fs.files) + Downloaded(scratch, attempts, EarlierRuns(attempts))
      ensures rows == old(rows) + if d == Sent(true) then [CorrelationRow(m.chatId, m.messageId, targetId, attempts[0].send.sent.value)] else []
    {
      var kind := msg.media.value;
      MakeDirsAddsNothingInside(fs.dirs, scratch);
      fs.MakeDirs(scratch);
      if attempts == [] {
        return Raised(OutOfFuel), None;
      }
      var a := attempts[0];
      DownloadRun(msg, scratch, a);
      assert Downloaded(scratch, attempts, 1) == RunFile(scratch, a);
      DownloadedAreInside(scratch, attempts, 1);
      if a.download.SavedAs? {
        assert Child(scratch, a.download.fileName) in fs.FilesIn(scratch);
      }
      if fs.FilesIn(scratch) == {} {
        return Raised(NoFileDownloaded), None;
      }
      var f :| f in fs.FilesIn(scratch);
      client.Record(SendMedia(SendFunction(kind), target.id, f, msg.text, None));
      sentFile := Some(f);
      if a.send.RaisedValueError? {
        return Raised(SendFailed), sentFile;
      }
      if fs.DirsIn(scratch) != {} {
        return Raised(IsADirectory), sentFile;
      }
      ClearScratch(scratch, old(fs.files), RunFile(scratch, a));
      if a.send.sent.Some? {
        InsertSentMessage(m, a.send.sent.value);
        return Sent(true), sentFile;
      }
      return Sent(false), sentFile;
    }

    /** `send_message`: nothing without a pyrogram message; otherwise copy
        when the message may be forwarded, else send its media or its
        text, working in the message's scratch directory `ScratchDir`. At
        most one row is added, and a row makes the message its chat's
        resume point. `sentFile` is the file the earlier media path sent. */
    method SendMessage(m: UniversalMessage, copyAnswer: CopyResult, attempts: seq<MediaAttempt>, textAnswer: Option<int>)
      returns (d: Delivery, ghost sentFile: Option<FsPath>)
      modifies this`rows, client, fs
      ensures m.message.None? ==> d == NoMessage && rows == old(rows) && client.calls == old(client.calls)
      ensures m.message.None? || m.canForward ==> fs.dirs == old(fs.dirs) && fs.files == old(fs.files)
      ensures m.message.Some? && m.canForward ==>
                d == Forwarded(copyAnswer.CopiedOne?)
                && client.calls == old(client.calls) + [CopyMessage(target.id, m.chatId, m.message.value.id)]
                && rows == old(rows) + if copyAnswer.CopiedOne? then [CorrelationRow(m.chatId, m.messageId, targetId, copyAnswer.sentId)] else []
      ensures m.message.Some? && !m.canForward && m.message.value.media.None? ==>
                d == Sent(textAnswer.Some?)
                && client.calls == old(client.calls) + [SendText(target.id, m.message.value.text)]
                && fs.dirs == old(fs.dirs) + Ancestors(ScratchDir(targetId, m.message.value.id))
                && fs.files == old(fs.files)
                && rows == old(rows) + if textAnswer.Some? then [CorrelationRow(m.chatId, m.messageId, targetId, textAnswer.value)] else []
      ensures m.message.Some? && !m.canForward && m.message.value.media.Some? ==>
                var msg := m.message.value;
                var scratch := ScratchDir(targetId, msg.id);
                (d.Sent? ==> fs.dirs == old(fs.dirs) + Ancestors(scratch) - {scratch}
                             && fs.files == old(fs.files) - old(fs.FilesIn(scratch)))
                && (!d.Sent? ==> fs.dirs == old(fs.dirs) + Ancestors(scratch))
      ensures m.message.Some? && !m.canForward && m.message.value.media.Some? && variant == Current ==>
                var msg := m.message.value;
                var scratch := ScratchDir(targetId, msg.id);
                d == MediaDelivery(attempts, old(fs.DirsIn(scratch)) != {})
                && client.calls == old(client.calls) + AllRunCalls(Current, target.id, msg, scratch, attempts, Runs(attempts))
                && (!d.Sent? ==> fs.files == old(fs.files) + Downloaded(scratch, attempts, Runs(attempts)))
                && rows == old(rows) + if d == Sent(true) then [CorrelationRow(m.chatId, m.messageId, targetId, attempts[RetryCount(attempts)].send.sent.value)] else []
      ensures m.message.Some? && !m.canForward && m.message.value.media.Some? && variant == Earlier ==>
                var msg := m.message.value;
                var scratch := ScratchDir(targetId, msg.id);
                d == EarlierMediaDelivery(attempts, NoFileAfter(old(fs.FilesIn(scratch)), attempts), old(fs.DirsIn(scratch)) != {})
                && client.calls == old(client.calls)
                                   + (if attempts == [] then [] else [DownloadMedia(msg.id, scratch)])
                                   + (if sentFile.None? then [] else [SendMedia(SendFunction(msg.media.value), target.id, sentFile.value, msg.text, None)])
                && (sentFile.Some? ==> sentFile.value in old(fs.FilesIn(scratch)) + Downloaded(scratch, attempts, EarlierRuns(attempts)))
                && (!d.Sent? ==> fs.files == old(fs.files) + Downloaded(scratch, attempts, EarlierRuns(attempts)))
                && rows == old(rows) + if d == Sent(true) then [CorrelationRow(m.chatId, m.messageId, targetId, attempts[0].send.sent.value)] else []
      ensures m.message.Some? && m.message.value.media.Some? && d.Sent? ==>
                !fs.IsDir(ScratchDir(targetId, m.message.value.id)) && fs.FilesIn(ScratchDir(targetId, m.message.value.id)) == {}
      ensures d == DownloadFailed ==> fs.IsDir(ScratchDir(targetId, m.message.value.id))
      ensures d == Forwarded(true) || d == Sent(true) ==>
                |rows| == |old(rows)| + 1 && rows[..|old(rows)|] == old(rows)
                && rows[|old(rows)|].inputChatId == m.chatId && rows[|old(rows)|].inputMessageId == m.messageId
                && rows[|old(rows)|].outputChatId == targetId
                && ResumePoint(rows, m.chatId) == m.messageId
      ensures !(d == Forwarded(true) || d == Sent(true)) ==> rows == old(rows)
    {
      sentFile := None;
      if m.message.None? {
        return NoMessage, None;
      }
      var msg := m.message.value;
      var scratch := ScratchDir(targetId, msg.id);
      if m.canForward {
        d := ForwardMessage(m, msg, copyAnswer);
      } else if msg.media.None? {
        d := SendTextMessage(m, msg, scratch, textAnswer);
      } else if variant == Current {
        d := SendMediaWithRetry(m, msg, scratch, attempts);
      } else {
        var sent;
        d, sent := SendMediaOnce(m, msg, scratch, attempts);
        sentFile := sent;
      }
      if d == Forwarded(true) || d == Sent(true) {
        ResumeAfterRecord(old(rows), rows[|rows| - 1]);
      }
    }
  }
}
