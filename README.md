# Replication core of a Telegram chat cloner, in Dafny

The cloner copies messages from a source to a sink. Both sides are *targets*:

- A **live chat** (`TgChat`) is a Telegram chat. As a source, it yields its history from a *resume point*: the newest input message of the rows in its own store whose input chat is itself. As a sink, it receives a message in one of two ways. It forwards (copies) the message when that is allowed. Otherwise it recreates the message: it downloads the media into a scratch directory, uploads it with the send function for the media kind, and cleans the directory up. Every message it delivers (a single copied message, or a send that returns a message) adds one correlation row to its own store; a copy answered by a list, a send that returns nothing, a failed download and a `UniversalMessage` without a pyrogram message add none. The default store is `chats/<id>/dump.db`, one per chat id, so a sink's rows reach the source's store, and move its resume point, only when two targets share a store: the same chat id (a chat cloned into itself), or a shared `db_path`.
- A **local archive** (`DumpChat`) is a SQLite store in a directory. It works out which chat it represents from its `meta` table. As intended (see Findings), it stores one row per message, with the path of the message's downloaded media, and it replays its rows in table order.

Supporting pieces:

- `UniversalMessage` is the message record passed between targets. It also decides whether a message may be forwarded.
- `Target.__init__` holds the configuration defaults.
- A few pure helpers build media file names, message URLs and friendly chat names.

The model is imperative where the program is:

- `TgChat`, `DumpChat`, `UniversalMessage`, the client and the filesystem are classes whose methods update their fields.
- The tables are `seq`s of rows, in insertion order.
- The filesystem is a set of directories and a set of files.
- The client records the calls made to it. Its answers are method parameters: a single message or a list, a path or a failure, a `ValueError`.

The earlier single-file generation of the code (`utils/telegram.py`) is the `Earlier` value of `Variant` on the same classes. Its differences:

- no service-message skip;
- no download-failure check;
- no `file_name` argument;
- a `ValueError` on send escapes instead of being retried;
- the media file is whatever `next(iterdir())` finds;
- no friendly name is set.

Modules:

- `Common`: option, result, the exceptions, the variant.
- `PyStr`: the Python string built-ins used.
- `Base`: `utils/base.py`.
- `Files`: paths and the filesystem.
- `Remote`: client data and the call log.
- `Abstract`: `Target`.
- `Messages`: `UniversalMessage`.
- `LiveTarget`: `TgChat`.
- `ArchiveTarget`: `DumpChat`.
- `Targets`: `get_target`.

Where the intended design and the code disagree, the model follows the code:

- A chat whose content is protected is never forwarded, and there is no fallback from forwarding to recreating. Only `forward_messages` is narrowed.
- Rate limits are not handled.
- `send_text_messages`, `media_types`, `threads` and `reverse_messages` are stored but never applied. The model keeps their stored values and nothing else.
- A failed download leaves the scratch directory behind, and so does a text-only send.

## Model

| member | source | states |
|---|---|---|
| PyStr.IntToString | utils/telegram/abstract.py:22 | `str(int)`: at least one character, a leading `-` exactly for a negative number, then the decimal digits (also used at utils/base.py:90) |
| PyStr.SplitFirst | utils/base.py:23 | `s.split(sep)[0]` is a prefix of `s` without `sep`, followed in `s` by `sep` when shorter than `s` |
| PyStr.RemovePrefix | utils/base.py:90 | `removeprefix` drops the prefix exactly when the string starts with it, else returns the string unchanged |
| PyStr.DoubleSpaceAt | utils/base.py:84 | `"  " in s` holds exactly when some index holds two consecutive spaces |
| PyStr.ReplaceDoubleSpaces | utils/base.py:85 | one `replace("  ", " ")` pass never lengthens the name, strictly shortens it while it holds a double space, and keeps its first character |
| PyStr.Squeeze | utils/base.py:84-85 | reference definition: every run of spaces shrunk to one; never longer than the input, same first character |
| PyStr.SqueezeAfterReplace | utils/base.py:84-85 | a replace pass leaves the squeeze of the name unchanged (the collapse loop's invariant) |
| PyStr.SqueezeFixesNoDoubleSpace | utils/base.py:84 | a name without double spaces is its own squeeze, so the loop stops on the squeeze |
| PyStr.SqueezeHasNoDoubleSpace | utils/base.py:84-86 | the squeeze of any string holds no double space |
| PyStr.StripLeft | utils/base.py:86 | `lstrip` returns a suffix, removes only whitespace, and leaves no leading whitespace |
| PyStr.StripRight | utils/base.py:86 | `rstrip` returns a prefix, removes only whitespace, and leaves no trailing whitespace |
| PyStr.StripTrims | utils/base.py:86 | `strip` keeps a name free of double spaces and leaves no whitespace at either end |
| Base.GetFilename | utils/base.py:13-24 | the media's own file name when it has one; otherwise `Unknown.` followed by something holding no `/` |
| Base.UnnamedMediaFilename | utils/base.py:22-24 | without a file name, a media type `main/sub` gives `Unknown.main` |
| Base.BareMediaFilename | utils/base.py:22-24 | an object with neither attribute gets `Unknown.jpg` |
| Base.FilenameIsOneComponent | utils/base.py:22-24 | the name holds no `/` unless the media's own name does |
| Base.GetMessageUrl | utils/base.py:89-90 | every message URL starts with `https://t.me/c/` |
| Base.ChannelMessageUrl | utils/base.py:89-90 | for a chat id written `-100<n>` (a channel or supergroup) the URL is the prefix, `<n>`, `/`, the message id |
| Base.UserMessageUrl | utils/base.py:89-90 | a non-negative chat id appears whole in the URL |
| Base.GroupMessageUrl | utils/base.py:89-90 | a negative chat id not written `-100...` (a basic group) appears whole, minus sign included |
| Base.CollapseSpaces | utils/base.py:84-85 | the replace loop ends, on the squeeze of its input, with no double space left |
| Base.GetFriendlyChatName | utils/base.py:52-86 | `Chat <id>` for an archive without a client and `Chat <repr>` for an unknown object; otherwise the parts in order, collapsed and stripped (the reference `FriendlyName`) |
| Base.FriendlyNameIsClean | utils/base.py:84-86 | the friendly name of a chat has no double space and no whitespace at either end |
| Files.Join | utils/telegram/abstract.py:22 | `base / p` is `p` when `p` is absolute, else the parts of `base` followed by those of `p` |
| Files.Ancestors | utils/telegram/abstract.py:79 | `mkdir(parents=True)` ensures the path itself and only paths no deeper than it |
| Files.FileSystem.MakeDirs | utils/telegram/abstract.py:79 | afterwards the directory exists; exactly its ancestors are added, files unchanged |
| Files.FileSystem.RemoveFilesIn | utils/telegram/targets.py:178-179 | exactly the files directly inside the directory are removed, and none is left there |
| Files.FileSystem.RemoveDir | utils/telegram/targets.py:180 | on a directory holding no file and no sub-directory, exactly the directory is removed |
| Abstract.TargetPath | utils/telegram/abstract.py:22 | `chats/<id>` for a chat id; `chats/<path>` for a relative path, the path itself for an absolute one |
| Abstract.InitSettings | utils/telegram/abstract.py:19-33 | each setting is the keyword argument when given, else its default: False, False, 1, (0, 5), False, `MEDIA_TYPES`; the store is `<target path>/dump.db` unless a `db_path` is given; the earlier `Target` keeps no later settings |
| Abstract.DefaultChatSettings | utils/telegram/abstract.py:22-33 | with no keyword arguments a chat keeps its store at `chats/<id>/dump.db` and forwards nothing |
| Abstract.InitDb | utils/telegram/abstract.py:73-84 | the store's parent directory is made before connecting, so the connection succeeds and the store file then exists |
| Abstract.RandomSleep | utils/telegram/abstract.py:91-99 | an empty range raises; otherwise the wait is `draw * multiplier`, within `[lo*m, hi*m]`, and the countdown ends at or below zero after `max(0, 100*wait)` steps of 0.01 s |
| Messages.LastMessageArgWins | utils/telegram/message.py:22-25 | the last `message=` keyword argument overrides the default `None` |
| Messages.NoMessageArgKeepsDefault | utils/telegram/message.py:22-25 | without a `message=` keyword argument the message stays `None` |
| Messages.UniversalMessage.constructor | utils/telegram/message.py:10-25 | chat id, message id and `can_forward` come from the arguments, the message from the keyword arguments |
| Messages.UniversalMessage.RetrieveMessage | utils/telegram/message.py:29-38 | a preview raises without changing anything; otherwise `can_forward` becomes "not protected", the message becomes the single result or the list's first element, and an empty list raises |
| Messages.NewUniversalMessage | utils/telegram/message.py:10-27 | without `retrieve` no call is made and the arguments stand; with it the retrieval's outcome overrides `can_forward` and the message, or its exception escapes |
| LiveTarget.ResumePoint | utils/telegram/targets.py:77-86 | the resume query: the input message id of the most recently added row whose input chat is the given chat, or 0 when there is none (the earlier code's query at utils/telegram.py:170-179 is the same) |
| LiveTarget.ResumePointIsLatest | utils/telegram/targets.py:77-86 | the resume point is the input message of the most recently added row for the chat, and 0 when there is none |
| LiveTarget.ResumeAfterRecord | utils/telegram/targets.py:98-108 | a recorded message becomes its chat's resume point |
| LiveTarget.ResumeIgnoresOtherChats | utils/telegram/targets.py:77-86 | rows about other chats never move a chat's resume point |
| LiveTarget.NonServiceKeepsExactly | utils/telegram/targets.py:93-96 | exactly the non-service messages of the history are kept |
| LiveTarget.NonServiceAppend | utils/telegram/targets.py:93-96 | filtering commutes with concatenation, so kept messages stay in the client's order |
| LiveTarget.FileNameOnlyForNamedKinds | utils/telegram/targets.py:165-169 | a `file_name` is passed exactly by the current code for kinds other than photo, audio and sticker |
| LiveTarget.RetryCount | utils/telegram/targets.py:171-177 | counts the runs ending in a `ValueError` before the first that does not |
| LiveTarget.RetriesBefore | utils/telegram/targets.py:171-177 | every run before the counted position ended in a `ValueError`, so the count is that of the leading retries |
| LiveTarget.MediaRecordsOnlyAfterCleanSend | utils/telegram/targets.py:157-186 | the media path records exactly when the settling run downloaded, sent, got a message back and could clean up; a `ValueError` never escapes it |
| LiveTarget.RetryRecoversEarlierFailure | utils/telegram.py:252-257 | a `ValueError` that escapes the earlier code is retried by the current code, which ends as its next run does |
| LiveTarget.CallsOfNextRun | utils/telegram/targets.py:152-172 | the calls of one more run follow the earlier ones in the order the run makes them: the download, then the send when a file was saved |
| LiveTarget.TgChat.constructor | utils/telegram/targets.py:16-38 | `forward_messages` is the requested flag and not protected; the friendly name is that of the chat entity; the store and target directory exist; the earlier constructor (utils/telegram.py:110-131) narrows the forward flag the same way and sets no friendly name |
| LiveTarget.TgChat.Create | utils/telegram/targets.py:40-58 | one `get_chat` call; a preview raises and builds nothing, leaving the filesystem alone; a member chat gives a fresh target with the constructor's full state: variant, settings, narrowed forward flag, friendly name, stored rows, and the store and target directory created |
| LiveTarget.TgChat.IterMessages | utils/telegram/targets.py:60-96 | history is asked for from the resume point; one fresh message per kept history message, in order, with the target's id and `can_forward = forward_messages`; the earlier generator (utils/telegram.py:169-187) keeps every history message, service ones included |
| LiveTarget.TgChat.InsertSentMessage | utils/telegram/targets.py:98-108 | appends exactly the row (source chat, source message, target, sent message), which becomes the resume point |
| LiveTarget.TgChat.ForwardMessage | utils/telegram/targets.py:125-134 | copies the message; appends a row only for a single message and none for a list |
| LiveTarget.TgChat.SendTextMessage | utils/telegram/targets.py:136-186 | makes the scratch directory and leaves it; sends the text; appends a row only when a message came back |
| LiveTarget.ScratchDir | utils/telegram/targets.py:136 | `save_path`: `chats/<target id>/<message id>`, relative, with both ids written by `str` |
| LiveTarget.TgChat.RetryRuns | utils/telegram/targets.py:171-177 | each `ValueError` run downloads, sends and starts over by making the directory again |
| LiveTarget.TgChat.RetryRun | utils/telegram/targets.py:136-177 | a run that ends in a `ValueError` makes the directory, downloads (the saved file stays), sends, and changes nothing else |
| LiveTarget.TgChat.DownloadRun | utils/telegram/targets.py:152-156 | one download call into the directory; the file it saved, if any, is added and no directory changes |
| LiveTarget.TgChat.ClearScratch | utils/telegram/targets.py:178-180 | every file directly in the directory goes, including those the runs saved, then the directory itself; other files stay |
| LiveTarget.TgChat.FinalRun | utils/telegram/targets.py:152-186 | the run after the retries ends as `MediaDelivery` says, completes the calls of all runs, and cleans up and appends a row only after a send |
| LiveTarget.TgChat.SendAndClear | utils/telegram/targets.py:165-186 | a run whose download saved a file sends it; with no sub-directory in the scratch directory, its files and then the directory are removed and a returned message is recorded; otherwise `IsADirectoryError` and nothing else changes |
| LiveTarget.TgChat.SendMediaWithRetry | utils/telegram/targets.py:136-186 | the calls of every run; a failed download stops without a row and leaves the directory; after a send the directory's files and the directory are removed before the one row is appended |
| LiveTarget.TgChat.SendMediaOnce | utils/telegram.py:227-266 | one run without a `file_name`; no file raises, a `ValueError` escapes; otherwise the directory is removed before at most one row is appended |
| LiveTarget.TgChat.SendMessage | utils/telegram/targets.py:110-186 | no message changes nothing; forwarding makes one `copy_message` call, touches no file and appends the row with the copied id only for a single message; text sends one `send_message`, leaves the scratch directory and appends the row with the returned id; media makes the calls of every run (`file_name` rule and retries included), ends as `MediaDelivery` says, leaves the directory and the downloads when not sent, removes the directory's files and the directory after a send, and appends the row with the settling run's returned id; every appended row makes the message its chat's resume point; the earlier dispatch (utils/telegram.py:201-266) has the same forward and text paths and the single run with no `file_name`, ending as `EarlierMediaDelivery` says |
| ArchiveTarget.StoredChatId | utils/telegram/targets.py:206-207 | the `meta` select for `chat_id` with `fetchone()`: the value of the first such row in table order, or nothing |
| ArchiveTarget.ResolveChatId | utils/telegram/targets.py:202-211 | the id `__get_chat_id` chooses: a truthy explicit id, else the stored one, else 0 |
| ArchiveTarget.StoredChatIdIsFirst | utils/telegram/targets.py:206-210 | the stored chat id is the value of the first `chat_id` row, and absent exactly when there is no such row |
| ArchiveTarget.FirstMetaWins | utils/telegram/targets.py:212-215 | writing the id back appends a row, so the first stored value keeps winning |
| ArchiveTarget.ReopenGivesFirstStoredId | utils/telegram/targets.py:202-215 | reopening without an explicit id gives the first stored id, whatever explicit id a later opening used |
| ArchiveTarget.ReopenIsStable | utils/telegram/targets.py:202-215 | opening without an explicit id resolves the same chat every time |
| ArchiveTarget.ArchiveFile | utils/telegram/targets.py:271-274 | `save_path` of an archived media: `<target path>/<message id>/<get_filename of message.media>` |
| ArchiveTarget.ArchiveFileName | utils/telegram/targets.py:271-274 | every media file is archived as `<target path>/<message id>/Unknown.jpg` |
| ArchiveTarget.DownloadOutcomeAsWritten | utils/telegram/targets.py:260-292 | as written, `NotADirectoryError` is raised exactly when a download happens; otherwise the intended result: None without media, the path of an existing file |
| ArchiveTarget.FirstArchiveOfMediaFails | utils/telegram/targets.py:285-292 | as written, the first archive of a message with media raises and only a second succeeds; the intended version succeeds both times with the same path |
| ArchiveTarget.DumpChat.constructor | utils/telegram/targets.py:191-215 | the chat id is resolved and written back as a new `meta` row; stored rows kept; the store exists; the current code names the archive |
| ArchiveTarget.DumpChat.NameArchive | utils/base.py:64-68 | with a client, the friendly name of the chat it reports for the archive's id; without one, `Chat <path>` |
| ArchiveTarget.DumpChat.GetChatId | utils/telegram/targets.py:202-215 | a truthy explicit id wins, then the first stored one, then 0; one `chat_id` row is appended; the earlier resolution (utils/telegram.py:281-294) is the same |
| ArchiveTarget.DumpChat.DownloadMedia | utils/telegram/targets.py:260-292 | None without media and nothing touched; an existing archive file is returned without a download; otherwise one download into the file; the returned path exists |
| ArchiveTarget.DumpChat.SendMessage | utils/telegram/targets.py:294-308 | with the corrected `DownloadMedia` of the first Findings row: no message changes nothing; otherwise exactly one row `(archive chat, id, text, media path)` is appended; without media nothing else changes; with media the message directory is made, the archive file exists, and one download into it is made and the file added exactly when it did not exist; the earlier `send_message` (utils/telegram.py:371-385) appends the same single row (as written, both raise before the row whenever a download happens) |
| ArchiveTarget.DumpChat.IterMessagesAsWritten | utils/telegram/targets.py:239-258 | as written, an empty table yields nothing, and any other raises `AttributeError` before yielding; the worker-thread `ProgrammingError` of `fetchone` is left out (see below) |
| ArchiveTarget.DumpChat.IterMessages | utils/telegram/targets.py:239-258 | one retrieved message per row, in table order, with the archive's chat id and the row's message id, until the end of the table or the first exception, which is the failing row's |
| ArchiveTarget.DumpChat.ReplayRow | utils/telegram/targets.py:239-241 | a row becomes a fresh retrieved message with the archive's chat id and the row's message id, or the retrieval's exception |
| Targets.GetTarget | utils/telegram/targets.py:311-327 | a path gives a fresh archive on that path with its variant, settings, resolved and written-back chat id, stored rows, friendly name, the store created and a `get_chat` call only when the current code names it through a client; a chat id makes one `get_chat` call, refuses a preview without touching the filesystem, and gives a fresh live chat with its variant, settings, narrowed forward flag, friendly name, stored rows, and its store and target directory created |

## Left out

- The Telegram client's wire behaviour is not modelled: what `offset_id` means, the order and paging of the history, and how copies, uploads and downloads work. The client's answers are parameters, and the calls made are recorded.
- SQLite is modelled as sequences of rows in insertion order. `added_at` is taken as the row's position. SQLite's `current_timestamp` has one-second resolution, so the real query can tie between rows added in the same second and return either. Commits are no-ops.
- The `meta.value` column has text affinity, so a stored chat id is read back as its decimal string. The model keeps it as an integer.
- `asyncio` is not modelled. In particular, `asyncio.run` refuses to start while an event loop is already running in the thread. `retrieve_message` (through `UniversalMessage(..., retrieve=True)`) and `get_friendly_chat_name` for an archive with a client both call it from inside coroutines. The model treats those nested calls as completing.
- Client exceptions other than the modelled ones are not modelled: `FloodWait` and other `RPCError`s from `copy_message`, `send_message`, `download_media` or a `send_<kind>` call, and the `ValueError` that `download_media` raises outside the `try`. On the media path such an exception escapes after the directory was made and the download saved its file, and no row is added. The answer types (`CopyResult`, `DownloadResult`, `SendResult`) have no case for it.
- Shared stores are not modelled: each `TgChat` owns its `rows`, so a sink's rows can never move a source's resume point. In the program two targets share a store when they have the same chat id (the default `chats/<id>/dump.db`, e.g. a chat cloned into itself) or a shared `db_path`; the sink's rows then land in the source's store and move its resume point. With distinct chat ids and default stores the program behaves as the model does.
- Logging, `print`, `time.sleep` and the progress callbacks of `create_callback`, with their float percentages, are not modelled.
- Abstract.RandomSleep: the countdown is counted in whole hundredths of a second. The source subtracts the float 0.01, so its step count can differ by one from `100 * wait` through rounding.
- PyStr.IsSpace: covers the ASCII characters `str.strip` removes, not the Unicode whitespace beyond them.
- LiveTarget.TgChat.SendMediaWithRetry: the source retries by recursion with no bound. The model consumes one client answer per run and reports `OutOfFuel` when the answers run out.
- LiveTarget.TgChat.SendMediaWithRetry: when the scratch directory holds a sub-directory, `os.remove` raises partway through an arbitrary listing order. The model raises before removing anything.
- LiveTarget.TgChat.SendMediaOnce: the earlier code sends the first file `iterdir()` lists. The model sends some file of the directory.
- ArchiveTarget.DumpChat.IterMessagesAsWritten: the connection is opened with sqlite3's default `check_same_thread=True`, and `fetchone` runs on an executor thread (utils/telegram/targets.py:255, utils/telegram.py:334), so the real first fetch raises `ProgrammingError` for every archive, the empty one included. The model runs the fetch on the connection's thread and shows the `AttributeError` that follows.
- ArchiveTarget.DumpChat.IterMessages: the corrected replay also fetches on the connection's thread; the same `ProgrammingError` is left out.
- ArchiveTarget.DumpChat.DownloadMedia: the client's download is taken to write the file at the path it is given.
- The dict branch of `TgChat._get_universal_message` is not modelled, because the history only yields pyrogram messages.
- `Target`'s abstract methods, `utils/client.py`, `utils/cli.py`, `utils/__init__.py`, `clonechat.py` and `constants.py` are not part of this model.

## Findings

| source | as written | input that shows it | evidently intended | confidence | as-written member | corrected member |
|---|---|---|---|---|---|---|
| utils/telegram/targets.py:285-292 | after downloading into `save_path`, the file itself, `save_path.iterdir()` is called on it and raises `NotADirectoryError`; the same code is at utils/telegram.py:362-369 | archiving a message with media whose `Unknown.jpg` file does not exist yet | return the path of the downloaded file, as the docstring says, so that the row is written | high, not executed | ArchiveTarget.DownloadOutcomeAsWritten | ArchiveTarget.DumpChat.DownloadMedia, ArchiveTarget.DumpChat.SendMessage |
| utils/telegram/targets.py:239-258 | rows are `sqlite3.Row` objects because `__init_db` sets `row_factory`, so `isinstance(message, dict)` is false and `message.id` raises `AttributeError`; the same code is at utils/telegram.py:318-337 | replaying an archive holding one row, once `fetchone` runs on the thread that opened the connection (as written it runs on an executor thread, where sqlite3 raises `ProgrammingError` first) | take the dict branch, which the abstract method's docstring describes for archive rows: `UniversalMessage(client, chat_id, row["message_id"])` | high, not executed | ArchiveTarget.DumpChat.IterMessagesAsWritten | ArchiveTarget.DumpChat.IterMessages |
