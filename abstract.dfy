/** The common part of both targets (utils/telegram/abstract.py and the
    `Target` class of utils/telegram.py): configuration defaults, the paths
    derived from the target id, opening the store, and the randomised pause. */
module Abstract {
  import opened Common
  import opened PyStr
  import opened Files

  /** A target id: a Telegram chat id, or the path of a local archive. */
  datatype TargetRef = ChatRef(id: int) | PathRef(path: FsPath)

  /** `str(target_id)`. */
  function TargetIdString(t: TargetRef): string
  {
    match t
    case ChatRef(id) => IntToString(id)
    case PathRef(p) => PathString(p)
  }

  /** `Path("chats") / str(target_id)`. */
  function TargetPath(t: TargetRef): (p: FsPath)
    ensures t.ChatRef? ==> p == FsPath(false, ["chats", IntToString(t.id)])
    ensures t.PathRef? && !t.path.absolute ==> p == FsPath(false, ["chats"] + t.path.parts)
    ensures t.PathRef? && t.path.absolute ==> p == t.path
  {
    match t
    case ChatRef(id) => Child(Chats(), IntToString(id))
    case PathRef(path) => Join(Chats(), path)
  }

  /** The keyword arguments a target is built with; None when a key is
      absent. A falsy `db_path` counts as absent. */
  datatype ExtraConfigs = ExtraConfigs(
    forwardMessages: Option<bool>,
    reverseMessages: Option<bool>,
    threads: Option<int>,
    sleepRange: Option<(int, int)>,
    sendTextMessages: Option<bool>,
    mediaTypes: Option<seq<string>>,
    dbPath: Option<FsPath>)

  const NoExtras: ExtraConfigs := ExtraConfigs(None, None, None, None, None, None, None)

  /** `media_types`: the list given, or the `MEDIA_TYPES` constant. */
  datatype MediaTypes = DefaultMediaTypes | MediaTypeList(kinds: seq<string>)

  /** The settings only the current `Target` stores. */
  datatype LaterSettings = LaterSettings(threads: int, sleepRange: (int, int),
                                         sendTextMessages: bool, mediaTypes: MediaTypes)

  /** What `Target.__init__` stores besides the client and the id. */
  datatype Settings = Settings(targetPath: FsPath, forwardMessages: bool, reverseMessages: bool,
                               dbPath: FsPath, later: Option<LaterSettings>)

  const DefaultSleepRange: (int, int) := (0, 5)

  function GetOr<T>(o: Option<T>, default: T): T
  {
    if o.Some? then o.value else default
  }

  /** `Target.__init__`: each setting is the keyword argument when given and
      its default otherwise; the store lives in the target's directory
      unless a `db_path` is given. The earlier `Target` keeps only the
      forward and reverse flags and the store path. */
  function InitSettings(v: Variant, t: TargetRef, extra: ExtraConfigs): (s: Settings)
    ensures s.targetPath == TargetPath(t)
    ensures s.forwardMessages <==> extra.forwardMessages == Some(true)
    ensures s.reverseMessages <==> extra.reverseMessages == Some(true)
    ensures extra.dbPath.None? ==> s.dbPath == Child(TargetPath(t), "dump.db")
    ensures extra.dbPath.Some? ==> s.dbPath == extra.dbPath.value
    ensures s.later.None? <==> v == Earlier
    ensures s.later.Some? && extra.threads.None? ==> s.later.value.threads == 1
    ensures s.later.Some? && extra.sleepRange.None? ==> s.later.value.sleepRange == DefaultSleepRange
    ensures s.later.Some? && extra.sendTextMessages.None? ==> !s.later.value.sendTextMessages
    ensures s.later.Some? && extra.mediaTypes.None? ==> s.later.value.mediaTypes == DefaultMediaTypes
    ensures s.later.Some? && extra.threads.Some? ==> s.later.value.threads == extra.threads.value
    ensures s.later.Some? && extra.sleepRange.Some? ==> s.later.value.sleepRange == extra.sleepRange.value
    ensures s.later.Some? && extra.sendTextMessages.Some? ==> s.later.value.sendTextMessages == extra.sendTextMessages.value
    ensures s.later.Some? && extra.mediaTypes.Some? ==> s.later.value.mediaTypes == MediaTypeList(extra.mediaTypes.value)
  {
    var targetPath := TargetPath(t);
    var later :=
      if v == Earlier then None
      else Some(LaterSettings(
        GetOr(extra.threads, 1),
        GetOr(extra.sleepRange, DefaultSleepRange),
        GetOr(extra.sendTextMessages, false),
        if extra.mediaTypes.Some? then MediaTypeList(extra.mediaTypes.value) else DefaultMediaTypes));
    Settings(targetPath,
             GetOr(extra.forwardMessages, false),
             GetOr(extra.reverseMessages, false),
             if extra.dbPath.None? then Child(targetPath, "dump.db") else extra.dbPath.value,
             later)
  }

  /** With no keyword arguments a chat target keeps its store at
      `chats/<id>/dump.db` and forwards nothing. */
  lemma DefaultChatSettings(id: int)
    ensures InitSettings(Current, ChatRef(id), NoExtras)
            == Settings(FsPath(false, ["chats", IntToString(id)]), false, false,
                        FsPath(false, ["chats", IntToString(id), "dump.db"]),
                        Some(LaterSettings(1, (0, 5), false, DefaultMediaTypes)))
  {
  }

  /** `__init_db`: make the store's parent directory, then connect (which
      creates the store file). The connection can be opened because the
      directory was made first. The caller then creates its schema. */
  method InitDb(fs: FileSystem, db: FsPath) returns (connected: bool)
    modifies fs
    ensures connected
    ensures fs.dirs == old(fs.dirs) + Ancestors(Parent(db))
    ensures fs.files == old(fs.files) + {db}
  {
    fs.MakeDirs(Parent(db));
    connected := fs.IsDir(Parent(db));
    if connected {
      fs.WriteFile(db);
    }
  }

  /** How `_random_sleep` ran: the drawn wait in seconds, the number of
      0.01-second pieces slept, and the time left when the loop stopped
      (both in hundredths of a second). */
  datatype Countdown = Countdown(waitSeconds: int, steps: nat, remaining: int)

  lemma MulMono(lo: int, x: int, hi: int, m: int)
    requires lo <= x <= hi && m >= 0
    ensures lo * m <= x * m <= hi * m
  {
    assert (x - lo) * m >= 0;
    assert (hi - x) * m >= 0;
  }

  /** `_random_sleep`: waits `randint(lo, hi) * multiplier` seconds in
      pieces of 0.01 s. `draw` is the value `randint` returned. */
  method RandomSleep(sleepRange: (int, int), multiplier: int, draw: int) returns (r: Result<Countdown>)
    requires sleepRange.0 <= sleepRange.1 ==> sleepRange.0 <= draw <= sleepRange.1
    ensures r.Err? <==> sleepRange.0 > sleepRange.1
    ensures r.Err? ==> r.error == EmptyRange
    ensures r.Ok? ==> r.value.waitSeconds == draw * multiplier
    ensures r.Ok? && multiplier >= 0 ==>
              sleepRange.0 * multiplier <= r.value.waitSeconds <= sleepRange.1 * multiplier
    ensures r.Ok? ==> r.value.remaining <= 0
    ensures r.Ok? ==> r.value.steps == if r.value.waitSeconds > 0 then 100 * r.value.waitSeconds else 0
    ensures r.Ok? ==> r.value.remaining == 100 * r.value.waitSeconds - r.value.steps
  {
    if sleepRange.0 > sleepRange.1 {
      return Err(EmptyRange);
    }
    var wait := draw * multiplier;
    if multiplier >= 0 {
      MulMono(sleepRange.0, draw, sleepRange.1, multiplier);
    }
    var timeToSleep := 100 * wait;
    var steps: nat := 0;
    while timeToSleep > 0
      invariant timeToSleep == 100 * wait - steps
      invariant wait <= 0 ==> steps == 0
      invariant wait > 0 ==> steps <= 100 * wait
      decreases timeToSleep
    {
      timeToSleep := timeToSleep - 1;
      steps := steps + 1;
    }
    return Ok(Countdown(wait, steps, timeToSleep));
  }
}
