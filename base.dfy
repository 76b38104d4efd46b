/** The pure helpers of utils/base.py: the file name given to a media
    object, the public URL of a message, and the friendly name printed for a
    chat. */
module Base {
  import opened Common
  import opened PyStr

  // ---------------------------------------------------------------------------
  // get_filename

  /** What `get_filename` reads of a media object: its `file_name`
      (the empty string when the attribute is missing or falsy) and its
      `media_type` attribute, if it has one. */
  datatype MediaAttrs = MediaAttrs(fileName: string, mediaType: Option<string>)

  /** `get_filename`: the media's own file name, or `Unknown.` followed by
      the part of its media type before the first `/` (`jpg` without one). */
  function GetFilename(media: MediaAttrs): (r: string)
    ensures media.fileName != "" ==> r == media.fileName
    ensures media.fileName == "" ==> StartsWith(r, "Unknown.") && '/' !in r[|"Unknown."|..]
  {
    var mediaType := if media.mediaType.Some? then media.mediaType.value else "jpg";
    if media.fileName != "" then media.fileName else "Unknown." + SplitFirst(mediaType, '/')
  }

  lemma {:induction false} SplitFirstOfJoin(a: string, sep: char, b: string)
    requires sep !in a
    ensures SplitFirst(a + [sep] + b, sep) == a
  {
    if a != [] {
      assert (a + [sep] + b)[1..] == a[1..] + [sep] + b;
      SplitFirstOfJoin(a[1..], sep, b);
    }
  }

  /** A media object without a file name gets `Unknown.<type>`, where
      `<type>` is the main part of a `type/subtype` media type. */
  lemma UnnamedMediaFilename(main: string, sub: string)
    requires '/' !in main
    ensures GetFilename(MediaAttrs("", Some(main + "/" + sub))) == "Unknown." + main
  {
    SplitFirstOfJoin(main, '/', sub);
  }

  /** An object with neither attribute (a bare media-kind enum, say) is
      always called `Unknown.jpg`. */
  lemma BareMediaFilename()
    ensures GetFilename(MediaAttrs("", None)) == "Unknown.jpg"
  {
    assert SplitFirst("jpg", '/') == "jpg" by {
      assert "jpg"[1..] == "pg" && "pg"[1..] == "g" && "g"[1..] == "";
    }
  }

  /** The name never holds a `/` the media's own name does not hold, so it
      stays a single path component. */
  lemma FilenameIsOneComponent(media: MediaAttrs)
    requires '/' !in media.fileName
    ensures '/' !in GetFilename(media)
  {
    var r := GetFilename(media);
    if media.fileName == "" {
      assert r == "Unknown." + r[|"Unknown."|..];
    }
  }

  // ---------------------------------------------------------------------------
  // get_message_url

  const UrlPrefix: string := "https://t.me/c/"

  /** `get_message_url`: `https://t.me/c/<chat>/<id>`, where `<chat>` is the
      chat id in decimal with one leading `-100` removed. */
  function GetMessageUrl(chatId: int, messageId: int): (r: string)
    ensures StartsWith(r, UrlPrefix)
  {
    UrlPrefix + RemovePrefix(IntToString(chatId), "-100") + "/" + IntToString(messageId)
  }

  /** A channel or supergroup id is written `-100` followed by the
      channel's own number; its message URLs carry that number alone. */
  lemma ChannelMessageUrl(chatId: int, digits: string, messageId: int)
    requires IntToString(chatId) == "-100" + digits
    ensures GetMessageUrl(chatId, messageId) == UrlPrefix + digits + "/" + IntToString(messageId)
  {
    assert StartsWith(IntToString(chatId), "-100");
  }

  /** A non-negative id (a user or bot) is written whole. */
  lemma UserMessageUrl(chatId: nat, messageId: int)
    ensures GetMessageUrl(chatId, messageId) == UrlPrefix + NatToString(chatId) + "/" + IntToString(messageId)
  {
    var s := NatToString(chatId);
    assert IntToString(chatId) == s;
    assert !StartsWith(s, "-100") by {
      assert '0' <= s[0] <= '9';
      if |s| >= 4 { assert s[..4][0] == s[0]; }
    }
    assert RemovePrefix(IntToString(chatId), "-100") == s;
  }

  /** A negative id not written with `-100` (a basic group) keeps its
      minus sign in the URL. */
  lemma GroupMessageUrl(chatId: int, messageId: int)
    requires chatId < 0 && !StartsWith(IntToString(chatId), "-100")
    ensures GetMessageUrl(chatId, messageId) == UrlPrefix + "-" + NatToString(-chatId) + "/" + IntToString(messageId)
    ensures GetMessageUrl(chatId, messageId)[|UrlPrefix|] == '-'
  {
    assert RemovePrefix(IntToString(chatId), "-100") == "-" + NatToString(-chatId);
  }

  // ---------------------------------------------------------------------------
  // get_friendly_chat_name

  /** The attributes of a chat that `get_friendly_chat_name` reads; a
      missing or falsy text attribute is the empty string, a missing id is None. */
  datatype NameFields = NameFields(firstName: string, lastName: string, title: string,
                                   username: string, id: Option<int>)

  /** The argument of `get_friendly_chat_name`, by the branch it takes. */
  datatype NameTarget =
    | LiveChat(chat: NameFields)              // a TgChat: its chat entity
    | ArchiveWithClient(chat: NameFields)     // a DumpChat with a client: the chat it represents
    | ArchiveWithoutClient(targetId: string)  // a DumpChat without a client: str(target_id)
    | PlainChat(chat: NameFields)             // a pyrogram Chat
    | Unknown(repr: string)                   // anything else: str(target)

  predicate NamesAChat(t: NameTarget)
  {
    t.LiveChat? || t.ArchiveWithClient? || t.PlainChat?
  }

  /** The name before clean-up: first name, ` last`, ` (title)`,
      ` (@username)` for those present, then always ` [id]`. */
  function RawName(c: NameFields): string
  {
    c.firstName
    + (if c.lastName != "" then " " + c.lastName else "")
    + (if c.title != "" then " (" + c.title + ")" else "")
    + (if c.username != "" then " (@" + c.username + ")" else "")
    + " [" + (if c.id.Some? then IntToString(c.id.value) else "Sem ID") + "]"
  }

  /** Reference definition of the friendly name: the raw name with every run
      of spaces collapsed and the ends trimmed, or a `Chat ...` fallback. */
  function FriendlyName(t: NameTarget): string
  {
    match t
    case ArchiveWithoutClient(id) => "Chat " + id
    case Unknown(repr) => "Chat " + repr
    case _ => Strip(Squeeze(RawName(t.chat)))
  }

  /** The collapse loop of `get_friendly_chat_name`: while the name holds a
      double space, replace every double space by one. Each pass shortens
      the name, so the loop ends, and it ends on the squeeze of its input. */
  method CollapseSpaces(s: string) returns (name: string)
    ensures name == Squeeze(s)
    ensures !HasDoubleSpace(name)
  {
    name := s;
    while HasDoubleSpace(name)
      invariant Squeeze(name) == Squeeze(s)
      decreases |name|
    {
      SqueezeAfterReplace(name);
      name := ReplaceDoubleSpaces(name);
    }
    SqueezeFixesNoDoubleSpace(name);
  }

  /** A chat's friendly name has no double space and no whitespace at
      either end. */
  lemma FriendlyNameIsClean(t: NameTarget)
    requires NamesAChat(t)
    ensures !HasDoubleSpace(FriendlyName(t))
    ensures FriendlyName(t) != [] ==>
              !IsSpace(FriendlyName(t)[0]) && !IsSpace(FriendlyName(t)[|FriendlyName(t)| - 1])
  {
    var squeezed := Squeeze(RawName(t.chat));
    SqueezeHasNoDoubleSpace(RawName(t.chat));
    StripTrims(squeezed);
  }

  /** `get_friendly_chat_name`: the fallback for an archive without a client
      or an unknown object, otherwise the raw name collapsed and stripped. */
  method GetFriendlyChatName(t: NameTarget) returns (name: string)
    ensures name == FriendlyName(t)
    ensures t.ArchiveWithoutClient? ==> name == "Chat " + t.targetId
    ensures t.Unknown? ==> name == "Chat " + t.repr
  {
    if t.ArchiveWithoutClient? {
      return "Chat " + t.targetId;
    } else if t.Unknown? {
      return "Chat " + t.repr;
    }
    var raw := RawName(t.chat);
    name := CollapseSpaces(raw);
    name := Strip(name);
  }
}
