/** `UniversalMessage` (utils/telegram/message.py, and its copy at the top
    of utils/telegram.py): the normalised message both targets produce and
    consume. */
module Messages {
  import opened Common
  import opened Remote

  /** A keyword argument beyond the named parameters: `message=...`, or
      some other name, which only adds an attribute the core never reads. */
  datatype Kwarg = MessageArg(message: Option<TgMessage>) | OtherArg(name: string)

  /** The `message` attribute after the `setattr` loop over the keyword
      arguments, starting from `initial`. */
  function MessageAfterKwargs(initial: Option<TgMessage>, kw: seq<Kwarg>): Option<TgMessage>
  {
    if kw == [] then initial
    else if kw[|kw| - 1].MessageArg? then kw[|kw| - 1].message
    else MessageAfterKwargs(initial, kw[..|kw| - 1])
  }

  /** The last `message=` keyword argument overrides the default. */
  lemma {:induction false} LastMessageArgWins(initial: Option<TgMessage>, kw: seq<Kwarg>, i: nat)
    requires i < |kw| && kw[i].MessageArg?
    requires forall j | i < j < |kw| :: !kw[j].MessageArg?
    ensures MessageAfterKwargs(initial, kw) == kw[i].message
  {
    if i < |kw| - 1 {
      LastMessageArgWins(initial, kw[..|kw| - 1], i);
    }
  }

  /** Without a `message=` keyword argument the default stays. */
  lemma {:induction false} NoMessageArgKeepsDefault(initial: Option<TgMessage>, kw: seq<Kwarg>)
    requires forall j | 0 <= j < |kw| :: !kw[j].MessageArg?
    ensures MessageAfterKwargs(initial, kw) == initial
  {
    if kw != [] {
      NoMessageArgKeepsDefault(initial, kw[..|kw| - 1]);
    }
  }

  /** The message `retrieve_message` keeps from what `get_messages`
      returned: the message itself, or the first of a list; None for an
      empty list, on which it raises IndexError. */
  function FirstFetched(f: Fetched): Option<TgMessage>
  {
    match f
    case OneMessage(m) => Some(m)
    case MessageList(ms) => if ms == [] then None else Some(ms[0])
  }

  class UniversalMessage {
    const client: Client
    var chatId: int
    var messageId: int
    var message: Option<TgMessage>
    var canForward: bool

    /** `__init__` with `retrieve=False`: the named fields, `message = None`,
        then each keyword argument in turn. */
    constructor (client: Client, chatId: int, messageId: int, canForward: bool, kw: seq<Kwarg>)
      ensures this.client == client
      ensures this.chatId == chatId && this.messageId == messageId && this.canForward == canForward
      ensures message == MessageAfterKwargs(None, kw)
    {
      this.client := client;
      this.chatId := chatId;
      this.messageId := messageId;
      this.message := None;
      this.canForward := canForward;
      new;
      var i := 0;
      while i < |kw|
        invariant 0 <= i <= |kw|
        invariant this.chatId == chatId && this.messageId == messageId && this.canForward == canForward
        invariant message == MessageAfterKwargs(None, kw[..i])
      {
        assert kw[..i + 1][..i] == kw[..i];
        if kw[i].MessageArg? {
          message := kw[i].message;
        }
        i := i + 1;
      }
      assert kw[..|kw|] == kw;
    }

    /** `retrieve_message`: look the chat up (a preview raises ValueError),
        take `can_forward` from its protection flag, then fetch the message. */
    method RetrieveMessage(lookup: ChatLookup, fetched: Fetched) returns (err: Option<Error>)
      modifies this, client
      ensures chatId == old(chatId) && messageId == old(messageId)
      ensures lookup.Preview? ==> err == Some(NotAMember)
      ensures lookup.Preview? ==> canForward == old(canForward) && message == old(message)
      ensures lookup.Preview? ==> client.calls == old(client.calls) + [GetChat(chatId)]
      ensures lookup.Member? ==> canForward == !lookup.chat.hasProtectedContent
      ensures lookup.Member? ==>
                client.calls == old(client.calls) + [GetChat(chatId), GetMessages(lookup.chat.id, messageId)]
      ensures lookup.Member? && FirstFetched(fetched).Some? ==> err == None && message == FirstFetched(fetched)
      ensures lookup.Member? && FirstFetched(fetched).None? ==> err == Some(IndexOutOfRange) && message == old(message)
    {
      client.Record(GetChat(chatId));
      if lookup.Preview? {
        return Some(NotAMember);
      }
      canForward := !lookup.chat.hasProtectedContent;
      client.Record(GetMessages(lookup.chat.id, messageId));
      var first := FirstFetched(fetched);
      if first.None? {
        return Some(IndexOutOfRange);
      }
      message := first;
      return None;
    }
  }

  /** `UniversalMessage(client, chat_id, message_id, retrieve, can_forward, **kw)`:
      the fields, then, only when `retrieve` is set, `retrieve_message`,
      whose exception escapes the constructor. */
  method NewUniversalMessage(client: Client, chatId: int, messageId: int, retrieve: bool,
                             canForward: bool, kw: seq<Kwarg>, lookup: ChatLookup, fetched: Fetched)
    returns (r: Result<UniversalMessage>)
    modifies client
    ensures r.Ok? ==> fresh(r.value) && r.value.client == client
    ensures r.Ok? ==> r.value.chatId == chatId && r.value.messageId == messageId
    ensures !retrieve ==> r.Ok? && client.calls == old(client.calls)
    ensures !retrieve ==> r.value.canForward == canForward && r.value.message == MessageAfterKwargs(None, kw)
    ensures retrieve && lookup.Preview? ==> r == Err(NotAMember)
    ensures retrieve && lookup.Preview? ==> client.calls == old(client.calls) + [GetChat(chatId)]
    ensures retrieve && lookup.Member? ==>
              client.calls == old(client.calls) + [GetChat(chatId), GetMessages(lookup.chat.id, messageId)]
    ensures retrieve && lookup.Member? && FirstFetched(fetched).None? ==> r == Err(IndexOutOfRange)
    ensures retrieve && lookup.Member? && FirstFetched(fetched).Some? ==>
              r.Ok? && r.value.canForward == !lookup.chat.hasProtectedContent
              && r.value.message == FirstFetched(fetched)
  {
    var u := new UniversalMessage(client, chatId, messageId, canForward, kw);
    if !retrieve {
      return Ok(u);
    }
    var err := u.RetrieveMessage(lookup, fetched);
    if err.Some? {
      return Err(err.value);
    }
    return Ok(u);
  }
}
