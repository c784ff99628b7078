/**
 * The chat stub: a list of messages that only grows. Sending appends the
 * user's message at once and schedules a canned bot reply; the reply is
 * appended later, when its timer fires, as a separate `DeliverReply` step
 * that carries what the send captured.
 */
module Chat {
  import opened Wrappers
  import opened Text

  datatype Message = Message(id: int, text: string, isUser: bool)

  /** The one message the chat starts with. */
  const Welcome: Message := Message(1, "欢迎来到聊天室，有什么我可以帮助你的吗？", false)

  const ReplyPrefix: string := "我收到了你的消息：\""
  const ReplySuffix: string := "\"。这是一个自动回复。"

  /** The bot's canned reply, quoting the user's message. */
  function ReplyText(input: string): (r: string)
    ensures |r| == |ReplyPrefix| + |input| + |ReplySuffix|
    ensures r[..|ReplyPrefix|] == ReplyPrefix
    ensures r[|ReplyPrefix|..|ReplyPrefix| + |input|] == input
  {
    ReplyPrefix + input + ReplySuffix
  }

  /** The quoted message inside a canned reply, if `r` is one. */
  function QuotedText(r: string): (q: Option<string>)
    ensures q.Some? ==> |q.value| + |ReplyPrefix| + |ReplySuffix| == |r|
    ensures q.Some? ==> ReplyText(q.value) == r
  {
    if |r| >= |ReplyPrefix| + |ReplySuffix|
       && r[..|ReplyPrefix|] == ReplyPrefix
       && r[|r| - |ReplySuffix|..] == ReplySuffix
    then Some(r[|ReplyPrefix|..|r| - |ReplySuffix|])
    else None
  }

  /** A reply quotes exactly the message it answers, so different messages get
      different replies. */
  lemma QuotedTextOfReply(input: string)
    ensures QuotedText(ReplyText(input)) == Some(input)
  {
    var r := ReplyText(input);
    assert r[|r| - |ReplySuffix|..] == ReplySuffix;
    assert r[|ReplyPrefix|..|r| - |ReplySuffix|] == input;
  }

  /** A string from which no quotation can be extracted is no canned reply. */
  lemma NoQuoteMeansNoReply(r: string)
    requires QuotedText(r) == None
    ensures forall input :: ReplyText(input) != r
  {
    forall input ensures ReplyText(input) != r {
      QuotedTextOfReply(input);
    }
  }

  /** What the deferred reply captured when the user sent: the length of the
      message list at that moment and the text sent. */
  datatype PendingReply = PendingReply(sentLength: nat, sentInput: string)

  class ChatPage {
    var messages: seq<Message>
    var input: string

    /** Message `i` (from 0) has id `i + 1`. */
    ghost predicate IdsInOrder()
      reads this
    {
      forall i :: 0 <= i < |messages| ==> messages[i].id == i + 1
    }

    /** The send button is enabled. */
    predicate SendEnabled()
      reads this
    {
      Trim(input) != []
    }

    constructor ()
      ensures messages == [Welcome] && input == ""
      ensures IdsInOrder()
    {
      messages := [Welcome];
      input := "";
    }

    /** The input box's `onChange`. */
    method SetInput(value: string)
      modifies this`input
      ensures input == value
    {
      input := value;
    }

    /** `handleSend`: a blank input is ignored. Otherwise the user's message,
        numbered one past the list's length, is appended, the box is cleared,
        and the bot reply is scheduled with the length and the text as they
        were at this moment. */
    method Send() returns (pending: Option<PendingReply>)
      modifies this`messages, this`input
      ensures IsBlank(old(input)) ==> pending == None && messages == old(messages) && input == old(input)
      ensures !IsBlank(old(input)) ==>
                && messages == old(messages) + [Message(|old(messages)| + 1, old(input), true)]
                && input == ""
                && pending == Some(PendingReply(|old(messages)|, old(input)))
      ensures old(IdsInOrder()) ==> IdsInOrder()
    {
      TrimEmptyIffBlank(input);
      if Trim(input) == [] {
        return None;
      }
      var sentLength := |messages|;
      var sentInput := input;
      messages := messages + [Message(sentLength + 1, sentInput, true)];
      input := "";
      pending := Some(PendingReply(sentLength, sentInput));
    }

    /** The Enter key sends; other keys do nothing here. */
    method KeyPress(key: string) returns (pending: Option<PendingReply>)
      modifies this`messages, this`input
      ensures key != "Enter" ==> pending == None && messages == old(messages) && input == old(input)
      ensures key == "Enter" && IsBlank(old(input)) ==> pending == None && messages == old(messages) && input == old(input)
      ensures key == "Enter" && !IsBlank(old(input)) ==>
                && messages == old(messages) + [Message(|old(messages)| + 1, old(input), true)]
                && input == ""
                && pending == Some(PendingReply(|old(messages)|, old(input)))
    {
      pending := None;
      if key == "Enter" {
        pending := Send();
      }
    }

    /** The bot reply's timer fires: one bot message, numbered two past the
        length captured at send time, quoting the text sent. Ids stay in order
        when the reply arrives before anything else was sent. */
    method DeliverReply(p: PendingReply)
      modifies this`messages
      ensures messages == old(messages) + [Message(p.sentLength + 2, ReplyText(p.sentInput), false)]
      ensures old(IdsInOrder()) && p.sentLength + 1 == |old(messages)| ==> IdsInOrder()
    {
      messages := messages + [Message(p.sentLength + 2, ReplyText(p.sentInput), false)];
    }
  }

  /** The send button is enabled exactly when the input is not all whitespace. */
  lemma SendEnabledIffNotBlank(c: ChatPage)
    ensures c.SendEnabled() <==> !IsBlank(c.input)
  {
    TrimEmptyIffBlank(c.input);
  }

  /** Two sends before the first reply arrives give two messages the same id:
      the first reply is numbered from the length at its send, which the second
      send has since used. */
  method InterleavedRepliesRepeatAnId(x: string, y: string) returns (ids: seq<int>)
    requires !IsBlank(x) && !IsBlank(y)
    ensures ids == [1, 2, 3, 3, 4]
  {
    var c := new ChatPage();
    c.SetInput(x);
    var first := c.Send();
    c.SetInput(y);
    var second := c.Send();
    assert first == Some(PendingReply(1, x)) && second == Some(PendingReply(2, y));
    var userIds := [c.messages[0].id, c.messages[1].id, c.messages[2].id];
    c.DeliverReply(first.value);
    c.DeliverReply(second.value);
    ids := userIds + [c.messages[3].id, c.messages[4].id];
  }
}
