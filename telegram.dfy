/**
 * The one Telegram Bot API call the model records: `send_message`, as the
 * keyword arguments the handlers assemble before calling it.
 */
module Telegram {
  import opened Wrappers

  datatype SendMessage = SendMessage(
    chatId: int,
    text: string,
    parseMode: Option<string>,
    threadId: Option<int>)

  /** Python truthiness of an optional integer: neither `None` nor `0`. */
  predicate IsSet(x: Option<int>) {
    x.Some? && x.value != 0
  }

  /**
   * The `message_thread_id` keyword: added only when the configured topic is
   * truthy, and then equal to it.
   */
  function ThreadArgument(topic: Option<int>): (r: Option<int>)
    ensures r.Some? <==> IsSet(topic)
    ensures r.Some? ==> r == topic
  {
    if IsSet(topic) then topic else None
  }

  /**
   * The request a sender makes for `text`: nothing when the target chat is
   * unset, otherwise a message to it, in the given topic only when that is set.
   */
  function SendIfConfigured(chat: Option<int>, topic: Option<int>, text: string, parseMode: Option<string>): (r: Option<SendMessage>)
    ensures r.Some? <==> IsSet(chat)
    ensures r.Some? ==> r.value.chatId == chat.value && r.value.text == text && r.value.parseMode == parseMode
    ensures r.Some? ==> (r.value.threadId.Some? <==> IsSet(topic))
    ensures r.Some? && IsSet(topic) ==> r.value.threadId == topic
  {
    if IsSet(chat) then Some(SendMessage(chat.value, text, parseMode, ThreadArgument(topic))) else None
  }
}
