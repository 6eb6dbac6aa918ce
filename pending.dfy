/** The record kept for a commit until its CI build reports back (models/pending.py). */
module Pending {
  import opened Wrappers

  /** An opaque handle on the Telegram bot object that sends the notification. */
  type BotHandle = nat

  datatype PendingBuild = PendingBuild(
    userId: int,
    domain: string,
    chatId: int,
    bot: BotHandle,
    messageThreadId: Option<int> := None)
}
