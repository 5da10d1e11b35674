/**
 * What the migration engine sees of the message transport: the items a source
 * yields, the scripted outcome of forwarding each one, new-message
 * notifications, and the effects the engine performs (transport calls, prompts,
 * ledger writes, pauses), which it records in order in a trace.
 */
module Transport {
  import opened Wrappers

  /** A calendar date as the date picker returns it. */
  datatype Date = Date(year: int, month: int, day: int)

  /** A timestamp; `datetime.combine(d, time.min)` is `DateTime(d, 0, 0, 0, 0)`. */
  datatype DateTime = DateTime(date: Date, hour: nat, minute: nat, second: nat, microsecond: nat)

  /** Where an enumeration of a source's history starts: at a fixed date
      (`offset_date`) or just after a message id (`offset_id`). */
  datatype StartPoint = FromDate(date: DateTime) | AfterId(id: int)

  /** The scripted result of one forwarding attempt: success, a rate-limit
      signal carrying the number of time units to wait, or any other error. */
  datatype ForwardResult = Forwarded | FloodWait(seconds: nat) | Failed

  /** A message of a source: its id, whether it is a service message, and what
      forwarding it will do. */
  datatype Item = Item(id: int, isService: bool, outcome: ForwardResult)

  /** A new-message notification in live tail: the message, its `chat_id`
      (absent or zero when the transport did not fill it in) and the
      `channel_id` of its peer, if any. */
  datatype Notification = Notification(item: Item, chatId: Option<int>, channelId: Option<int>)

  /** The three questions the interactive prompt can be asked. */
  datatype PromptKind = PhonePrompt | CodePrompt | PasswordPrompt

  /** One externally visible effect of the engine, in the order performed. */
  datatype Event =
    | Connect
    | Disconnect
    | CheckAuthorized
    | Prompt(kind: PromptKind)
    | SendCode(phone: string)
    | SignInWithCode(phone: string, code: string)
    | SignInWithPassword(password: string)
    | Enumerate(source: int, start: StartPoint)
    | Forward(target: int, id: int)
    | Recorded(key: string, id: int)
    | Sleep(units: nat)
    | Subscribe(sources: seq<int>)
    | Unsubscribe
}
