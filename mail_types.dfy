/** The records the remote mailbox service hands out (types.ts). */
module MailTypes {
  import opened Wrappers

  /** A disposable mailbox: identity, address and the bearer token for inbox calls. */
  datatype Account = Account(id: string, address: string, token: string, password: Option<string>)

  /** A sender or recipient. */
  datatype Mailbox = Mailbox(address: string, name: string)

  /**
   * A message summary as listed by the service. `createdAt` is the creation
   * time as an integer key (milliseconds since the epoch).
   */
  datatype Message = Message(
    id: string,
    from: Mailbox,
    to: seq<Mailbox>,
    subject: string,
    intro: string,
    seen: bool,
    createdAt: int)

  /** A fetched message: its summary fields plus the HTML parts and the plain-text body. */
  datatype MessageDetails = MessageDetails(summary: Message, html: seq<string>, text: string)
}
