/** Inbound events of the three kinds a user produces: a button click, typed
    text, and a shared location. */
module Events {
  import opened Wrappers
  import opened Messages

  const PAGE := User("page")

  /** A click on a button whose payload is `payload`. */
  function PostbackEvent(sender: string, payload: string): Messaging
  {
    Messaging(User(sender), PAGE, 0, Message("", "", None, None, None), Some(PostBack("", payload)), None)
  }

  /** Typed text; the attachments list is present and empty. */
  function TextEvent(sender: string, text: string): Messaging
  {
    Messaging(User(sender), PAGE, 0, Message("", text, None, Some([]), None), None, None)
  }

  /** Typed text as the platform usually sends it: no attachments list at
      all, which decodes to a nil pointer. */
  function BareTextEvent(sender: string, text: string): Messaging
  {
    Messaging(User(sender), PAGE, 0, Message("", text, None, None, None), None, None)
  }

  /** A shared location: one attachment carrying the coordinates. */
  function LocationEvent(sender: string, c: Coordinates): Messaging
  {
    var attachment := Attachment("location", EmptyPayload.(coordinates := Some(c)));
    Messaging(User(sender), PAGE, 0, Message("", "", None, Some([attachment]), None), None, None)
  }
}
