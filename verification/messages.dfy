/** The Messenger platform's message shapes and the response composers of
    facebook/message.go. The Go `Response` is one struct whose optional
    pointers stand in for several template shapes; it is kept as that one
    struct here, with nil pointers as `None`. */
module Messages {
  import opened Wrappers
  import opened Honestbee

  datatype User = User(id: string)

  datatype QuickReply = QuickReply(contentType: string, payload: string)

  datatype Coordinates = Coordinates(lat: Float32, long: Float32)

  datatype DefaultAction = DefaultAction(kind: string, url: string, messengerExtensions: bool,
                                         webviewHeightRatio: string)

  datatype Button = Button(title: string, kind: string, url: string, messengerExtensions: bool,
                           webviewHeightRatio: string, fallbackUrl: string, payload: string)

  datatype Element = Element(title: string, subtitle: string, imageUrl: string,
                             buttons: Option<seq<Button>>, defaultAction: Option<DefaultAction>)

  datatype Payload = Payload(url: string, text: string, templateType: string, topElementStyle: string,
                             coordinates: Option<Coordinates>, elements: Option<seq<Element>>,
                             buttons: Option<seq<Button>>)

  datatype Attachment = Attachment(kind: string, payload: Payload)

  datatype Message = Message(mid: string, text: string, quickReplies: Option<seq<QuickReply>>,
                             attachments: Option<seq<Attachment>>, attachment: Option<Attachment>)

  datatype PostBack = PostBack(title: string, payload: string)

  datatype AccountLinking = AccountLinking(authorizationCode: string, status: string)

  /** One inbound webhook event. The postback and account-link callbacks are
      optional, as the routers test them against nil. */
  datatype Messaging = Messaging(sender: User, recipient: User, timestamp: int, message: Message,
                                 postBack: Option<PostBack>, accountLinking: Option<AccountLinking>)

  datatype Response = Response(recipient: User, message: Message)

  datatype ActionResponse = ActionResponse(recipient: User, senderAction: string)

  /** Go's zero values for the fields a composer leaves unset. */
  const EmptyPayload := Payload("", "", "", "", None, None, None)

  function EmptyMessage(text: string): Message
  {
    Message("", text, None, None, None)
  }

  /** A button whose click posts `payload` back to the bot. */
  function PostbackButton(title: string, payload: string): Button
  {
    Button(title, "postback", "", false, "", "", payload)
  }

  /** The "typing" indicator shown to the sender while the reply is prepared. */
  function SenderTypingAction(event: Messaging): (a: ActionResponse)
    ensures a.recipient.id == event.sender.id
    ensures a.senderAction == "typing_on"
  {
    ActionResponse(User(event.sender.id), "typing_on")
  }

  /** What scanning the attachments for coordinates finds. `NilAttachments` is the
      nil dereference of an absent attachments list. */
  datatype LocationScan = NilAttachments | NotFound | Found(coordinates: Coordinates)

  /** The coordinates of the first attachment that has any. */
  function FirstCoordinates(attachments: seq<Attachment>): (c: Option<Coordinates>)
    ensures c.None? <==> forall i | 0 <= i < |attachments| :: attachments[i].payload.coordinates.None?
    ensures c.Some? ==> exists i | 0 <= i < |attachments| ::
                          && attachments[i].payload.coordinates == c
                          && forall j | 0 <= j < i :: attachments[j].payload.coordinates.None?
    decreases |attachments|
  {
    if |attachments| == 0 then None
    else if attachments[0].payload.coordinates.Some? then attachments[0].payload.coordinates
    else
      var c := FirstCoordinates(attachments[1..]);
      assert forall i | 1 <= i < |attachments| :: attachments[i] == attachments[1..][i - 1];
      c
  }

  /** `ParseLocation`: ranges over the attachments list without a nil check. */
  function ParseLocation(event: Messaging): (scan: LocationScan)
    ensures scan.NilAttachments? <==> event.message.attachments.None?
    ensures event.message.attachments.Some? ==>
              (scan.NotFound? <==> forall i | 0 <= i < |event.message.attachments.value| ::
                                     event.message.attachments.value[i].payload.coordinates.None?)
    ensures scan.Found? ==>
              exists i | 0 <= i < |event.message.attachments.value| ::
                && event.message.attachments.value[i].payload.coordinates == Some(scan.coordinates)
                && forall j | 0 <= j < i :: event.message.attachments.value[j].payload.coordinates.None?
  {
    match event.message.attachments
    case None => NilAttachments
    case Some(atts) =>
      match FirstCoordinates(atts)
      case None => NotFound
      case Some(c) => Found(c)
  }

  /** One postback button per service, titled and keyed by its type. */
  function ServiceButtons(services: seq<Service>): (buttons: seq<Button>)
    ensures |buttons| == |services|
    ensures forall i | 0 <= i < |services| ::
              buttons[i] == PostbackButton(services[i].serviceType, services[i].serviceType)
    decreases |services|
  {
    if |services| == 0 then []
    else [PostbackButton(services[0].serviceType, services[0].serviceType)] + ServiceButtons(services[1..])
  }

  const SERVICES_TEXT := "These are the available services"

  /** The button template listing every service, available or not. */
  function ComposeServicesButton(psid: string, services: seq<Service>): (r: Response)
    ensures r.recipient.id == psid
    ensures r.message == EmptyMessage("").(attachment := r.message.attachment)
    ensures r.message.attachment.Some?
    ensures r.message.attachment.value.kind == "template"
    ensures r.message.attachment.value.payload.templateType == "button"
    ensures r.message.attachment.value.payload.text == SERVICES_TEXT
    ensures r.message.attachment.value.payload.buttons.Some?
    ensures |r.message.attachment.value.payload.buttons.value| == |services|
    ensures forall i | 0 <= i < |services| ::
              var b := r.message.attachment.value.payload.buttons.value[i];
              b.kind == "postback" && b.title == services[i].serviceType && b.payload == services[i].serviceType
  {
    var payload := EmptyPayload.(templateType := "button", text := SERVICES_TEXT,
                                 buttons := Some(ServiceButtons(services)));
    Response(User(psid), EmptyMessage("").(attachment := Some(Attachment("template", payload))))
  }

  const LOCATION_PROMPT := "Please tell me your location"

  /** The prompt asking the sender to share a location with one quick reply. */
  function ComposeLocation(event: Messaging): (r: Response)
    ensures r.recipient.id == event.sender.id
    ensures r.message.text == LOCATION_PROMPT
    ensures r.message.quickReplies.Some?
    ensures |r.message.quickReplies.value| == 1
    ensures r.message.quickReplies.value[0].contentType == "location"
    ensures r.message.quickReplies.value[0].payload == ""
    ensures r.message == EmptyMessage(LOCATION_PROMPT).(quickReplies := r.message.quickReplies)
  {
    Response(User(event.sender.id),
             EmptyMessage(LOCATION_PROMPT).(quickReplies := Some([QuickReply("location", "")])))
  }

  /** A plain text reply. */
  function ComposeText(senderId: string, message: string): (r: Response)
    ensures r.recipient.id == senderId
    ensures r.message.text == message
    ensures r.message.quickReplies.None?
    ensures r.message.attachment.None? && r.message.attachments.None?
  {
    Response(User(senderId), EmptyMessage(message))
  }

  const COLLECTION_IMAGE := "https://peterssendreceiveapp.ngrok.io/img/collection.png"

  /** The one "View" button both brand-list elements share. */
  const ViewButton := Button("View", "web_url", "https://peterssendreceiveapp.ngrok.io/collection", true, "tall",
                             "https://peterssendreceiveapp.ngrok.io/", "")

  const BrandListElements := [
    Element("Classic T-Shirt Collection", "See all our colors", COLLECTION_IMAGE, Some([ViewButton]), None),
    Element("Classic Blue T-Shirt", "100% Cotton, 200% Comfortable", COLLECTION_IMAGE, Some([ViewButton]), None)
  ]

  /** The compact list template with its two fixed elements. */
  function ComposeBrandList(event: Messaging): (r: Response)
    ensures r.recipient.id == event.sender.id
    ensures r.message.attachment.Some?
    ensures r.message.attachment.value.kind == "template"
    ensures r.message.attachment.value.payload.templateType == "list"
    ensures r.message.attachment.value.payload.topElementStyle == "compact"
    ensures r.message.attachment.value.payload.elements == Some(BrandListElements)
    ensures r.message == EmptyMessage("").(attachment := r.message.attachment)
    ensures var p := r.message.attachment.value.payload;
            p.buttons.None? && p.text == "" && p.url == "" && p.coordinates.None?
  {
    var payload := EmptyPayload.(templateType := "list", topElementStyle := "compact",
                                 elements := Some(BrandListElements));
    Response(User(event.sender.id), EmptyMessage("").(attachment := Some(Attachment("template", payload))))
  }

  /** The brand list does not depend on the event beyond its sender. */
  lemma BrandListIgnoresInput(e1: Messaging, e2: Messaging)
    ensures ComposeBrandList(e1).message == ComposeBrandList(e2).message
    ensures e1.sender == e2.sender ==> ComposeBrandList(e1) == ComposeBrandList(e2)
  {
  }
}
