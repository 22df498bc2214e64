// The conversation state machine of handlers.go, as functions from the state
// before an update to the state after it. The state is the store's tables,
// the per-user dialog map `inFlight` (user id to state string) and the
// outbox: every message the bot sends, in order, tagged by what it says.
module Flow {
  import opened GoStrings
  import opened Models
  import opened Store

  // ---------------------------------------------------------------- inputs

  /** One entry of a Telegram message's photo list (sizes come smallest first). */
  datatype PhotoSize = PhotoSize(fileId: string, width: int, height: int)

  /**
   * A Telegram message: `command` is Some(name) when the message starts with a
   * bot command (msg.IsCommand() and msg.Command()). The handlers read `text`
   * only; `caption` is where Telegram puts the words sent with a photo.
   */
  datatype Message = Message(
    chatId: int,
    fromId: int,
    fromUserName: string,
    command: Option<string>,
    text: string,
    caption: string,
    photos: seq<PhotoSize>)

  /** How the Bot API delivers a photo: its words in the caption, the text empty. */
  predicate TelegramShaped(m: Message) {
    m.photos != [] ==> m.text == []
  }

  /** A button press: `data` is the payload of the pressed button. */
  datatype Callback = Callback(queryId: string, fromId: int, chatId: int, data: string)

  datatype Update = Update(message: Option<Message>, callback: Option<Callback>)

  /** The three group chats orders are posted to (DESIGN/PROGRAMMING/CONTENT_GROUP_ID). */
  datatype Groups = Groups(design: int, programming: int, content: int)

  // ---------------------------------------------------------------- outputs

  /** What a sent message says; the Russian wording is not modelled. */
  datatype Notice =
    | ChooseRole
    | NoActiveOrder
    | OrderRemoved
    | ProfileNotFound
    | ProfileCard(username: string, description: string)
    | UnknownCommand
    | DescriptionLength
    | ProfileSaveFailed
    | ProfileSaved
    | DescribeTaskAgain
    | AlreadyHasOrder
    | OrderPosted
    | PressStart
    | DescribeProfile
    | ChooseCategory
    | DescribeTask
    | NewOrder(orderId: int, category: string, text: string, creatorId: int)
    | ConfirmComplaint
    | ComplaintFailed
    | ComplaintAccepted(count: int)
    | RemovedByComplaints
    | ComplaintWarning(count: int)
    | ComplaintCancelled
    | OrderNotFound
    | AcceptedBy(connectorId: int)
    | Connected

  /**
   * One call into the Telegram API: a callback acknowledgement, a text message
   * with the payloads of its inline buttons (empty when it has none), or a photo.
   */
  datatype Outgoing =
    | Ack(queryId: string)
    | Text(chatId: int, notice: Notice, buttons: seq<string>)
    | Photo(chatId: int, fileId: string)

  datatype World = World(data: Data, inFlight: map<int, string>, outbox: seq<Outgoing>)

  // ---------------------------------------------------------------- constants

  const ProfileState := "creating_profile"
  const OrderStatePrefix := "creating_order:"
  const MinDescription := 150
  const MaxDescription := 200
  const WarnThreshold := 7
  const DeleteThreshold := 10
  /** startKeyboard's payloads. */
  const StartButtons := ["role:executor", "role:client"]
  /** categoriesKeyboard's payloads; "back:to_start" has no handler. */
  const CategoryButtons := ["cat:design", "cat:programming", "cat:content", "back:to_start"]

  // ---------------------------------------------------------------- conversation state strings

  datatype Phase = Idle | CreatingProfile | CreatingOrder(category: string)

  /** A missing entry reads as Go's zero value, the empty string. */
  function StateOf(inFlight: map<int, string>, userId: int): string {
    if userId in inFlight then inFlight[userId] else ""
  }

  /** The category of "creating_order:<cat>": strings.Split(state, ":")[1]. */
  function CategoryOf(state: string): (cat: string)
    requires HasPrefix(state, OrderStatePrefix)
    ensures ':' !in cat
  {
    assert OrderStatePrefix == "creating_order" + [':'];
    SplitAfterHead(state, "creating_order", ':');
    Split(state, ':')[1]
  }

  /** The tests handleMessage applies to the state string, in its order. */
  function DecodeState(state: string): Phase {
    if state == ProfileState then CreatingProfile
    else if HasPrefix(state, OrderStatePrefix) then CreatingOrder(CategoryOf(state))
    else Idle
  }

  /** The strings handleCallback stores; Idle is the absent entry. */
  function EncodeState(p: Phase): string {
    match p
    case Idle => ""
    case CreatingProfile => ProfileState
    case CreatingOrder(cat) => OrderStatePrefix + cat
  }

  /** What a state string may be: the profile state, or the order prefix and a colon-free category. */
  predicate IsConversationState(s: string) {
    s == ProfileState || (HasPrefix(s, OrderStatePrefix) && ':' !in s[|OrderStatePrefix|..])
  }

  ghost predicate StatesWellFormed(inFlight: map<int, string>) {
    forall u :: u in inFlight ==> IsConversationState(inFlight[u])
  }

  /** The string handleCallback stores for "cat:<cat>" is a well-formed conversation state. */
  lemma OrderStateIsWellFormed(cat: string)
    requires ':' !in cat
    ensures IsConversationState(OrderStatePrefix + cat)
  {
    assert (OrderStatePrefix + cat)[|OrderStatePrefix|..] == cat;
  }

  // ---------------------------------------------------------------- callback payloads

  /** The three id-carrying prefixes, as the two fields and separators SplitThird takes. */
  lemma IdPrefixes()
    ensures "order:connect:" == "order" + [':'] + "connect" + [':']
    ensures "order:complain:" == "order" + [':'] + "complain" + [':']
    ensures "complain:confirm:" == "complain" + [':'] + "confirm" + [':']
  {
  }

  /** strings.Split(data, ":")[1] for a "cat:" payload. */
  function CategoryField(data: string): (cat: string)
    requires HasPrefix(data, "cat:")
    ensures ':' !in cat
  {
    assert "cat:" == "cat" + [':'];
    SplitAfterHead(data, "cat", ':');
    Split(data, ':')[1]
  }

  lemma SplitThird(data: string, a: string, b: string)
    requires ':' !in a && ':' !in b && HasPrefix(data, a + [':'] + b + [':'])
    ensures |Split(data, ':')| >= 3
    ensures Split(data, ':')[2] == Split(data[|a| + |b| + 2..], ':')[0]
  {
    assert HasPrefix(data, a + [':']) by {
      assert data[..|a| + 1] == (a + [':'] + b + [':'])[..|a| + 1];
    }
    SplitAfterHead(data, a, ':');
    var rest := data[|a| + 1..];
    assert HasPrefix(rest, b + [':']) by {
      assert rest[..|b| + 1] == data[|a| + 1..|a| + |b| + 2];
    }
    SplitAfterHead(rest, b, ':');
    assert rest[|b| + 1..] == data[|a| + |b| + 2..];
  }

  /**
   * The id of an "<a>:<b>:<id>" payload: strconv.ParseInt(strings.Split(data, ":")[2], 10, 64)
   * with the error dropped. The payload guard of each branch (SplitThird) makes the third field exist.
   */
  function IdField(data: string): (id: int)
    requires |Split(data, ':')| >= 3
    ensures IsInt64(id)
  {
    ParseInt(Split(data, ':')[2]).0
  }

  function ConnectPayload(id: int): string {
    "order:connect:" + FormatInt(id)
  }

  function ComplainPayload(id: int): string {
    "order:complain:" + FormatInt(id)
  }

  function ConfirmPayload(id: int): string {
    "complain:confirm:" + FormatInt(id)
  }

  /** orderButtonsInline: the connect and complain buttons under a group post. */
  function OrderButtons(id: int): seq<string> {
    [ConnectPayload(id), ComplainPayload(id)]
  }

  function ConfirmButtons(id: int): seq<string> {
    [ConfirmPayload(id), "complain:cancel"]
  }

  // ---------------------------------------------------------------- pure helpers of the handlers

  /** The last (largest) photo size's file id, or "" when there is no photo. */
  function LastPhoto(photos: seq<PhotoSize>): string {
    if |photos| > 0 then photos[|photos| - 1].fileId else ""
  }

  /** The rune count of the trimmed description must lie in [150, 200]. */
  predicate DescriptionFits(txt: string) {
    MinDescription <= |txt| <= MaxDescription
  }

  /** sendOrderToGroup's switch: design, programming, and everything else to content. */
  function GroupFor(g: Groups, category: string): int {
    if category == "design" then g.design
    else if category == "programming" then g.programming
    else g.content
  }

  function Say(chatId: int, n: Notice): Outgoing {
    Text(chatId, n, [])
  }

  /** sendProfileToChat: the card, then the photo if there is one. */
  function ProfileMessages(chatId: int, p: Profile): seq<Outgoing> {
    [Say(chatId, ProfileCard(p.username, p.description))]
      + (if p.photoFileId != "" then [Photo(chatId, p.photoFileId)] else [])
  }

  /** sendOrderToGroup: the announcement with the order's buttons, to the category's group. */
  function GroupPost(g: Groups, orderId: int, ord: Order): Outgoing {
    Text(GroupFor(g, ord.category), NewOrder(orderId, ord.category, ord.text, ord.creatorId), OrderButtons(orderId))
  }

  // ---------------------------------------------------------------- steps

  /** deleteOrderByCreator: find the caller's order, then delete it by id. */
  ghost function DeleteByCreator(d: Data, userId: int, writeOk: bool): (Data, Result<()>) {
    match OrderOf(d, userId)
    case Err(e) => (d, Err(e))
    case Ok(od) => (RemoveOrder(d, od.id), if writeOk then Ok(()) else Err(WriteFailed))
  }

  /** The command switch of handleMessage. */
  ghost function CommandStep(w: World, chatId: int, userId: int, cmd: string, writeOk: bool): World {
    if cmd == "start" then
      w.(outbox := w.outbox + [Text(chatId, ChooseRole, StartButtons)])
    else if cmd == "delete_order" then
      var (d1, r) := DeleteByCreator(w.data, userId, writeOk);
      w.(data := d1, outbox := w.outbox + [Say(chatId, if r.Err? then NoActiveOrder else OrderRemoved)])
    else if cmd == "my_profile" then
      (match LookupProfile(w.data, userId)
       case Err(_) => w.(outbox := w.outbox + [Say(chatId, ProfileNotFound)])
       case Ok(p) => w.(outbox := w.outbox + ProfileMessages(chatId, p)))
    else
      w.(outbox := w.outbox + [Say(chatId, UnknownCommand)])
  }

  /** handleMessage while the sender is writing a profile description. */
  ghost function ProfileTextStep(w: World, m: Message, writeOk: bool): World {
    var chatId, userId := m.chatId, m.fromId;
    var txt := TrimSpace(m.text);
    if !DescriptionFits(txt) then
      w.(outbox := w.outbox + [Say(chatId, DescriptionLength)])
    else
      var d1 := PutProfile(w.data, Profile(userId, m.fromUserName, txt, LastPhoto(m.photos)));
      if writeOk then World(d1, w.inFlight - {userId}, w.outbox + [Say(chatId, ProfileSaved)])
      else World(d1, w.inFlight, w.outbox + [Say(chatId, ProfileSaveFailed)])
  }

  /** handleMessage while the sender is writing the text of an order in category `cat`. */
  function OrderTextStep(g: Groups, w: World, m: Message, cat: string): World {
    var txt := TrimSpace(m.text);
    if txt == "" then
      w.(outbox := w.outbox + [Say(m.chatId, DescribeTaskAgain)])
    else
      PostOrderStep(g, w, m.chatId, Order(0, m.fromId, cat, txt, LastPhoto(m.photos), 0))
  }

  /** The order branch once the text is accepted: store, announce, and end the dialog either way. */
  function PostOrderStep(g: Groups, w: World, chatId: int, ord: Order): World {
    var (d1, r) := InsertOrder(w.data, ord);
    match r
    case Err(_) => World(d1, w.inFlight - {ord.creatorId}, w.outbox + [Say(chatId, AlreadyHasOrder)])
    case Ok(id) => World(d1, w.inFlight - {ord.creatorId}, w.outbox + [GroupPost(g, id, ord), Say(chatId, OrderPosted)])
  }

  /** handleMessage: commands first, then the sender's conversation state. */
  ghost function MessageStep(g: Groups, w: World, m: Message, writeOk: bool): World {
    match m.command
    case Some(cmd) => CommandStep(w, m.chatId, m.fromId, cmd, writeOk)
    case None =>
      match DecodeState(StateOf(w.inFlight, m.fromId))
      case CreatingProfile => ProfileTextStep(w, m, writeOk)
      case CreatingOrder(cat) => OrderTextStep(g, w, m, cat)
      case Idle => w.(outbox := w.outbox + [Say(m.chatId, PressStart)])
  }

  /** handleConnect: a found order is announced to its creator and then consumed. */
  function ConnectStep(w: World, connectorId: int, orderId: int): World {
    match LookupOrder(w.data, orderId)
    case Err(_) => w.(outbox := w.outbox + [Say(connectorId, OrderNotFound)])
    case Ok(od) =>
      var card := (match LookupProfile(w.data, connectorId)
        case Ok(p) => ProfileMessages(od.creatorId, p)
        case Err(_) => []);
      w.(data := RemoveOrder(w.data, orderId),
         outbox := w.outbox + [Say(od.creatorId, AcceptedBy(connectorId))] + card + [Say(connectorId, Connected)])
  }

  /** The "complain:confirm:<id>" branch of handleCallback. */
  function ComplaintStep(w: World, reporterId: int, orderId: int): World {
    var (d1, r) := BumpComplaints(w.data, orderId);
    match r
    case Err(_) => w.(data := d1, outbox := w.outbox + [Say(reporterId, ComplaintFailed)])
    case Ok(c) =>
      var out := w.outbox + [Say(reporterId, ComplaintAccepted(c))];
      if c >= DeleteThreshold then
        (match LookupOrder(d1, orderId)
         case Ok(od) => World(RemoveOrder(d1, orderId), w.inFlight, out + [Say(od.creatorId, RemovedByComplaints)])
         case Err(_) => World(d1, w.inFlight, out))
      else if c >= WarnThreshold then
        (match LookupOrder(d1, orderId)
         case Ok(od) => World(d1, w.inFlight, out + [Say(od.creatorId, ComplaintWarning(c))])
         case Err(_) => World(d1, w.inFlight, out))
      else World(d1, w.inFlight, out)
  }

  /** handleCallback: acknowledge, then dispatch on the payload. */
  function CallbackStep(w: World, q: Callback): World {
    var userId, data := q.fromId, q.data;
    var w1 := w.(outbox := w.outbox + [Ack(q.queryId)]);
    if data == "role:executor" then
      w1.(inFlight := w1.inFlight[userId := ProfileState], outbox := w1.outbox + [Say(userId, DescribeProfile)])
    else if data == "role:client" then
      w1.(outbox := w1.outbox + [Text(q.chatId, ChooseCategory, CategoryButtons)])
    else if HasPrefix(data, "cat:") then
      w1.(inFlight := w1.inFlight[userId := OrderStatePrefix + CategoryField(data)],
          outbox := w1.outbox + [Say(userId, DescribeTask)])
    else
      OrderButtonStep(w1, q)
  }

  /** The remaining branches of handleCallback: the buttons of a group post and of the complaint confirmation. */
  function OrderButtonStep(w: World, q: Callback): World {
    var userId, data := q.fromId, q.data;
    if HasPrefix(data, "order:connect:") then
      IdPrefixes();
      SplitThird(data, "order", "connect");
      ConnectStep(w, userId, IdField(data))
    else if HasPrefix(data, "order:complain:") then
      IdPrefixes();
      SplitThird(data, "order", "complain");
      w.(outbox := w.outbox + [Text(q.chatId, ConfirmComplaint, ConfirmButtons(IdField(data)))])
    else if HasPrefix(data, "complain:confirm:") then
      IdPrefixes();
      SplitThird(data, "complain", "confirm");
      ComplaintStep(w, userId, IdField(data))
    else if data == "complain:cancel" then
      w.(outbox := w.outbox + [Say(userId, ComplaintCancelled)])
    else
      w
  }

  /** processUpdate: a message goes to handleMessage, otherwise a callback to handleCallback. */
  ghost function UpdateStep(g: Groups, w: World, u: Update, writeOk: bool): World {
    match u.message
    case Some(m) => MessageStep(g, w, m, writeOk)
    case None =>
      match u.callback
      case Some(q) => CallbackStep(w, q)
      case None => w
  }
}
