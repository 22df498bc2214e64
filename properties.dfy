// What the handlers promise, stated over the step functions of module Flow:
// the button payloads carry their order id intact, the dialog strings decode
// to what was stored, every callback is acknowledged first, each flow ends in
// the state and the messages it announces, and the complaint counter removes
// an order at exactly the tenth complaint.
module Properties {
  import opened GoStrings
  import opened Models
  import opened Store
  import opened Flow

  // ---------------------------------------------------------------- button payloads

  /** "<a>:<b>:" followed by FormatInt(id) parses back to id. */
  lemma IdFieldOfPayload(a: string, b: string, id: int)
    requires ':' !in a && ':' !in b && IsInt64(id)
    ensures HasPrefix(a + [':'] + b + [':'] + FormatInt(id), a + [':'] + b + [':'])
    ensures var data := a + [':'] + b + [':'] + FormatInt(id);
      |Split(data, ':')| >= 3 && IdField(data) == id
  {
    var head := a + [':'] + b + [':'];
    var data := head + FormatInt(id);
    assert data[..|head|] == head;
    SplitThird(data, a, b);
    assert data[|a| + |b| + 2..] == FormatInt(id);
    SplitNoSep(FormatInt(id), ':');
    ParseIntOfFormatInt(id);
  }

  /** The id written into a group post's connect button is the id handleCallback reads back. */
  lemma ConnectPayloadRoundTrip(id: int)
    requires IsInt64(id)
    ensures HasPrefix(ConnectPayload(id), "order:connect:")
    ensures |Split(ConnectPayload(id), ':')| >= 3 && IdField(ConnectPayload(id)) == id
  {
    IdPrefixes();
    IdFieldOfPayload("order", "connect", id);
  }

  /** The id written into a group post's complain button is the id handleCallback reads back. */
  lemma ComplainPayloadRoundTrip(id: int)
    requires IsInt64(id)
    ensures HasPrefix(ComplainPayload(id), "order:complain:")
    ensures |Split(ComplainPayload(id), ':')| >= 3 && IdField(ComplainPayload(id)) == id
  {
    IdPrefixes();
    IdFieldOfPayload("order", "complain", id);
  }

  /** The id written into the confirmation button is the id handleCallback reads back. */
  lemma ConfirmPayloadRoundTrip(id: int)
    requires IsInt64(id)
    ensures HasPrefix(ConfirmPayload(id), "complain:confirm:")
    ensures |Split(ConfirmPayload(id), ':')| >= 3 && IdField(ConfirmPayload(id)) == id
  {
    IdPrefixes();
    IdFieldOfPayload("complain", "confirm", id);
  }

  // ---------------------------------------------------------------- dialog state strings

  /** handleMessage reads back the phase handleCallback stored. */
  lemma DecodeEncode(p: Phase)
    requires p.CreatingOrder? ==> ':' !in p.category
    ensures DecodeState(EncodeState(p)) == p
  {
    if p.CreatingOrder? {
      var s := OrderStatePrefix + p.category;
      assert s[..|OrderStatePrefix|] == OrderStatePrefix;
      assert s[9] == 'o' && ProfileState[9] == 'p';
      assert OrderStatePrefix == "creating_order" + [':'];
      SplitAfterHead(s, "creating_order", ':');
      assert s[|"creating_order"| + 1..] == p.category;
      SplitNoSep(p.category, ':');
    }
  }

  /** Every string handleCallback can store is the encoding of the phase it decodes to. */
  lemma EncodeDecode(s: string)
    requires s == "" || IsConversationState(s)
    ensures EncodeState(DecodeState(s)) == s
  {
    if s != "" && s != ProfileState {
      var cat := s[|OrderStatePrefix|..];
      assert s == OrderStatePrefix + cat;
      DecodeEncode(CreatingOrder(cat));
    }
  }

  // ---------------------------------------------------------------- callbacks

  /**
   * Every callback is acknowledged before anything else is sent; it moves at
   * most the presser's own dialog state, and only the connect and confirm
   * buttons touch the store.
   */
  lemma CallbackFrame(w: World, q: Callback)
    ensures var w' := CallbackStep(w, q);
      && |w'.outbox| > |w.outbox|
      && w'.outbox[..|w.outbox| + 1] == w.outbox + [Ack(q.queryId)]
      && (forall u :: u != q.fromId ==> StateOf(w'.inFlight, u) == StateOf(w.inFlight, u))
      && (w'.data != w.data ==> HasPrefix(q.data, "order:connect:") || HasPrefix(q.data, "complain:confirm:"))
  {
    var w1 := w.(outbox := w.outbox + [Ack(q.queryId)]);
    var w' := CallbackStep(w, q);
    assert w1.outbox <= w'.outbox;
  }

  /**
   * "role:client", "order:complain:<id>", "complain:cancel" and payloads no
   * branch recognises touch neither the store nor any dialog state.
   */
  lemma InertCallbacks(w: World, q: Callback)
    requires q.data != "role:executor"
    requires !HasPrefix(q.data, "cat:") && !HasPrefix(q.data, "order:connect:") && !HasPrefix(q.data, "complain:confirm:")
    ensures CallbackStep(w, q).data == w.data && CallbackStep(w, q).inFlight == w.inFlight
  {
    assert q.data != "role:client" ==> q.data != "role:executor";
  }

  /** "role:executor" puts the presser into the profile dialog and asks for a description. */
  lemma PressExecutor(w: World, q: Callback)
    requires q.data == "role:executor"
    ensures var w' := CallbackStep(w, q);
      && DecodeState(StateOf(w'.inFlight, q.fromId)) == CreatingProfile
      && w'.data == w.data
      && w'.outbox == w.outbox + [Ack(q.queryId), Say(q.fromId, DescribeProfile)]
  {
    DecodeEncode(CreatingProfile);
  }

  /** "cat:<cat>" puts the presser into the order dialog for exactly that category. */
  lemma PressCategory(w: World, q: Callback, cat: string)
    requires ':' !in cat && q.data == "cat:" + cat
    ensures var w' := CallbackStep(w, q);
      && DecodeState(StateOf(w'.inFlight, q.fromId)) == CreatingOrder(cat)
      && w'.data == w.data
      && w'.outbox == w.outbox + [Ack(q.queryId), Say(q.fromId, DescribeTask)]
  {
    var data := q.data;
    assert data[0] == 'c';
    assert data[..4] == "cat:";
    assert "cat:" == "cat" + [':'];
    SplitAfterHead(data, "cat", ':');
    assert data[4..] == cat;
    SplitNoSep(cat, ':');
    assert CategoryField(data) == cat;
    DecodeEncode(CreatingOrder(cat));
  }

  /** A string that differs from `p` at an index below |p| does not start with `p`. */
  lemma DiffersAt(s: string, p: string, i: nat)
    requires i < |p| && i < |s| && s[i] != p[i]
    ensures !HasPrefix(s, p)
  {
    if |p| <= |s| {
      assert s[..|p|][i] == s[i];
    }
  }

  /** The connect button under a group post connects the presser to that very order. */
  lemma PressConnect(w: World, q: Callback, id: int)
    requires IsInt64(id) && q.data == ConnectPayload(id)
    ensures CallbackStep(w, q) == ConnectStep(w.(outbox := w.outbox + [Ack(q.queryId)]), q.fromId, id)
  {
    var data := q.data;
    ConnectPayloadRoundTrip(id);
    assert data[..14][0] == data[0];
    assert data[0] != "role:executor"[0] && data[0] != "role:client"[0];
    DiffersAt(data, "cat:", 0);
  }

  /** The complain button only asks for confirmation, offering a confirm button for the same order. */
  lemma PressComplain(w: World, q: Callback, id: int)
    requires IsInt64(id) && q.data == ComplainPayload(id)
    ensures CallbackStep(w, q)
      == w.(outbox := w.outbox + [Ack(q.queryId), Text(q.chatId, ConfirmComplaint, [ConfirmPayload(id), "complain:cancel"])])
  {
    var data := q.data;
    var w1 := w.(outbox := w.outbox + [Ack(q.queryId)]);
    ComplainPayloadRoundTrip(id);
    assert data[..15][0] == data[0] && data[..15][8] == data[8];
    assert data[0] != "role:executor"[0] && data[0] != "role:client"[0];
    DiffersAt(data, "cat:", 0);
    assert CallbackStep(w, q) == OrderButtonStep(w1, q);
    DiffersAt(data, "order:connect:", 8);
    assert OrderButtonStep(w1, q) == w1.(outbox := w1.outbox + [Text(q.chatId, ConfirmComplaint, ConfirmButtons(id))]);
  }

  /** The confirm button files one complaint against the order it was offered for. */
  lemma PressConfirm(w: World, q: Callback, id: int)
    requires IsInt64(id) && q.data == ConfirmPayload(id)
    ensures CallbackStep(w, q) == ComplaintStep(w.(outbox := w.outbox + [Ack(q.queryId)]), q.fromId, id)
  {
    var data := q.data;
    ConfirmPayloadRoundTrip(id);
    assert data[..17][0] == data[0] && data[..17][1] == data[1];
    assert data[0] != "role:executor"[0] && data[0] != "role:client"[0];
    DiffersAt(data, "cat:", 1);
    DiffersAt(data, "order:connect:", 0);
    DiffersAt(data, "order:complain:", 0);
  }

  /** "back:to_start" (and any other payload no branch matches) is acknowledged and nothing else. */
  lemma PressBack(w: World, q: Callback)
    requires q.data == "back:to_start"
    ensures CallbackStep(w, q) == w.(outbox := w.outbox + [Ack(q.queryId)])
  {
    var data := q.data;
    assert data[0] == 'b';
    assert data[0] != "role:executor"[0] && data[0] != "role:client"[0] && data[0] != "complain:cancel"[0];
    DiffersAt(data, "cat:", 0);
    DiffersAt(data, "order:connect:", 0);
    DiffersAt(data, "order:complain:", 0);
    DiffersAt(data, "complain:confirm:", 0);
  }

  // ---------------------------------------------------------------- complaints and connects

  /**
   * One confirmed complaint: an unknown order gets an error reply and changes
   * nothing; otherwise the count goes up by one and is reported, the tenth
   * complaint removes the order and tells its creator, and the seventh to
   * ninth warn the creator.
   */
  lemma ComplaintOutcome(w: World, reporterId: int, id: int)
    ensures ComplaintStep(w, reporterId, id).inFlight == w.inFlight
    ensures id !in w.data.orders ==>
      ComplaintStep(w, reporterId, id) == w.(outbox := w.outbox + [Say(reporterId, ComplaintFailed)])
    ensures id in w.data.orders ==>
      var w' := ComplaintStep(w, reporterId, id);
      var od := w.data.orders[id];
      var c := od.complaints + 1;
      && (c >= DeleteThreshold ==>
            && w'.data == RemoveOrder(w.data, id)
            && w'.outbox == w.outbox + [Say(reporterId, ComplaintAccepted(c)), Say(od.creatorId, RemovedByComplaints)])
      && (WarnThreshold <= c < DeleteThreshold ==>
            && w'.data == w.data.(orders := w.data.orders[id := od.(complaints := c)])
            && w'.outbox == w.outbox + [Say(reporterId, ComplaintAccepted(c)), Say(od.creatorId, ComplaintWarning(c))])
      && (c < WarnThreshold ==>
            && w'.data == w.data.(orders := w.data.orders[id := od.(complaints := c)])
            && w'.outbox == w.outbox + [Say(reporterId, ComplaintAccepted(c))])
  {
    BumpComplaintsOutcome(w.data, id);
    if id in w.data.orders {
      var d1 := BumpComplaints(w.data, id).0;
      assert d1.orders - {id} == w.data.orders - {id};
    }
  }

  /** handleConnect announces the connector to the creator, sends the connector's profile if any, and consumes the order. */
  lemma ConnectOutcome(w: World, connectorId: int, id: int)
    ensures ConnectStep(w, connectorId, id).inFlight == w.inFlight
    ensures LookupOrder(ConnectStep(w, connectorId, id).data, id) == Err(NotFound)
    ensures id !in w.data.orders ==>
      ConnectStep(w, connectorId, id) == w.(outbox := w.outbox + [Say(connectorId, OrderNotFound)])
    ensures id in w.data.orders ==>
      var w' := ConnectStep(w, connectorId, id);
      var creator := w.data.orders[id].creatorId;
      && w'.data == RemoveOrder(w.data, id)
      && w'.outbox == w.outbox + [Say(creator, AcceptedBy(connectorId))]
           + (if connectorId in w.data.profiles then ProfileMessages(creator, w.data.profiles[connectorId]) else [])
           + [Say(connectorId, Connected)]
  {
    RemoveOrderOutcome(w.data, id);
  }

  /** An order can be connected to once: a second press of its connect button finds nothing. */
  lemma ConnectIsSingleUse(w: World, first: int, second: int, id: int)
    ensures var w1 := ConnectStep(w, first, id);
      ConnectStep(w1, second, id) == w1.(outbox := w1.outbox + [Say(second, OrderNotFound)])
  {
    ConnectOutcome(w, first, id);
  }

  /** The store and dialog part of ComplaintOutcome. */
  lemma ComplaintTables(w: World, reporterId: int, id: int)
    requires id in w.data.orders
    ensures var w' := ComplaintStep(w, reporterId, id);
      var c := w.data.orders[id].complaints + 1;
      && w'.inFlight == w.inFlight
      && w'.data == if c >= DeleteThreshold then RemoveOrder(w.data, id)
                    else w.data.(orders := w.data.orders[id := w.data.orders[id].(complaints := c)])
  {
    ComplaintOutcome(w, reporterId, id);
  }

  /** `n` confirmed complaints in a row against one order, all from `reporterId`. */
  function Complaints(w: World, reporterId: int, id: int, n: nat): World
    decreases n
  {
    if n == 0 then w else ComplaintStep(Complaints(w, reporterId, id, n - 1), reporterId, id)
  }

  /** What `n` complaints in a row do to the order, as long as the count stays at most ten. */
  ghost predicate Accumulated(w: World, reporterId: int, id: int, n: nat)
    requires id in w.data.orders
  {
    var w' := Complaints(w, reporterId, id, n);
    var od := w.data.orders[id];
    var c := od.complaints + n;
    && w'.inFlight == w.inFlight
    && (c < DeleteThreshold ==> w'.data == w.data.(orders := w.data.orders[id := od.(complaints := c)]))
    && (c == DeleteThreshold ==> w'.data == RemoveOrder(w.data, id))
  }

  /**
   * Complaints accumulate one by one on the order, which nothing else changes,
   * until the tenth: that one removes the order.
   */
  lemma {:induction false} ComplaintsAccumulate(w: World, reporterId: int, id: int, n: nat)
    requires id in w.data.orders && 0 <= w.data.orders[id].complaints < DeleteThreshold
    requires w.data.orders[id].complaints + n <= DeleteThreshold
    ensures var w' := Complaints(w, reporterId, id, n);
      var od := w.data.orders[id];
      var c := od.complaints + n;
      && w'.inFlight == w.inFlight
      && (c < DeleteThreshold ==> w'.data == w.data.(orders := w.data.orders[id := od.(complaints := c)]))
      && (c == DeleteThreshold ==> w'.data == RemoveOrder(w.data, id))
    decreases n
  {
    if n > 0 {
      ComplaintsAccumulate(w, reporterId, id, n - 1);
      OneMoreComplaint(w, reporterId, id, n);
    }
    assert Accumulated(w, reporterId, id, n);
  }

  /** The induction step of ComplaintsAccumulate: from n - 1 complaints to n. */
  lemma OneMoreComplaint(w: World, reporterId: int, id: int, n: nat)
    requires id in w.data.orders && 0 < n && w.data.orders[id].complaints + n <= DeleteThreshold
    requires Accumulated(w, reporterId, id, n - 1)
    ensures Accumulated(w, reporterId, id, n)
  {
    var od := w.data.orders[id];
    var c := od.complaints + n;
    var prev := Complaints(w, reporterId, id, n - 1);
    var orders' := w.data.orders[id := od.(complaints := c - 1)];
    assert prev.data == w.data.(orders := orders');
    ComplaintTables(prev, reporterId, id);
    if c < DeleteThreshold {
      assert orders'[id := od.(complaints := c)] == w.data.orders[id := od.(complaints := c)];
    } else {
      assert orders' - {id} == w.data.orders - {id};
    }
  }

  // ---------------------------------------------------------------- messages

  /**
   * Commands answer without reading or changing any dialog state; only
   * /delete_order touches the store (see DeleteOrderCommand).
   */
  lemma CommandOutcome(w: World, chatId: int, userId: int, cmd: string, writeOk: bool)
    ensures var w' := CommandStep(w, chatId, userId, cmd, writeOk);
      && w'.inFlight == w.inFlight
      && (cmd != "delete_order" ==> w'.data == w.data)
      && (cmd == "start" ==> w'.outbox == w.outbox + [Text(chatId, ChooseRole, ["role:executor", "role:client"])])
      && (cmd == "my_profile" ==>
            w'.outbox == w.outbox + (if userId in w.data.profiles then ProfileMessages(chatId, w.data.profiles[userId])
                                     else [Say(chatId, ProfileNotFound)]))
      && (cmd !in {"start", "delete_order", "my_profile"} ==> w'.outbox == w.outbox + [Say(chatId, UnknownCommand)])
  {
  }

  /** Telegram lists a photo's sizes smallest first, so the last one is the largest. */
  lemma LastPhotoIsLargest(photos: seq<PhotoSize>)
    requires forall i, j :: 0 <= i <= j < |photos| ==> photos[i].width <= photos[j].width
    ensures photos == [] ==> LastPhoto(photos) == ""
    ensures photos != [] ==>
      exists i :: (0 <= i < |photos| && LastPhoto(photos) == photos[i].fileId
                   && forall j :: 0 <= j < |photos| ==> photos[j].width <= photos[i].width)
  {
    if photos != [] {
      var i := |photos| - 1;
      assert forall j :: 0 <= j < |photos| ==> photos[j].width <= photos[i].width;
    }
  }

  /**
   * /delete_order removes the sender's order (the only one, under the store
   * invariant) and no other, and says it did only when the file write succeeded.
   */
  lemma DeleteOrderCommand(w: World, chatId: int, userId: int, writeOk: bool)
    requires Inv(w.data)
    ensures var w' := CommandStep(w, chatId, userId, "delete_order", writeOk);
      && w'.inFlight == w.inFlight
      && !HasOrderBy(w'.data.orders, userId)
      && (forall k :: k in w'.data.orders <==> k in w.data.orders && w.data.orders[k].creatorId != userId)
      && (forall k :: k in w'.data.orders ==> w'.data.orders[k] == w.data.orders[k])
      && w'.outbox == w.outbox + [Say(chatId, if HasOrderBy(w.data.orders, userId) && writeOk then OrderRemoved else NoActiveOrder)]
  {
    if HasOrderBy(w.data.orders, userId) {
      var k :| k in w.data.orders && w.data.orders[k].creatorId == userId;
      OrderOfIsTheOne(w.data, userId, k);
      RemoveOrderOutcome(w.data, k);
    }
  }

  /**
   * A description whose trimmed length lies in [150, 200] becomes the sender's
   * profile and, when it was written to disk, ends the dialog; any other length
   * changes nothing but the reply.
   */
  lemma ProfileTextOutcome(w: World, m: Message, writeOk: bool)
    ensures var w' := ProfileTextStep(w, m, writeOk);
      var txt := TrimSpace(m.text);
      && (!DescriptionFits(txt) ==> w' == w.(outbox := w.outbox + [Say(m.chatId, DescriptionLength)]))
      && (DescriptionFits(txt) ==>
            && LookupProfile(w'.data, m.fromId) == Ok(Profile(m.fromId, m.fromUserName, txt, LastPhoto(m.photos)))
            && (forall u :: u != m.fromId ==> LookupProfile(w'.data, u) == LookupProfile(w.data, u))
            && w'.data.orders == w.data.orders && w'.data.nextId == w.data.nextId
            && w'.inFlight == (if writeOk then w.inFlight - {m.fromId} else w.inFlight)
            && w'.outbox == w.outbox + [Say(m.chatId, if writeOk then ProfileSaved else ProfileSaveFailed)])
  {
    var txt := TrimSpace(m.text);
    if DescriptionFits(txt) {
      var p := Profile(m.fromId, m.fromUserName, txt, LastPhoto(m.photos));
      forall u | u != m.fromId
        ensures LookupProfile(PutProfile(w.data, p), u) == LookupProfile(w.data, u)
      {
        PutThenLookup(w.data, p, u);
      }
    }
  }

  /**
   * Order text: blank text keeps the dialog open; otherwise the dialog ends,
   * and either the sender already had an order and nothing is stored, or the
   * order is stored under a fresh id as the sender's order and announced in
   * its category's group with its connect and complain buttons.
   */
  lemma OrderTextOutcome(g: Groups, w: World, m: Message, cat: string)
    requires Inv(w.data)
    ensures var w' := OrderTextStep(g, w, m, cat);
      var txt := TrimSpace(m.text);
      var uid := m.fromId;
      && (txt == [] ==> w' == w.(outbox := w.outbox + [Say(m.chatId, DescribeTaskAgain)]))
      && (txt != [] ==> w'.inFlight == w.inFlight - {uid})
      && (txt != [] && HasOrderBy(w.data.orders, uid) ==>
            w'.data == w.data && w'.outbox == w.outbox + [Say(m.chatId, AlreadyHasOrder)])
      && (txt != [] && !HasOrderBy(w.data.orders, uid) ==>
            var id := w.data.nextId;
            && id !in w.data.orders
            && OrderOf(w'.data, uid) == Ok(Order(id, uid, cat, txt, LastPhoto(m.photos), 0))
            && w'.outbox == w.outbox + [Text(GroupFor(g, cat), NewOrder(id, cat, txt, uid), OrderButtons(id)), Say(m.chatId, OrderPosted)])
  {
    var txt := TrimSpace(m.text);
    if txt != [] {
      var ord := Order(0, m.fromId, cat, txt, LastPhoto(m.photos), 0);
      InsertOrderOutcome(w.data, ord);
      if !HasOrderBy(w.data.orders, m.fromId) {
        InsertOrderFreshId(w.data, ord);
      }
    }
  }

  /**
   * A photo arrives with an empty `text`, and both dialogs read only `text`:
   * a photo message is refused as a profile description and as an order text,
   * so no profile and no order is ever stored with a photo.
   */
  lemma PhotoMessagesAreRefused(g: Groups, w: World, m: Message, writeOk: bool, cat: string)
    requires TelegramShaped(m) && m.photos != []
    ensures ProfileTextStep(w, m, writeOk) == w.(outbox := w.outbox + [Say(m.chatId, DescriptionLength)])
    ensures OrderTextStep(g, w, m, cat) == w.(outbox := w.outbox + [Say(m.chatId, DescribeTaskAgain)])
  {
    assert TrimSpace(m.text) == [];
  }

  /** Once a client has sent an order's text, a second order from them is refused and stores nothing. */
  lemma OneOrderPerClient(g: Groups, w: World, m1: Message, cat1: string, m2: Message, cat2: string)
    requires Inv(w.data) && m1.fromId == m2.fromId
    requires TrimSpace(m1.text) != [] && TrimSpace(m2.text) != []
    ensures var w1 := OrderTextStep(g, w, m1, cat1);
      var w2 := OrderTextStep(g, w1, m2, cat2);
      w2.data == w1.data && w2.outbox == w1.outbox + [Say(m2.chatId, AlreadyHasOrder)]
  {
    OrderTextOutcome(g, w, m1, cat1);
    var w1 := OrderTextStep(g, w, m1, cat1);
    assert HasOrderBy(w1.data.orders, m1.fromId);
    InsertOrderKeepsInv(w.data, Order(0, m1.fromId, cat1, TrimSpace(m1.text), LastPhoto(m1.photos), 0));
    OrderTextOutcome(g, w1, m2, cat2);
  }

  /** After a saved profile, /my_profile shows exactly that profile. */
  lemma ProfileThenMyProfile(w: World, m: Message, writeOk: bool, chatId: int, writeOk2: bool)
    requires DescriptionFits(TrimSpace(m.text))
    ensures var w1 := ProfileTextStep(w, m, writeOk);
      var w2 := CommandStep(w1, chatId, m.fromId, "my_profile", writeOk2);
      w2 == w1.(outbox := w1.outbox + ProfileMessages(chatId, Profile(m.fromId, m.fromUserName, TrimSpace(m.text), LastPhoto(m.photos))))
  {
    ProfileTextOutcome(w, m, writeOk);
  }

  // ---------------------------------------------------------------- invariants of the whole bot

  /** Store invariant and well-formed dialog strings: what every update preserves. */
  ghost predicate BotInv(w: World) {
    Inv(w.data) && StatesWellFormed(w.inFlight)
  }

  lemma MessageStepKeepsInv(g: Groups, w: World, m: Message, writeOk: bool)
    requires BotInv(w)
    ensures BotInv(MessageStep(g, w, m, writeOk))
  {
    match m.command
    case Some(cmd) =>
      if cmd == "delete_order" {
        match OrderOf(w.data, m.fromId)
        case Ok(od) => RemoveOrderKeepsInv(w.data, od.id);
        case Err(_) =>
      }
    case None =>
      match DecodeState(StateOf(w.inFlight, m.fromId))
      case CreatingOrder(cat) =>
        InsertOrderKeepsInv(w.data, Order(0, m.fromId, cat, TrimSpace(m.text), LastPhoto(m.photos), 0));
      case CreatingProfile =>
      case Idle =>
  }

  lemma CallbackStepKeepsInv(w: World, q: Callback)
    requires BotInv(w)
    ensures BotInv(CallbackStep(w, q))
  {
    var data := q.data;
    var w1 := w.(outbox := w.outbox + [Ack(q.queryId)]);
    if data == "role:executor" || data == "role:client" {
    } else if HasPrefix(data, "cat:") {
      OrderStateIsWellFormed(CategoryField(data));
    } else if HasPrefix(data, "order:connect:") {
      IdPrefixes();
      SplitThird(data, "order", "connect");
      RemoveOrderKeepsInv(w.data, IdField(data));
    } else if HasPrefix(data, "order:complain:") {
    } else if HasPrefix(data, "complain:confirm:") {
      IdPrefixes();
      SplitThird(data, "complain", "confirm");
      var id := IdField(data);
      BumpComplaintsKeepsInv(w.data, id);
      RemoveOrderKeepsInv(BumpComplaints(w.data, id).0, id);
    }
  }

  /** processUpdate keeps the store invariant and the dialog strings well formed, whatever the update. */
  lemma UpdateStepKeepsInv(g: Groups, w: World, u: Update, writeOk: bool)
    requires BotInv(w)
    ensures BotInv(UpdateStep(g, w, u, writeOk))
  {
    match u.message
    case Some(m) => MessageStepKeepsInv(g, w, m, writeOk);
    case None =>
      match u.callback
      case Some(q) => CallbackStepKeepsInv(w, q);
      case None =>
  }
}
