// The handlers of handlers.go as methods of one object: the global `inFlight`
// map and the outbox are its fields, the global `storage` is the JSONStorage
// it holds. Each update is handled to completion before the next one (no
// goroutines, no mutexes), and each method is proved to do exactly what the
// matching step function of module Flow says.
module Handlers {
  import opened GoStrings
  import opened Models
  import opened Store
  import opened Flow

  class Bot {
    /** inFlight.m: user id to "creating_profile" or "creating_order:<cat>". */
    var inFlight: map<int, string>
    /** Everything sent through the Telegram API so far, oldest first. */
    var outbox: seq<Outgoing>
    const storage: JSONStorage
    const groups: Groups

    ghost function Current(): World
      reads this, storage
    {
      World(storage.Snapshot(), inFlight, outbox)
    }

    ghost predicate Valid()
      reads this, storage
    {
      storage.Valid() && StatesWellFormed(inFlight)
    }

    constructor (storage: JSONStorage, groups: Groups)
      requires storage.Valid()
      ensures this.storage == storage && this.groups == groups
      ensures inFlight == map[] && outbox == [] && Valid()
    {
      this.storage := storage;
      this.groups := groups;
      inFlight := map[];
      outbox := [];
    }

    /** b.Send / b.api.Request: one message out. */
    method Send(o: Outgoing)
      modifies this`outbox
      ensures outbox == old(outbox) + [o]
    {
      outbox := outbox + [o];
    }

    /** processUpdate */
    method ProcessUpdate(u: Update, writeOk: bool)
      requires Valid()
      modifies this, storage
      ensures Valid()
      ensures Current() == UpdateStep(groups, old(Current()), u, writeOk)
    {
      if u.message.Some? {
        HandleMessage(u.message.value, writeOk);
      } else if u.callback.Some? {
        HandleCallback(u.callback.value, writeOk);
      }
    }

    /** handleMessage */
    method HandleMessage(m: Message, writeOk: bool)
      requires Valid()
      modifies this, storage
      ensures Valid()
      ensures Current() == MessageStep(groups, old(Current()), m, writeOk)
    {
      if m.command.Some? {
        HandleCommand(m.chatId, m.fromId, m.command.value, writeOk);
        return;
      }
      var state := if m.fromId in inFlight then inFlight[m.fromId] else "";
      if state == ProfileState {
        HandleProfileText(m, writeOk);
      } else if HasPrefix(state, OrderStatePrefix) {
        HandleOrderText(m, CategoryOf(state));
      } else {
        Send(Say(m.chatId, PressStart));
      }
    }

    /** The command switch of handleMessage. */
    method HandleCommand(chatId: int, userId: int, cmd: string, writeOk: bool)
      requires Valid()
      modifies this, storage
      ensures Valid()
      ensures Current() == CommandStep(old(Current()), chatId, userId, cmd, writeOk)
    {
      if cmd == "start" {
        Send(Text(chatId, ChooseRole, StartButtons));
      } else if cmd == "delete_order" {
        var err := DeleteOrderByCreator(userId, writeOk);
        if err.Err? {
          Send(Say(chatId, NoActiveOrder));
        } else {
          Send(Say(chatId, OrderRemoved));
        }
      } else if cmd == "my_profile" {
        var p := storage.GetProfile(userId);
        if p.Err? {
          Send(Say(chatId, ProfileNotFound));
          return;
        }
        SendProfileToChat(chatId, p.value);
      } else {
        Send(Say(chatId, UnknownCommand));
      }
    }

    /** The "creating_profile" branch of handleMessage. */
    method HandleProfileText(m: Message, writeOk: bool)
      requires Valid()
      modifies this, storage
      ensures Valid()
      ensures Current() == ProfileTextStep(old(Current()), m, writeOk)
    {
      var chatId, userId := m.chatId, m.fromId;
      var txt := TrimSpace(m.text);
      if |txt| < MinDescription || |txt| > MaxDescription {
        Send(Say(chatId, DescriptionLength));
        return;
      }
      var photoFileId := LastPhoto(m.photos);
      var prof := Profile(userId, m.fromUserName, txt, photoFileId);
      var err := storage.CreateOrUpdateProfile(prof, writeOk);
      if err.Err? {
        Send(Say(chatId, ProfileSaveFailed));
        return;
      }
      inFlight := inFlight - {userId};
      Send(Say(chatId, ProfileSaved));
    }

    /** The "creating_order:<cat>" branch of handleMessage. */
    method HandleOrderText(m: Message, cat: string)
      requires Valid()
      modifies this, storage
      ensures Valid()
      ensures Current() == OrderTextStep(groups, old(Current()), m, cat)
    {
      var txt := TrimSpace(m.text);
      if txt == "" {
        Send(Say(m.chatId, DescribeTaskAgain));
        return;
      }
      var photoFileId := LastPhoto(m.photos);
      PostOrder(m.chatId, Order(0, m.fromId, cat, txt, photoFileId, 0));
    }

    /** Stores the order, announces it in its group, and ends the creator's dialog. */
    method PostOrder(chatId: int, ord: Order)
      requires Valid()
      modifies this, storage
      ensures Valid()
      ensures Current() == PostOrderStep(groups, old(Current()), chatId, ord)
    {
      var id := storage.CreateOrder(ord);
      if id.Err? {
        Send(Say(chatId, AlreadyHasOrder));
        inFlight := inFlight - {ord.creatorId};
        return;
      }
      SendOrderToGroup(id.value, ord);
      inFlight := inFlight - {ord.creatorId};
      Send(Say(chatId, OrderPosted));
    }

    /** handleCallback */
    method HandleCallback(q: Callback, writeOk: bool)
      requires Valid()
      modifies this, storage
      ensures Valid()
      ensures Current() == CallbackStep(old(Current()), q)
    {
      var data, userId, chatId := q.data, q.fromId, q.chatId;
      Send(Ack(q.queryId));

      if data == "role:executor" {
        inFlight := inFlight[userId := ProfileState];
        Send(Say(userId, DescribeProfile));
        return;
      }
      if data == "role:client" {
        Send(Text(chatId, ChooseCategory, CategoryButtons));
        return;
      }
      if HasPrefix(data, "cat:") {
        var cat := CategoryField(data);
        OrderStateIsWellFormed(cat);
        inFlight := inFlight[userId := OrderStatePrefix + cat];
        Send(Say(userId, DescribeTask));
        return;
      }
      HandleOrderButton(q, writeOk);
    }

    /** The branches of handleCallback after the role and category ones. */
    method HandleOrderButton(q: Callback, writeOk: bool)
      requires Valid()
      modifies this, storage
      ensures Valid()
      ensures Current() == OrderButtonStep(old(Current()), q)
    {
      var data, userId, chatId := q.data, q.fromId, q.chatId;
      if HasPrefix(data, "order:connect:") {
        IdPrefixes();
        SplitThird(data, "order", "connect");
        var id := IdField(data);
        HandleConnect(userId, id, writeOk);
        return;
      }
      if HasPrefix(data, "order:complain:") {
        IdPrefixes();
        SplitThird(data, "order", "complain");
        var id := IdField(data);
        Send(Text(chatId, ConfirmComplaint, ConfirmButtons(id)));
        return;
      }
      if HasPrefix(data, "complain:confirm:") {
        IdPrefixes();
        SplitThird(data, "complain", "confirm");
        var id := IdField(data);
        HandleComplaint(userId, id, writeOk);
        return;
      }
      if data == "complain:cancel" {
        Send(Say(userId, ComplaintCancelled));
        return;
      }
    }

    /** The "complain:confirm:<id>" branch of handleCallback. */
    method HandleComplaint(userId: int, id: int, writeOk: bool)
      requires Valid()
      modifies this, storage
      ensures Valid()
      ensures Current() == ComplaintStep(old(Current()), userId, id)
    {
      var c := storage.IncrementComplaint(id, userId);
      if c.Err? {
        Send(Say(userId, ComplaintFailed));
        return;
      }
      Send(Say(userId, ComplaintAccepted(c.value)));
      if c.value >= DeleteThreshold {
        var od := storage.GetOrderByID(id);
        if od.Ok? {
          var _ := storage.DeleteOrderByID(id, writeOk);
          Send(Say(od.value.creatorId, RemovedByComplaints));
        }
      } else if c.value >= WarnThreshold {
        var od := storage.GetOrderByID(id);
        if od.Ok? {
          Send(Say(od.value.creatorId, ComplaintWarning(c.value)));
        }
      }
    }

    /** sendProfileToChat */
    method SendProfileToChat(chatId: int, p: Profile)
      modifies this`outbox
      ensures outbox == old(outbox) + ProfileMessages(chatId, p)
    {
      Send(Say(chatId, ProfileCard(p.username, p.description)));
      if p.photoFileId != "" {
        Send(Photo(chatId, p.photoFileId));
      }
    }

    /** deleteOrderByCreator */
    method DeleteOrderByCreator(userId: int, writeOk: bool) returns (r: Result<()>)
      requires storage.Valid()
      modifies storage
      ensures storage.Valid()
      ensures (storage.Snapshot(), r) == DeleteByCreator(old(storage.Snapshot()), userId, writeOk)
    {
      var od := storage.GetOrderByCreator(userId);
      if od.Err? {
        return Err(od.error);
      }
      r := storage.DeleteOrderByID(od.value.id, writeOk);
    }

    /** sendOrderToGroup: route by category, attach the order's buttons. */
    method SendOrderToGroup(orderId: int, ord: Order)
      modifies this`outbox
      ensures outbox == old(outbox) + [GroupPost(groups, orderId, ord)]
    {
      var gid: int;
      if ord.category == "design" {
        gid := groups.design;
      } else if ord.category == "programming" {
        gid := groups.programming;
      } else {
        gid := groups.content;
      }
      Send(Text(gid, NewOrder(orderId, ord.category, ord.text, ord.creatorId), OrderButtons(orderId)));
    }

    /** handleConnect */
    method HandleConnect(connectorId: int, orderId: int, writeOk: bool)
      requires Valid()
      modifies this, storage
      ensures Valid()
      ensures Current() == ConnectStep(old(Current()), connectorId, orderId)
    {
      var od := storage.GetOrderByID(orderId);
      if od.Err? {
        Send(Say(connectorId, OrderNotFound));
        return;
      }
      Send(Say(od.value.creatorId, AcceptedBy(connectorId)));
      var prof := storage.GetProfile(connectorId);
      if prof.Ok? {
        SendProfileToChat(od.value.creatorId, prof.value);
      }
      var _ := storage.DeleteOrderByID(orderId, writeOk);
      Send(Say(connectorId, Connected));
    }
  }
}
