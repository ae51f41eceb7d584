/** services/queue_service.py: offering the next pending request to the reviewer
    (`process_queue`) and the reviewer's four buttons: postpone, approve, then confirm or
    cancel. Each handler is given as a step function on the `World` (what it does) and as a
    method on the store and the bot (how it does it, one effect after the other). */
module QueueService {
  import opened Common
  import opened PyText
  import opened Backend

  /** The chat `process_queue` writes to (first half of the file). */
  const QUEUE_ADMIN_CHAT: int := 6935846121
  /** The chat the button handlers write to (second half of the file, its own constant). */
  const REVIEW_ADMIN_CHAT: int := 123456789

  // ---------------------------------------------------------------------------
  // Callback data
  // ---------------------------------------------------------------------------

  /** `f"{prefix}_{id}"`, the data of an inline button. */
  function CallbackData(prefix: string, id: int): string {
    prefix + "_" + Str(id)
  }

  /** `int(data.split("_")[1])`; `None` where Python raises IndexError or ValueError. */
  function CallbackId(data: string): Option<int> {
    var parts := Split(data, '_');
    if |parts| < 2 then None else ParseInt(parts[1])
  }

  /** The id written into a button comes back out of it. */
  lemma CallbackRoundTrip(prefix: string, id: int)
    requires '_' !in prefix
    ensures CallbackId(CallbackData(prefix, id)) == Some(id)
  {
    var parts := [prefix, Str(id)];
    assert '_' !in Str(id);
    assert Join(parts, '_') == CallbackData(prefix, id);
    SplitJoin(parts, '_');
    ParseIntStr(id);
  }

  /** The buttons under a queue offer: postpone and approve. */
  function OfferButtons(id: int): seq<string> {
    [CallbackData("postpone", id), CallbackData("approve", id)]
  }

  /** The buttons under a request's details: cancel and confirm. */
  function DetailButtons(id: int): seq<string> {
    [CallbackData("cancel", id), CallbackData("confirm", id)]
  }

  // ---------------------------------------------------------------------------
  // The handlers as steps
  // ---------------------------------------------------------------------------

  /** `process_queue`: offer the next request to the admin and remember the message id. */
  function ProcessQueueStep(w: World): (r: World)
    ensures Valid(w.store) ==> Valid(r.store)
    ensures r.store.order == w.store.order && r.store.balances == w.store.balances
    ensures r.store.requests.Keys == w.store.requests.Keys
    ensures |w.sent| <= |r.sent| <= |w.sent| + 1 && r.sent[..|w.sent|] == w.sent
  {
    match NextRequest(w.store)
    case None => w
    case Some(req) =>
      World(WithAdminMessage(w.store, req.id, |w.sent|),
            w.sent + [Message(QUEUE_ADMIN_CHAT, QueueOffer(req.id, TotalPrice(req.payload), OfferButtons(req.id)))])
  }

  /** `handle_postpone`, registered for data matching `^postpone_`. */
  function PostponeStep(w: World, data: string): (r: Step)
    ensures r.outcome == Ignored <==> !StartsWith(data, "postpone_")
    ensures r.outcome == Ignored ==> r.world == w
  {
    if !StartsWith(data, "postpone_") then Step(w, Ignored)
    else match CallbackId(data)
    case None => Step(w, Raised)
    case Some(id) =>
      var s := Postponed(w.store, id);
      var sent := w.sent + [Message(REVIEW_ADMIN_CHAT, PostponeDone)];
      match Lookup(s, id)
      case None => Step(World(s, sent), Raised)
      case Some(req) => Step(ProcessQueueStep(World(s, sent + [Message(req.chatId, PostponeNotice)])), Completed)
  }

  /** `handle_approve`, registered for `^approve_`: show the details with cancel/confirm buttons; nothing is settled yet. */
  function ApproveStep(w: World, data: string): (r: Step)
    ensures r.outcome == Ignored <==> !StartsWith(data, "approve_")
    ensures r.outcome == Ignored ==> r.world == w
  {
    if !StartsWith(data, "approve_") then Step(w, Ignored)
    else match CallbackId(data)
    case None => Step(w, Raised)
    case Some(id) =>
      match Lookup(w.store, id)
      case None => Step(w, Raised)
      case Some(req) =>
        Step(World(WithDetailMessage(w.store, id, |w.sent|),
                   w.sent + [Message(REVIEW_ADMIN_CHAT, RequestDetail(id, TotalPrice(req.payload), DetailButtons(id)))]),
             Completed)
  }

  /** `handle_confirm`, registered for `^confirm_`: deduct the total from the requester, delete the request, tell the
      requester, offer the next request. */
  function ConfirmStep(w: World, data: string): (r: Step)
    ensures r.outcome == Ignored <==> !StartsWith(data, "confirm_")
    ensures r.outcome == Ignored ==> r.world == w
  {
    if !StartsWith(data, "confirm_") then Step(w, Ignored)
    else match CallbackId(data)
    case None => Step(w, Raised)
    case Some(id) =>
      match Lookup(w.store, id)
      case None => Step(w, Raised)
      case Some(req) =>
        var total := TotalPrice(req.payload);
        var s := Deleted(Deducted(w.store, req.userId, total), id);
        Step(ProcessQueueStep(World(s, w.sent + [Message(req.chatId, Executed(total))])), Completed)
  }

  /** `handle_cancel`, registered for `^cancel_`: delete the request, tell the requester, offer the next request. */
  function CancelStep(w: World, data: string): (r: Step)
    ensures r.outcome == Ignored <==> !StartsWith(data, "cancel_")
    ensures r.outcome == Ignored ==> r.world == w
  {
    if !StartsWith(data, "cancel_") then Step(w, Ignored)
    else match CallbackId(data)
    case None => Step(w, Raised)
    case Some(id) =>
      match Lookup(w.store, id)
      case None => Step(w, Raised)
      case Some(req) =>
        Step(ProcessQueueStep(World(Deleted(w.store, id), w.sent + [Message(req.chatId, CancelNotice)])), Completed)
  }

  // ---------------------------------------------------------------------------
  // What the steps guarantee
  // ---------------------------------------------------------------------------

  /** Offering a request only records the offer's message id: the next id and every
      request's user, status and payload stay as they were. */
  lemma OfferKeepsRequests(w: World)
    ensures ProcessQueueStep(w).store.nextId == w.store.nextId
    ensures forall k :: k in w.store.requests ==>
              var q := ProcessQueueStep(w).store.requests[k];
              q.userId == w.store.requests[k].userId && q.status == w.store.requests[k].status
              && q.payload == w.store.requests[k].payload
  {
  }

  lemma {:induction false} FirstPendingSameStatus(order: seq<int>, a: map<int, Request>, b: map<int, Request>)
    requires a.Keys == b.Keys && forall k :: k in a ==> a[k].status == b[k].status
    ensures FirstPending(order, a) == FirstPending(order, b)
  {
    if order != [] {
      FirstPendingSameStatus(order[1..], a, b);
    }
  }

  /** An empty queue sends nothing and changes nothing. Otherwise exactly one message goes
      to the admin, offering the oldest pending request with buttons that carry its id, and
      that message's id is stored on the same request; the request stays the next one. */
  lemma ProcessQueueOffersOldest(w: World)
    requires Valid(w.store)
    ensures NextRequest(w.store).None? ==> ProcessQueueStep(w) == w
    ensures NextRequest(w.store).Some? ==>
      var q := NextRequest(w.store).value;
      var r := ProcessQueueStep(w);
      && |r.sent| == |w.sent| + 1
      && r.sent[|w.sent|].chat == QUEUE_ADMIN_CHAT
      && r.sent[|w.sent|].notice.QueueOffer?
      && r.sent[|w.sent|].notice.requestId == q.id
      && r.sent[|w.sent|].notice.total == TotalPrice(q.payload)
      && CallbackId(r.sent[|w.sent|].notice.buttons[0]) == Some(q.id)
      && CallbackId(r.sent[|w.sent|].notice.buttons[1]) == Some(q.id)
      && r.store.requests == w.store.requests[q.id := q.(adminMessageId := Some(|w.sent|))]
      && NextRequest(r.store) == Some(q.(adminMessageId := Some(|w.sent|)))
  {
    NextRequestIsOldestPending(w.store);
    if NextRequest(w.store).Some? {
      var q := NextRequest(w.store).value;
      var r := ProcessQueueStep(w);
      OfferButtonsCarryId(q.id);
      FirstPendingSameStatus(w.store.order, w.store.requests, r.store.requests);
    }
  }

  /** A button's data begins with its prefix and the `_` after it, so it reaches the
      handler registered for that prefix. */
  lemma CallbackDataStartsWith(prefix: string, id: int)
    ensures StartsWith(CallbackData(prefix, id), prefix + "_")
  {
    assert CallbackData(prefix, id)[..|prefix + "_"|] == prefix + "_";
  }

  /** A text that begins with one prefix does not begin with another that differs from it
      at some position both have. */
  lemma PrefixesExclusive(s: string, p: string, q: string, k: nat)
    requires StartsWith(s, p) && k < |p| && k < |q| && p[k] != q[k]
    ensures !StartsWith(s, q)
  {
    assert s[k] == s[..|p|][k];
  }

  /** Each button under a queue offer reaches its own handler only: postpone, then approve. */
  lemma OfferButtonsRouted(id: int)
    ensures StartsWith(OfferButtons(id)[0], "postpone_") && !StartsWith(OfferButtons(id)[0], "approve_")
    ensures StartsWith(OfferButtons(id)[1], "approve_") && !StartsWith(OfferButtons(id)[1], "postpone_")
  {
    var buttons := OfferButtons(id);
    assert buttons[0] == CallbackData("postpone", id) && buttons[1] == CallbackData("approve", id);
    CallbackDataStartsWith("postpone", id);
    CallbackDataStartsWith("approve", id);
    PrefixesExclusive(buttons[0], "postpone_", "approve_", 0);
    PrefixesExclusive(buttons[1], "approve_", "postpone_", 0);
  }

  /** Each button under a request's details reaches its own handler only: cancel, then
      confirm. */
  lemma DetailButtonsRouted(id: int)
    ensures StartsWith(DetailButtons(id)[0], "cancel_") && !StartsWith(DetailButtons(id)[0], "confirm_")
    ensures StartsWith(DetailButtons(id)[1], "confirm_") && !StartsWith(DetailButtons(id)[1], "cancel_")
  {
    var buttons := DetailButtons(id);
    assert buttons[0] == CallbackData("cancel", id) && buttons[1] == CallbackData("confirm", id);
    CallbackDataStartsWith("cancel", id);
    CallbackDataStartsWith("confirm", id);
    PrefixesExclusive(buttons[0], "cancel_", "confirm_", 1);
    PrefixesExclusive(buttons[1], "confirm_", "cancel_", 1);
  }

  /** Both buttons under a queue offer parse back to its id. */
  lemma OfferButtonsCarryId(id: int)
    ensures CallbackId(OfferButtons(id)[0]) == Some(id) && CallbackId(OfferButtons(id)[1]) == Some(id)
  {
    var buttons := OfferButtons(id);
    assert buttons[0] == CallbackData("postpone", id) && buttons[1] == CallbackData("approve", id);
    CallbackRoundTrip("postpone", id);
    CallbackRoundTrip("approve", id);
  }

  /** Both buttons under a request's details parse back to its id. */
  lemma DetailButtonsCarryId(id: int)
    ensures CallbackId(DetailButtons(id)[0]) == Some(id) && CallbackId(DetailButtons(id)[1]) == Some(id)
  {
    var buttons := DetailButtons(id);
    assert buttons[0] == CallbackData("cancel", id) && buttons[1] == CallbackData("confirm", id);
    CallbackRoundTrip("cancel", id);
    CallbackRoundTrip("confirm", id);
  }

  /** Approve settles nothing: no money moves, nothing is deleted or reordered; one
      message goes to the admin with cancel/confirm buttons that carry the same id, and its
      message id is recorded on the request. */
  lemma ApproveOnlyRecordsDetail(w: World, data: string, id: int)
    requires Valid(w.store) && id in w.store.requests && StartsWith(data, "approve_") && CallbackId(data) == Some(id)
    ensures
      var req := w.store.requests[id];
      var r := ApproveStep(w, data);
      && r.outcome == Completed
      && r.world.store.balances == w.store.balances
      && r.world.store.order == w.store.order
      && r.world.store.requests == w.store.requests[id := req.(detailMessageId := Some(|w.sent|))]
      && |r.world.sent| == |w.sent| + 1
      && r.world.sent[|w.sent|] == Message(REVIEW_ADMIN_CHAT, RequestDetail(id, TotalPrice(req.payload), DetailButtons(id)))
      && CallbackId(DetailButtons(id)[0]) == Some(id) && CallbackId(DetailButtons(id)[1]) == Some(id)
  {
    DetailButtonsCarryId(id);
  }

  /** Confirm deducts exactly the request's total from its requester and from nobody else,
      removes that request and no other, tells the requester, and offers the next request
      exactly when one is pending. */
  lemma ConfirmDeductsTotal(w: World, data: string, id: int)
    requires Valid(w.store) && id in w.store.requests && StartsWith(data, "confirm_") && CallbackId(data) == Some(id)
    ensures
      var req := w.store.requests[id];
      var total := TotalPrice(req.payload);
      var r := ConfirmStep(w, data);
      && r.outcome == Completed
      && Valid(r.world.store)
      && Balance(r.world.store, req.userId) == Balance(w.store, req.userId) - total
      && (forall u :: u != req.userId ==> Balance(r.world.store, u) == Balance(w.store, u))
      && r.world.store.requests.Keys == w.store.requests.Keys - {id}
      && r.world.store.order == Remove(w.store.order, id)
      && (forall k :: k in r.world.store.requests ==> SameRow(r.world.store.requests[k], w.store.requests[k]))
      && r.world.sent[|w.sent|] == Message(req.chatId, Executed(total))
      && (NextRequest(r.world.store).Some? <==> |r.world.sent| == |w.sent| + 2)
  {
    var req := w.store.requests[id];
    var total := TotalPrice(req.payload);
    var s := Deleted(Deducted(w.store, req.userId, total), id);
    var mid := World(s, w.sent + [Message(req.chatId, Executed(total))]);
    assert ConfirmStep(w, data) == Step(ProcessQueueStep(mid), Completed);
    assert Valid(s);
    ProcessQueueOffersOldest(mid);
    OfferKeepsRequests(mid);
  }

  /** Two versions of a row agree on everything but the message ids recorded on it. */
  predicate SameRow(a: Request, b: Request) {
    a.userId == b.userId && a.status == b.status && a.payload == b.payload
  }

  /** Cancel removes the request and moves no money; the requester is told and the next
      request is offered exactly when one is pending. */
  lemma CancelMovesNoMoney(w: World, data: string, id: int)
    requires Valid(w.store) && id in w.store.requests && StartsWith(data, "cancel_") && CallbackId(data) == Some(id)
    ensures
      var req := w.store.requests[id];
      var r := CancelStep(w, data);
      && r.outcome == Completed
      && Valid(r.world.store)
      && r.world.store.balances == w.store.balances
      && r.world.store.requests.Keys == w.store.requests.Keys - {id}
      && r.world.store.order == Remove(w.store.order, id)
      && r.world.sent[|w.sent|] == Message(req.chatId, CancelNotice)
      && (NextRequest(r.world.store).Some? <==> |r.world.sent| == |w.sent| + 2)
  {
    var req := w.store.requests[id];
    ProcessQueueOffersOldest(World(Deleted(w.store, id), w.sent + [Message(req.chatId, CancelNotice)]));
  }

  /** Once a request is gone (confirmed or cancelled), pressing any of its buttons again
      changes nothing: no second deduction, no message. */
  lemma ResolvedButtonsAreNoOps(w: World, data: string, id: int)
    requires id !in w.store.requests && CallbackId(data) == Some(id)
    ensures StartsWith(data, "approve_") ==> ApproveStep(w, data) == Step(w, Raised)
    ensures StartsWith(data, "confirm_") ==> ConfirmStep(w, data) == Step(w, Raised)
    ensures StartsWith(data, "cancel_") ==> CancelStep(w, data) == Step(w, Raised)
  {
  }

  /** Confirming the same request twice deducts its total once. */
  lemma ConfirmTwiceDeductsOnce(w: World, data: string, id: int)
    requires Valid(w.store) && id in w.store.requests && StartsWith(data, "confirm_") && CallbackId(data) == Some(id)
    ensures
      var first := ConfirmStep(w, data);
      ConfirmStep(first.world, data) == Step(first.world, Raised)
  {
    ConfirmDeductsTotal(w, data, id);
  }

  /** What a postpone of a stored request reduces to: the reviewer and the requester are
      told, then the queue is offered again from the postponed table. */
  lemma PostponeUnfolds(w: World, data: string, id: int)
    requires id in w.store.requests && StartsWith(data, "postpone_") && CallbackId(data) == Some(id)
    ensures PostponeStep(w, data)
         == Step(ProcessQueueStep(World(Postponed(w.store, id),
                   w.sent + [Message(REVIEW_ADMIN_CHAT, PostponeDone), Message(w.store.requests[id].chatId, PostponeNotice)])),
                 Completed)
  {
    var s := Postponed(w.store, id);
    assert Lookup(s, id) == Some(w.store.requests[id]);
    assert w.sent + [Message(REVIEW_ADMIN_CHAT, PostponeDone)] + [Message(w.store.requests[id].chatId, PostponeNotice)]
        == w.sent + [Message(REVIEW_ADMIN_CHAT, PostponeDone), Message(w.store.requests[id].chatId, PostponeNotice)];
  }

  /** Postpone keeps the request and its money where they are and sends it to the back of
      the queue: when another request is pending, the offer that follows is not for it. */
  lemma PostponeRequeuesAtBack(w: World, data: string, id: int, other: int)
    requires Valid(w.store) && id in w.store.requests && StartsWith(data, "postpone_") && CallbackId(data) == Some(id)
    requires other != id && IsPending(w.store.requests, other)
    ensures
      var req := w.store.requests[id];
      var r := PostponeStep(w, data);
      && r.outcome == Completed
      && r.world.store.requests.Keys == w.store.requests.Keys
      && r.world.store.balances == w.store.balances
      && r.world.store.order[|r.world.store.order| - 1] == id
      && r.world.sent[|w.sent|] == Message(REVIEW_ADMIN_CHAT, PostponeDone)
      && r.world.sent[|w.sent| + 1] == Message(req.chatId, PostponeNotice)
      && |r.world.sent| == |w.sent| + 3
      && r.world.sent[|w.sent| + 2].notice.QueueOffer?
      && r.world.sent[|w.sent| + 2].notice.requestId != id
  {
    var req := w.store.requests[id];
    var s := Postponed(w.store, id);
    var mid := World(s, w.sent + [Message(REVIEW_ADMIN_CHAT, PostponeDone), Message(req.chatId, PostponeNotice)]);
    PostponeUnfolds(w, data, id);
    var r := ProcessQueueStep(mid);
    assert id in w.store.order;
    assert s.order[|s.order| - 1] == id;
    PostponedIsOfferedLast(w.store, id, other);
    ProcessQueueOffersOldest(mid);
    assert r.sent[..|mid.sent|] == mid.sent;
    assert r.sent[|w.sent|] == mid.sent[|w.sent|] && r.sent[|w.sent| + 1] == mid.sent[|w.sent| + 1];
  }

  // ---------------------------------------------------------------------------
  // The handlers as methods
  // ---------------------------------------------------------------------------

  method ProcessQueue(store: RequestStore, bot: Outbox)
    modifies store, bot
    ensures World(store.Value(), bot.sent) == ProcessQueueStep(old(World(store.Value(), bot.sent)))
  {
    var request := store.Next();
    if request.None? {
      return;
    }
    var req := request.value;
    var msgId := bot.Send(QUEUE_ADMIN_CHAT, QueueOffer(req.id, TotalPrice(req.payload), OfferButtons(req.id)));
    store.SetAdminMessage(req.id, msgId);
  }

  method HandlePostpone(data: string, store: RequestStore, bot: Outbox) returns (outcome: Outcome)
    modifies store, bot
    ensures Step(World(store.Value(), bot.sent), outcome) == PostponeStep(old(World(store.Value(), bot.sent)), data)
  {
    if !StartsWith(data, "postpone_") {
      return Ignored;
    }
    var requestId := CallbackId(data);
    if requestId.None? {
      return Raised;
    }
    var id := requestId.value;
    store.Postpone(id);
    var adminMsg := bot.Send(REVIEW_ADMIN_CHAT, PostponeDone);
    var req := store.Get(id);
    if req.None? {
      return Raised;
    }
    var userMsg := bot.Send(req.value.chatId, PostponeNotice);
    ProcessQueue(store, bot);
    return Completed;
  }

  method HandleApprove(data: string, store: RequestStore, bot: Outbox) returns (outcome: Outcome)
    modifies store, bot
    ensures Step(World(store.Value(), bot.sent), outcome) == ApproveStep(old(World(store.Value(), bot.sent)), data)
  {
    if !StartsWith(data, "approve_") {
      return Ignored;
    }
    var requestId := CallbackId(data);
    if requestId.None? {
      return Raised;
    }
    var id := requestId.value;
    var req := store.Get(id);
    if req.None? {
      return Raised;
    }
    var msgId := bot.Send(REVIEW_ADMIN_CHAT, RequestDetail(id, TotalPrice(req.value.payload), DetailButtons(id)));
    store.SetDetailMessage(id, msgId);
    return Completed;
  }

  method HandleConfirm(data: string, store: RequestStore, bot: Outbox) returns (outcome: Outcome)
    modifies store, bot
    ensures Step(World(store.Value(), bot.sent), outcome) == ConfirmStep(old(World(store.Value(), bot.sent)), data)
  {
    if !StartsWith(data, "confirm_") {
      return Ignored;
    }
    var requestId := CallbackId(data);
    if requestId.None? {
      return Raised;
    }
    var id := requestId.value;
    var req := store.Get(id);
    if req.None? {
      return Raised;
    }
    var total := TotalPrice(req.value.payload);
    store.Deduct(req.value.userId, total);
    store.Delete(id);
    var userMsg := bot.Send(req.value.chatId, Executed(total));
    ProcessQueue(store, bot);
    return Completed;
  }

  method HandleCancel(data: string, store: RequestStore, bot: Outbox) returns (outcome: Outcome)
    modifies store, bot
    ensures Step(World(store.Value(), bot.sent), outcome) == CancelStep(old(World(store.Value(), bot.sent)), data)
  {
    if !StartsWith(data, "cancel_") {
      return Ignored;
    }
    var requestId := CallbackId(data);
    if requestId.None? {
      return Raised;
    }
    var id := requestId.value;
    var req := store.Get(id);
    if req.None? {
      return Raised;
    }
    store.Delete(id);
    var userMsg := bot.Send(req.value.chatId, CancelNotice);
    ProcessQueue(store, bot);
    return Completed;
  }
}
