/** The collaborators every handler talks to, reduced to what the handlers observe:
    the pending-request table (`db.get_next_request`, `get_request`, `postpone_request`,
    `delete_request`, `update_request_*`, `add_pending_request`, `delete_pending_request`),
    the wallet (`get_balance`, `add_balance`, `deduct_balance`, `register_user_if_not_exist`)
    and the messages the bot sends, kept as an append-only log.

    The store is given twice: as a value (`Store`, with functions for each operation, which
    the lemmas reason about) and as the object the handlers mutate (`RequestStore`, whose
    methods are specified by those functions). */
module Backend {
  import opened Common

  // ---------------------------------------------------------------------------
  // Records
  // ---------------------------------------------------------------------------

  datatype Status = Pending | Done | Cancelled

  datatype Carrier = Syriatel | Mtn

  /** What a request asks for, with the amount of money it carries. */
  datatype Payload =
    | ProductInfo(name: string, quantity: int, totalPrice: int)
    | GameTopUp(productId: int, playerId: string, priceSyp: int)
    | InternetBill(provider: string, speed: string, phone: string, price: int, commission: int, total: int)
    | UnitTransfer(carrier: Carrier, unitName: string, price: int, number: string)
    | AgentCredit(code: string, amount: int)

  /** The amount `handle_confirm` deducts (`product_info['total_price']`). */
  function TotalPrice(p: Payload): int {
    match p
    case ProductInfo(_, _, total) => total
    case GameTopUp(_, _, price) => price
    case InternetBill(_, _, _, _, _, total) => total
    case UnitTransfer(_, _, price, _) => price
    case AgentCredit(_, amount) => amount
  }

  datatype Request = Request(
    id: int,
    userId: int,
    chatId: int,
    payload: Payload,
    status: Status,
    adminMessageId: Option<nat>,
    detailMessageId: Option<nat>)

  /** The texts the bot sends, reduced to the values they carry. */
  datatype Notice =
    | QueueOffer(requestId: int, total: int, buttons: seq<string>)
    | PostponeDone
    | PostponeNotice
    | RequestDetail(requestId: int, total: int, buttons: seq<string>)
    | Executed(total: int)
    | CancelNotice
    | DoneReply(requestId: int)
    | CancelReply(requestId: int)
    | ApprovedNotice(requestId: int)
    | RejectedNotice(requestId: int)
    | WalletCredited(amount: int)
    | CreditConfirmed(messageId: int)
    | CreditError
    | CreditRejected(reason: string)
    | InvalidAmount
    | AgentTransfer(amount: int)
    | ReasonPrompt
    | CodeRejected
    | AmountPrompt
    | NoOperations
    | Report(lines: seq<ReportLine>)
    | Submitted
    | InsufficientBalance(balance: int)

  /** One line of the agents' report: a code's heading, or one operation under it. */
  datatype ReportLine =
    | CodeHeader(code: string)
    | EntryLine(amount: int, date: string, user: string)

  datatype Message = Message(chat: int, notice: Notice)

  // ---------------------------------------------------------------------------
  // The store as a value
  // ---------------------------------------------------------------------------

  /** Requests by id, their ids in creation order (oldest first), the next id the table
      hands out, and the wallet balances. */
  datatype Store = Store(
    requests: map<int, Request>,
    order: seq<int>,
    nextId: int,
    balances: map<int, int>)

  /** Everything a handler can change: the store and the bot's sent messages. */
  datatype World = World(store: Store, sent: seq<Message>)

  /** What one handler invocation leaves behind, and how it ended. */
  datatype Step = Step(world: World, outcome: Outcome)

  predicate Distinct(xs: seq<int>) {
    forall i, j :: 0 <= i < j < |xs| ==> xs[i] != xs[j]
  }

  /** The order lists each stored request exactly once, and ids are keys below `nextId`. */
  ghost predicate Valid(s: Store) {
    && (forall id :: id in s.order <==> id in s.requests)
    && Distinct(s.order)
    && (forall id :: id in s.requests ==> s.requests[id].id == id && id < s.nextId)
  }

  function Balance(s: Store, user: int): int {
    if user in s.balances then s.balances[user] else 0
  }

  /** `get_request(id)`: the row, or `None` (Python's `None`) when there is none. */
  function Lookup(s: Store, id: int): Option<Request> {
    if id in s.requests then Some(s.requests[id]) else None
  }

  /** `order` without `id`. */
  function Remove(order: seq<int>, id: int): (r: seq<int>)
    ensures forall x :: x in r <==> x in order && x != id
    ensures Distinct(order) ==> Distinct(r)
    ensures id !in order ==> r == order
  {
    if order == [] then []
    else
      var rest := Remove(order[1..], id);
      if order[0] == id then rest
      else
        assert Distinct(order) ==> order[0] !in rest;
        [order[0]] + rest
  }

  /** `order` with `id` moved to the back; unchanged when `id` is not in it. */
  function MoveToBack(order: seq<int>, id: int): (r: seq<int>)
    ensures forall x :: x in r <==> x in order
    ensures Distinct(order) ==> Distinct(r)
    ensures id in order ==> |r| > 0 && r[|r| - 1] == id && r[..|r| - 1] == Remove(order, id)
  {
    if id in order then Remove(order, id) + [id] else order
  }

  // The operations of the table and the wallet.

  /** `postpone_request(id)`: back to the end of the queue. */
  function Postponed(s: Store, id: int): (r: Store)
    ensures Valid(s) ==> Valid(r)
    ensures r.requests == s.requests && r.balances == s.balances
  {
    s.(order := MoveToBack(s.order, id))
  }

  /** `delete_request(id)` / `delete_pending_request(id)`: the row disappears, if present. */
  function Deleted(s: Store, id: int): (r: Store)
    ensures Valid(s) ==> Valid(r)
    ensures r.requests.Keys == s.requests.Keys - {id}
    ensures forall k :: k in r.requests ==> r.requests[k] == s.requests[k]
    ensures r.balances == s.balances
  {
    s.(requests := s.requests - {id}, order := Remove(s.order, id))
  }

  /** `add_pending_request`: a fresh id, status pending, at the back of the queue. The
      request's chat is the requester's private chat, whose id is the user id. */
  function Added(s: Store, userId: int, payload: Payload): (r: Store)
    ensures Valid(s) ==> Valid(r) && s.nextId !in s.requests
    ensures r.requests == s.requests[s.nextId := Request(s.nextId, userId, userId, payload, Pending, None, None)]
    ensures r.order == s.order + [s.nextId] && r.balances == s.balances
  {
    var r := Store(s.requests[s.nextId := Request(s.nextId, userId, userId, payload, Pending, None, None)],
                   s.order + [s.nextId], s.nextId + 1, s.balances);
    assert Valid(s) ==> Distinct(r.order) by {
      if Valid(s) {
        assert s.nextId !in s.order;
        DistinctAppend(s.order, s.nextId);
      }
    }
    r
  }

  lemma DistinctAppend(xs: seq<int>, x: int)
    requires Distinct(xs) && x !in xs
    ensures Distinct(xs + [x])
  {
    var ys := xs + [x];
    forall i, j | 0 <= i < j < |ys| ensures ys[i] != ys[j] {
      if j == |xs| {
        assert ys[i] == xs[i];
      }
    }
  }

  /** `deduct_balance(user, amount)`. */
  function Deducted(s: Store, user: int, amount: int): (r: Store)
    ensures Valid(s) ==> Valid(r)
    ensures Balance(r, user) == Balance(s, user) - amount
    ensures forall u :: u != user ==> Balance(r, u) == Balance(s, u)
    ensures r.requests == s.requests && r.order == s.order
  {
    s.(balances := s.balances[user := Balance(s, user) - amount])
  }

  /** `add_balance(user, amount)`. */
  function Credited(s: Store, user: int, amount: int): (r: Store)
    ensures Valid(s) ==> Valid(r)
    ensures Balance(r, user) == Balance(s, user) + amount
    ensures forall u :: u != user ==> Balance(r, u) == Balance(s, u)
    ensures r.requests == s.requests && r.order == s.order
  {
    s.(balances := s.balances[user := Balance(s, user) + amount])
  }

  /** `register_user_if_not_exist(user)`: a wallet with balance 0 when there is none. */
  function Registered(s: Store, user: int): (r: Store)
    ensures Valid(s) ==> Valid(r)
    ensures user in r.balances && forall u :: Balance(r, u) == Balance(s, u)
    ensures r.requests == s.requests && r.order == s.order
  {
    if user in s.balances then s else s.(balances := s.balances[user := 0])
  }

  /** `update_request_admin_message_id(id, m)`; a missing row matches nothing. */
  function WithAdminMessage(s: Store, id: int, m: nat): (r: Store)
    ensures Valid(s) ==> Valid(r)
    ensures r.requests.Keys == s.requests.Keys && r.order == s.order && r.balances == s.balances
    ensures forall k :: k in s.requests && k != id ==> r.requests[k] == s.requests[k]
    ensures id in s.requests ==> r.requests[id] == s.requests[id].(adminMessageId := Some(m))
  {
    if id in s.requests then s.(requests := s.requests[id := s.requests[id].(adminMessageId := Some(m))]) else s
  }

  /** `update_request_admin_detail_message_id(id, m)`. */
  function WithDetailMessage(s: Store, id: int, m: nat): (r: Store)
    ensures Valid(s) ==> Valid(r)
    ensures r.requests.Keys == s.requests.Keys && r.order == s.order && r.balances == s.balances
    ensures forall k :: k in s.requests && k != id ==> r.requests[k] == s.requests[k]
    ensures id in s.requests ==> r.requests[id] == s.requests[id].(detailMessageId := Some(m))
  {
    if id in s.requests then s.(requests := s.requests[id := s.requests[id].(detailMessageId := Some(m))]) else s
  }

  /** `update({"status": st}).eq("id", id)`. */
  function WithStatus(s: Store, id: int, st: Status): (r: Store)
    ensures Valid(s) ==> Valid(r)
    ensures r.requests.Keys == s.requests.Keys && r.order == s.order && r.balances == s.balances
    ensures forall k :: k in s.requests && k != id ==> r.requests[k] == s.requests[k]
    ensures id in s.requests ==> r.requests[id] == s.requests[id].(status := st)
  {
    if id in s.requests then s.(requests := s.requests[id := s.requests[id].(status := st)]) else s
  }

  // ---------------------------------------------------------------------------
  // The next request: oldest by creation time
  // ---------------------------------------------------------------------------

  predicate IsPending(requests: map<int, Request>, id: int) {
    id in requests && requests[id].status == Pending
  }

  /** Position in `order` of the first pending request. */
  function FirstPending(order: seq<int>, requests: map<int, Request>): (k: Option<nat>)
    ensures k.Some? ==> k.value < |order| && IsPending(requests, order[k.value])
    ensures k.Some? ==> forall j :: 0 <= j < k.value ==> !IsPending(requests, order[j])
    ensures k.None? ==> forall j :: 0 <= j < |order| ==> !IsPending(requests, order[j])
  {
    if order == [] then None
    else if IsPending(requests, order[0]) then Some(0)
    else
      match FirstPending(order[1..], requests)
      case None => None
      case Some(k) => Some(k + 1)
  }

  /** `get_next_request()`: the pending request created first, or `None`. */
  function NextRequest(s: Store): Option<Request> {
    match FirstPending(s.order, s.requests)
    case None => None
    case Some(k) => Some(s.requests[s.order[k]])
  }

  /** The next request is pending, stored under its own id, and no request created before
      it is pending; there is none exactly when no stored request is pending. */
  lemma NextRequestIsOldestPending(s: Store)
    requires Valid(s)
    ensures NextRequest(s).None? <==> forall id :: id in s.requests ==> s.requests[id].status != Pending
    ensures NextRequest(s).Some? ==>
      var r := NextRequest(s).value;
      && r.id in s.requests && s.requests[r.id] == r && r.status == Pending
      && exists k :: 0 <= k < |s.order| && s.order[k] == r.id
                     && forall j :: 0 <= j < k ==> !IsPending(s.requests, s.order[j])
  {
    match FirstPending(s.order, s.requests)
    case None =>
      forall id | id in s.requests ensures s.requests[id].status != Pending {
        var k :| 0 <= k < |s.order| && s.order[k] == id;
        assert !IsPending(s.requests, s.order[k]);
      }
    case Some(k) =>
      assert s.order[k] in s.requests;
  }

  /** After `postpone_request(id)`, any other pending request is offered before `id`. */
  lemma {:induction false} PostponedIsOfferedLast(s: Store, id: int, other: int)
    requires Valid(s) && id in s.requests
    requires other != id && IsPending(s.requests, other)
    ensures NextRequest(Postponed(s, id)).Some?
    ensures NextRequest(Postponed(s, id)).value.id != id
  {
    var p := Postponed(s, id);
    var rest := Remove(s.order, id);
    assert p.order == rest + [id];
    assert other in rest;
    var q :| 0 <= q < |rest| && rest[q] == other;
    assert p.order[q] == other;
    match FirstPending(p.order, p.requests)
    case None =>
      assert false;
    case Some(k) =>
      assert k <= q;
      assert p.order[k] == rest[k];
      assert id !in rest;
      assert p.requests[p.order[k]].id == p.order[k];
  }

  /** The first pending position is `n` when `order[n]` is pending and nothing before is. */
  lemma FirstPendingAt(order: seq<int>, requests: map<int, Request>, n: nat)
    requires n < |order| && IsPending(requests, order[n])
    requires forall j :: 0 <= j < n ==> !IsPending(requests, order[j])
    ensures FirstPending(order, requests) == Some(n)
  {
    match FirstPending(order, requests)
    case None =>
      assert false;
    case Some(k) =>
      assert !(k < n) && !(n < k);
  }

  /** First in, first out: of two requests added one after the other to a queue with nothing
      pending, the first is offered; once it is deleted, the second is. */
  lemma {:induction false} FirstInFirstOut(s: Store, userA: int, a: Payload, userB: int, b: Payload)
    requires Valid(s) && NextRequest(s).None?
    ensures
      var s1 := Added(s, userA, a);
      var s2 := Added(s1, userB, b);
      && NextRequest(s2) == Some(s2.requests[s.nextId])
      && NextRequest(Deleted(s2, s.nextId)) == Some(s2.requests[s1.nextId])
  {
    NextRequestIsOldestPending(s);
    assert s.nextId !in s.order;
    assert forall id :: id in s.requests ==> s.requests[id].status != Pending && id < s.nextId;
    FifoFromIdle(s, userA, a, userB, b);
  }

  /** `FirstInFirstOut` from just the facts it needs: nothing queued is pending, and the
      fresh id is not queued yet. */
  lemma FifoFromIdle(s: Store, userA: int, a: Payload, userB: int, b: Payload)
    requires s.nextId !in s.order
    requires forall id :: id in s.order ==> id in s.requests
    requires forall id :: id in s.requests ==> s.requests[id].status != Pending && id < s.nextId
    ensures
      var s1 := Added(s, userA, a);
      var s2 := Added(s1, userB, b);
      && NextRequest(s2) == Some(s2.requests[s.nextId])
      && NextRequest(Deleted(s2, s.nextId)) == Some(s2.requests[s1.nextId])
  {
    var s1 := Added(s, userA, a);
    var s2 := Added(s1, userB, b);
    assert s2.order == s.order + [s.nextId, s1.nextId];
    FirstOfTwoOffered(s, s2);
    SecondOfTwoOffered(s, s2, Deleted(s2, s.nextId));
  }

  /** Two requests queued behind an idle table: the first of them is offered. */
  lemma FirstOfTwoOffered(s: Store, t: Store)
    requires forall id :: id in s.order ==> id in s.requests
    requires forall id :: id in s.requests ==> s.requests[id].status != Pending && id < s.nextId
    requires t.order == s.order + [s.nextId, s.nextId + 1]
    requires t.requests.Keys == s.requests.Keys + {s.nextId, s.nextId + 1}
    requires forall id :: id in s.requests ==> t.requests[id] == s.requests[id]
    requires t.requests[s.nextId].status == Pending
    ensures NextRequest(t) == Some(t.requests[s.nextId])
  {
    var n := |s.order|;
    assert t.order[..n] == s.order && t.order[n] == s.nextId;
    IdlePrefix(s, t);
    OfferedAt(t, n);
  }

  /** Once the first of the two is deleted, the second is offered. */
  lemma SecondOfTwoOffered(s: Store, t: Store, u: Store)
    requires forall id :: id in s.order ==> id in s.requests
    requires forall id :: id in s.requests ==> s.requests[id].status != Pending && id < s.nextId
    requires t.order == s.order + [s.nextId, s.nextId + 1]
    requires t.requests.Keys == s.requests.Keys + {s.nextId, s.nextId + 1}
    requires forall id :: id in s.requests ==> t.requests[id] == s.requests[id]
    requires t.requests[s.nextId + 1].status == Pending
    requires forall x :: x in u.order <==> x in t.order && x != s.nextId
    requires u.requests.Keys == t.requests.Keys - {s.nextId}
    requires forall k :: k in u.requests ==> u.requests[k] == t.requests[k]
    ensures NextRequest(u) == Some(t.requests[s.nextId + 1])
  {
    assert s.nextId + 1 in t.order;
    forall x | x in u.order && x != s.nextId + 1
      ensures !IsPending(u.requests, x)
    {
      assert x in t.order;
      if x !in s.order {
        assert x in [s.nextId, s.nextId + 1];
      }
    }
    OnlyPendingOffered(u, s.nextId + 1);
  }

  /** When a single queued request is pending, it is the next one offered. */
  lemma OnlyPendingOffered(t: Store, id: int)
    requires id in t.order && IsPending(t.requests, id)
    requires forall x :: x in t.order && x != id ==> !IsPending(t.requests, x)
    ensures NextRequest(t) == Some(t.requests[id])
  {
    var n :| 0 <= n < |t.order| && t.order[n] == id;
    assert IsPending(t.requests, t.order[n]);
    match FirstPending(t.order, t.requests)
    case None =>
      assert false;
    case Some(k) =>
      assert t.order[k] in t.order;
  }

  /** The request at the first pending position of the queue is the next one offered. */
  lemma OfferedAt(t: Store, n: nat)
    requires n < |t.order| && IsPending(t.requests, t.order[n])
    requires forall j :: 0 <= j < n ==> !IsPending(t.requests, t.order[j])
    ensures NextRequest(t) == Some(t.requests[t.order[n]])
  {
    FirstPendingAt(t.order, t.requests, n);
  }

  /** A table that extends an idle one, keeping its rows' statuses and its queue as a
      prefix, has nothing pending in that prefix. */
  lemma IdlePrefix(s: Store, t: Store)
    requires forall id :: id in s.requests ==> s.requests[id].status != Pending
    requires forall id :: id in s.order ==> id in s.requests
    requires |s.order| <= |t.order| && t.order[..|s.order|] == s.order
    requires forall id :: id in s.requests && id in t.requests ==> t.requests[id].status == s.requests[id].status
    ensures forall j :: 0 <= j < |s.order| ==> !IsPending(t.requests, t.order[j])
  {
    forall j | 0 <= j < |s.order|
      ensures !IsPending(t.requests, t.order[j])
    {
      assert t.order[j] == t.order[..|s.order|][j] == s.order[j];
    }
  }

  // ---------------------------------------------------------------------------
  // The store and the bot as objects
  // ---------------------------------------------------------------------------

  class RequestStore {
    var requests: map<int, Request>
    var order: seq<int>
    var nextId: int
    var balances: map<int, int>

    function Value(): Store
      reads this
    {
      Store(requests, order, nextId, balances)
    }

    constructor ()
      ensures Value() == Store(map[], [], 1, map[]) && Valid(Value())
    {
      requests, order, nextId, balances := map[], [], 1, map[];
    }

    method Get(id: int) returns (r: Option<Request>)
      ensures r == Lookup(Value(), id)
    {
      r := if id in requests then Some(requests[id]) else None;
    }

    method Next() returns (r: Option<Request>)
      ensures r == NextRequest(Value())
    {
      r := NextRequest(Value());
    }

    method Postpone(id: int)
      modifies this
      ensures Value() == Postponed(old(Value()), id)
    {
      order := MoveToBack(order, id);
    }

    method Delete(id: int)
      modifies this
      ensures Value() == Deleted(old(Value()), id)
    {
      requests := requests - {id};
      order := Remove(order, id);
    }

    method Add(userId: int, payload: Payload) returns (id: int)
      modifies this
      ensures id == old(nextId) && Value() == Added(old(Value()), userId, payload)
    {
      id := nextId;
      requests := requests[id := Request(id, userId, userId, payload, Pending, None, None)];
      order := order + [id];
      nextId := nextId + 1;
    }

    method Deduct(user: int, amount: int)
      modifies this
      ensures Value() == Deducted(old(Value()), user, amount)
    {
      balances := balances[user := Balance(Value(), user) - amount];
    }

    method Credit(user: int, amount: int)
      modifies this
      ensures Value() == Credited(old(Value()), user, amount)
    {
      balances := balances[user := Balance(Value(), user) + amount];
    }

    method Register(user: int)
      modifies this
      ensures Value() == Registered(old(Value()), user)
    {
      if user !in balances {
        balances := balances[user := 0];
      }
    }

    method GetBalance(user: int) returns (b: int)
      ensures b == Balance(Value(), user)
    {
      b := if user in balances then balances[user] else 0;
    }

    method SetAdminMessage(id: int, m: nat)
      modifies this
      ensures Value() == WithAdminMessage(old(Value()), id, m)
    {
      if id in requests {
        requests := requests[id := requests[id].(adminMessageId := Some(m))];
      }
    }

    method SetDetailMessage(id: int, m: nat)
      modifies this
      ensures Value() == WithDetailMessage(old(Value()), id, m)
    {
      if id in requests {
        requests := requests[id := requests[id].(detailMessageId := Some(m))];
      }
    }

    method SetStatus(id: int, st: Status)
      modifies this
      ensures Value() == WithStatus(old(Value()), id, st)
    {
      if id in requests {
        requests := requests[id := requests[id].(status := st)];
      }
    }
  }

  /** The bot's outgoing messages; a message's id is its position in the log. */
  class Outbox {
    var sent: seq<Message>

    constructor ()
      ensures sent == []
    {
      sent := [];
    }

    method Send(chat: int, notice: Notice) returns (messageId: nat)
      modifies this
      ensures sent == old(sent) + [Message(chat, notice)]
      ensures messageId == |old(sent)|
    {
      messageId := |sent|;
      sent := sent + [Message(chat, notice)];
    }
  }
}
