/** handlers/internet_providers.py: paying an ADSL bill. The user picks a provider, then a
    speed, then types a phone number, then confirms; confirming queues a request carrying
    the price plus a commission of 600 per started block of 5000. */
module InternetProviders {
  import opened Common
  import opened PyText
  import opened Backend
  import QueueService

  const INTERNET_PROVIDERS: seq<string> := [
    "تراسل", "أم تي أن", "سيرياتيل", "آية", "سوا", "رن نت", "سما نت", "أمنية",
    "ناس", "هايبر نت", "MTS", "يارا", "دنيا", "آينت"
  ]

  datatype Speed = Speed(caption: string, price: int)

  const INTERNET_SPEEDS: seq<Speed> := [
    Speed("1 ميغا", 19500),
    Speed("2 ميغا", 25000),
    Speed("4 ميغا", 39000),
    Speed("8 ميغا", 65000),
    Speed("16 ميغا", 84000)
  ]

  const COMMISSION_PER_5000: int := 600

  // ---------------------------------------------------------------------------
  // Commission
  // ---------------------------------------------------------------------------

  /** `calculate_commission`: 600 for every started block of 5000, nothing for amounts
      that are not positive. */
  function CalculateCommission(amount: int): (r: int)
    ensures amount <= 0 ==> r == 0
    ensures amount > 0 ==> r > 0 && r % COMMISSION_PER_5000 == 0
    ensures amount > 0 ==> (r / COMMISSION_PER_5000 - 1) * 5000 < amount <= (r / COMMISSION_PER_5000) * 5000
  {
    if amount <= 0 then 0
    else
      var blocks := (amount + 5000 - 1) / 5000;
      blocks * COMMISSION_PER_5000
  }

  /** A larger amount never costs a smaller commission. */
  lemma CommissionMonotone(a: int, b: int)
    requires a <= b
    ensures CalculateCommission(a) <= CalculateCommission(b)
  {
    if a > 0 {
      var ka := CalculateCommission(a) / COMMISSION_PER_5000;
      var kb := CalculateCommission(b) / COMMISSION_PER_5000;
      // (ka - 1) * 5000 < a <= b <= kb * 5000, so ka - 1 < kb
      assert (ka - 1) * 5000 < kb * 5000;
      assert ka <= kb;
    }
  }

  // ---------------------------------------------------------------------------
  // Phone normalisation
  // ---------------------------------------------------------------------------

  /** A character of the class `[+\d]`. */
  predicate IsPhoneChar(c: char) {
    c == '+' || IsDigit(c)
  }

  /** `s.replace(c, "")`. */
  function Without(s: string, c: char): (r: string)
    ensures forall i :: 0 <= i < |r| ==> r[i] != c
  {
    if s == [] then []
    else (if s[0] == c then [] else [s[0]]) + Without(s[1..], c)
  }

  /** The greedy match of `[+\d]+`'s characters at the start of `s`. */
  function PhoneRun(s: string): (r: string)
    ensures |r| <= |s| && r == s[..|r|]
    ensures forall i :: 0 <= i < |r| ==> IsPhoneChar(r[i])
    ensures |s| > 0 && IsPhoneChar(s[0]) ==> |r| > 0
  {
    if |s| > 0 && IsPhoneChar(s[0]) then [s[0]] + PhoneRun(s[1..]) else []
  }

  /** `re.findall(r"[+\d]+", s)`: the maximal runs of phone characters, left to right. */
  function FindPhoneRuns(s: string): seq<string>
    decreases |s|
  {
    if s == [] then []
    else if !IsPhoneChar(s[0]) then FindPhoneRuns(s[1..])
    else
      var run := PhoneRun(s);
      [run] + FindPhoneRuns(s[|run|..])
  }

  /** `''.join(parts)`. */
  function Concat(parts: seq<string>): string {
    if parts == [] then [] else parts[0] + Concat(parts[1..])
  }

  /** Reference definition: the phone characters of `s`, in their order. */
  function KeepPhoneChars(s: string): (r: string)
    ensures forall i :: 0 <= i < |r| ==> IsPhoneChar(r[i])
  {
    if s == [] then [] else (if IsPhoneChar(s[0]) then [s[0]] else []) + KeepPhoneChars(s[1..])
  }

  lemma {:induction false} KeepAppend(a: string, b: string)
    ensures KeepPhoneChars(a + b) == KeepPhoneChars(a) + KeepPhoneChars(b)
  {
    if a != [] {
      KeepAppend(a[1..], b);
      assert (a + b)[1..] == a[1..] + b;
    } else {
      assert a + b == b;
    }
  }

  lemma {:induction false} KeepAllPhone(s: string)
    requires forall i :: 0 <= i < |s| ==> IsPhoneChar(s[i])
    ensures KeepPhoneChars(s) == s
  {
    if s != [] {
      KeepAllPhone(s[1..]);
    }
  }

  lemma {:induction false} KeepWithout(s: string, c: char)
    requires !IsPhoneChar(c)
    ensures KeepPhoneChars(Without(s, c)) == KeepPhoneChars(s)
  {
    if s != [] {
      KeepWithout(s[1..], c);
      KeepAppend(if s[0] == c then [] else [s[0]], Without(s[1..], c));
    }
  }

  lemma {:induction false} RunsAreKeptChars(s: string)
    ensures Concat(FindPhoneRuns(s)) == KeepPhoneChars(s)
    decreases |s|
  {
    if s != [] {
      if !IsPhoneChar(s[0]) {
        RunsAreKeptChars(s[1..]);
      } else {
        var run := PhoneRun(s);
        var rest := s[|run|..];
        RunsAreKeptChars(rest);
        assert s == run + rest;
        KeepAppend(run, rest);
        KeepAllPhone(run);
        var runs := [run] + FindPhoneRuns(rest);
        assert runs[0] == run && runs[1..] == FindPhoneRuns(rest);
      }
    }
  }

  /** `_normalize_phone`: drop spaces, dashes and underscores, then join the `[+\d]+` runs.
      The result is exactly the `+`/digit characters of the input, in their order. */
  function NormalizePhone(txt: string): (r: string)
    ensures r == KeepPhoneChars(txt)
    ensures forall i :: 0 <= i < |r| ==> IsPhoneChar(r[i])
  {
    var clean := Without(Without(Without(txt, ' '), '-'), '_');
    RunsAreKeptChars(clean);
    KeepWithout(Without(Without(txt, ' '), '-'), '_');
    KeepWithout(Without(txt, ' '), '-');
    KeepWithout(txt, ' ');
    Concat(FindPhoneRuns(clean))
  }

  /** Normalising a normalised number changes nothing. */
  lemma NormalizePhoneIdempotent(txt: string)
    ensures NormalizePhone(NormalizePhone(txt)) == NormalizePhone(txt)
  {
    KeepAllPhone(NormalizePhone(txt));
  }

  // ---------------------------------------------------------------------------
  // The per-user step machine
  // ---------------------------------------------------------------------------

  /** The `step` values of `user_net_state`. */
  datatype NetStage = ChoosingProvider | ChoosingSpeed | EnteringPhone | Confirming

  /** One user's entry of `user_net_state`; a key the dict lacks is `None`. */
  datatype NetState = NetState(
    step: NetStage,
    provider: Option<string>,
    speed: Option<string>,
    price: Option<int>,
    phone: Option<string>)

  datatype NetResult = NetResult(states: map<int, NetState>, outcome: Outcome)

  /** What every reachable entry satisfies: a provider comes from the list, speed and price
      come together from the same row of the speeds table, the phone entry step has a
      price, and the confirm step has a price and a phone of at least five characters. */
  ghost predicate SessionOk(st: NetState) {
    && (st.provider.Some? ==> st.provider.value in INTERNET_PROVIDERS)
    && (st.price.Some? <==> st.speed.Some?)
    && (st.price.Some? && st.speed.Some? ==> Speed(st.speed.value, st.price.value) in INTERNET_SPEEDS)
    && (st.phone.Some? ==> |st.phone.value| >= 5 && st.phone.value == NormalizePhone(st.phone.value))
    && (st.step == EnteringPhone ==> st.price.Some?)
    && (st.step == Confirming ==> st.price.Some? && st.phone.Some?)
  }

  ghost predicate AllSessionsOk(states: map<int, NetState>) {
    forall u :: u in states ==> SessionOk(states[u])
  }

  /** Nobody but `user` is affected. */
  ghost predicate OthersUnchanged(before: map<int, NetState>, after: map<int, NetState>, user: int) {
    forall u :: u != user ==> (u in after <==> u in before) && (u in before ==> after[u] == before[u])
  }

  /** `open_net_menu`, and `cb_back_to_prov`: start over at the provider choice. */
  function OpenMenuStep(states: map<int, NetState>, user: int): (r: map<int, NetState>)
    ensures AllSessionsOk(states) ==> AllSessionsOk(r)
    ensures OthersUnchanged(states, r, user)
    ensures user in r && r[user] == NetState(ChoosingProvider, None, None, None, None)
  {
    states[user := NetState(ChoosingProvider, None, None, None, None)]
  }

  /** `cb_choose_provider`: the name after `iprov:` must be one of the providers. */
  function ChooseProviderStep(states: map<int, NetState>, user: int, data: string): (r: NetResult)
    ensures AllSessionsOk(states) ==> AllSessionsOk(r.states)
    ensures OthersUnchanged(states, r.states, user)
    ensures r.outcome != Completed ==> r.states == states
    ensures r.outcome == Completed <==> StartsWith(data, "iprov:") && data[6..] in INTERNET_PROVIDERS
    ensures r.outcome == Completed ==> user in r.states && r.states[user] == NetState(ChoosingSpeed, Some(data[6..]), None, None, None)
  {
    if !StartsWith(data, "iprov:") then NetResult(states, Ignored)
    else
      var provider := data[6..];
      if provider !in INTERNET_PROVIDERS then NetResult(states, Refused)
      else NetResult(states[user := NetState(ChoosingSpeed, Some(provider), None, None, None)], Completed)
  }

  /** `cb_choose_speed`: `INTERNET_SPEEDS[int(...)]` (negative indices count from the end);
      the entry is created if missing and its other keys are kept. */
  function ChooseSpeedStep(states: map<int, NetState>, user: int, data: string): (r: NetResult)
    ensures AllSessionsOk(states) ==> AllSessionsOk(r.states)
    ensures OthersUnchanged(states, r.states, user)
    ensures r.outcome != Completed ==> r.states == states
    ensures r.outcome == Completed ==>
      && user in r.states
      && r.states[user].step == EnteringPhone
      && r.states[user].speed.Some? && r.states[user].price.Some?
      && Speed(r.states[user].speed.value, r.states[user].price.value) in INTERNET_SPEEDS
      && (user in states ==> r.states[user].provider == states[user].provider && r.states[user].phone == states[user].phone)
    ensures r.outcome == Ignored <==> !StartsWith(data, "ispeed:")
    ensures r.outcome == Completed <==>
      StartsWith(data, "ispeed:") && ParseInt(data[7..]).Some? && PyIndex(INTERNET_SPEEDS, ParseInt(data[7..]).value).Some?
    ensures r.outcome == Completed ==>
      var row := PyIndex(INTERNET_SPEEDS, ParseInt(data[7..]).value).value;
      r.states[user].speed == Some(row.caption) && r.states[user].price == Some(row.price)
  {
    if !StartsWith(data, "ispeed:") then NetResult(states, Ignored)
    else
      match ParseInt(data[7..])
      case None => NetResult(states, Raised)
      case Some(idx) =>
        match PyIndex(INTERNET_SPEEDS, idx)
        case None => NetResult(states, Raised)
        case Some(speed) =>
          var st := if user in states then states[user] else NetState(ChoosingProvider, None, None, None, None);
          var st' := st.(step := EnteringPhone, speed := Some(speed.caption), price := Some(speed.price));
          assert AllSessionsOk(states) ==> AllSessionsOk(states[user := st']) by {
            if AllSessionsOk(states) {
              SpeedChosenOk(st, speed);
              UpdateOk(states, user, st');
            }
          }
          NetResult(states[user := st'], Completed)
  }

  lemma SpeedChosenOk(st: NetState, speed: Speed)
    requires SessionOk(st) && speed in INTERNET_SPEEDS
    ensures SessionOk(st.(step := EnteringPhone, speed := Some(speed.caption), price := Some(speed.price)))
  {
  }

  lemma UpdateOk(states: map<int, NetState>, user: int, st: NetState)
    requires AllSessionsOk(states) && SessionOk(st)
    ensures AllSessionsOk(states[user := st])
  {
  }

  /** `cb_back_to_speed`: back to the speed choice; a user with no entry raises KeyError. */
  function BackToSpeedStep(states: map<int, NetState>, user: int): (r: NetResult)
    ensures AllSessionsOk(states) ==> AllSessionsOk(r.states)
    ensures OthersUnchanged(states, r.states, user)
    ensures user !in states ==> r == NetResult(states, Raised)
    ensures user in states ==> r.outcome == Completed && user in r.states && r.states[user] == states[user].(step := ChoosingSpeed)
  {
    if user !in states then NetResult(states, Raised)
    else NetResult(states[user := states[user].(step := ChoosingSpeed)], Completed)
  }

  /** `cb_cancel`: forget the user's entry. */
  function CancelStep(states: map<int, NetState>, user: int): (r: map<int, NetState>)
    ensures AllSessionsOk(states) ==> AllSessionsOk(r)
    ensures OthersUnchanged(states, r, user) && user !in r
  {
    states - {user}
  }

  /** Cancelling twice is cancelling once. */
  lemma CancelIdempotent(states: map<int, NetState>, user: int)
    ensures CancelStep(CancelStep(states, user), user) == CancelStep(states, user)
  {
    assert CancelStep(states, user) - {user} == CancelStep(states, user);
  }

  /** `handle_phone_entry`, for users at the phone step: a normalised number shorter than
      five characters is refused; otherwise the entry moves to the confirm step with that
      number. The summary then reads the price, provider and speed, raising KeyError when
      one is missing (after the entry has already moved on). */
  function PhoneEntryStep(states: map<int, NetState>, user: int, text: Option<string>): (r: NetResult)
    ensures AllSessionsOk(states) ==> AllSessionsOk(r.states)
    ensures OthersUnchanged(states, r.states, user)
    ensures r.outcome == Ignored || r.outcome == Refused ==> r.states == states
    ensures r.outcome == Refused <==>
      user in states && states[user].step == EnteringPhone && text.Some? && |NormalizePhone(text.value)| < 5
    ensures r.states != states ==>
      user in states && states[user].step == EnteringPhone && text.Some? && user in r.states &&
      r.states[user] == states[user].(step := Confirming, phone := Some(NormalizePhone(text.value)))
    ensures user in states && states[user].step == EnteringPhone && text.Some? && |NormalizePhone(text.value)| >= 5 ==>
      && user in r.states
      && r.states[user] == states[user].(step := Confirming, phone := Some(NormalizePhone(text.value)))
      && (r.outcome == Completed <==> states[user].price.Some? && states[user].provider.Some? && states[user].speed.Some?)
  {
    if user !in states || states[user].step != EnteringPhone then NetResult(states, Ignored)
    else
      match text
      case None => NetResult(states, Raised)
      case Some(t) =>
        var phone := NormalizePhone(t);
        if |phone| < 5 then NetResult(states, Refused)
        else
          var st := states[user];
          var after := states[user := st.(step := Confirming, phone := Some(phone))];
          assert SessionOk(st) ==> SessionOk(after[user]) by {
            NormalizePhoneIdempotent(t);
          }
          if st.price.None? || st.provider.None? || st.speed.None? then NetResult(after, Raised)
          else NetResult(after, Completed)
  }

  /** `cb_confirm`: only an entry at the confirm step is submitted: the request carries the
      provider, speed, phone, price, commission and their sum, and is offered to the admin.
      The entry itself stays as it is. */
  function ConfirmStep(w: World, states: map<int, NetState>, user: int, chat: int): (r: Step)
    ensures r.outcome == Completed ==> user in states && states[user].step == Confirming
    ensures r.outcome != Completed ==> r.world == w
    ensures Valid(w.store) ==> Valid(r.world.store)
  {
    if user !in states || states[user].step != Confirming then Step(w, Refused)
    else
      var st := states[user];
      if st.price.None? || st.provider.None? || st.speed.None? || st.phone.None? then Step(w, Raised)
      else
        var offered := QueueService.ProcessQueueStep(World(Added(w.store, user, BillFor(st)), w.sent));
        Step(World(offered.store, offered.sent + [Message(chat, Submitted)]), Completed)
  }

  /** The request `cb_confirm` submits for a complete entry: the commission is computed
      from the price and added to it. */
  function BillFor(st: NetState): Payload
    requires st.price.Some? && st.provider.Some? && st.speed.Some? && st.phone.Some?
  {
    var price := st.price.value;
    var comm := CalculateCommission(price);
    InternetBill(st.provider.value, st.speed.value, st.phone.value, price, comm, price + comm)
  }

  /** A confirmed entry queues exactly one new request, at the back, for that user, whose
      total is the catalogue price plus its commission; no money moves yet. */
  lemma ConfirmQueuesPricePlusCommission(w: World, states: map<int, NetState>, user: int, chat: int)
    requires Valid(w.store) && AllSessionsOk(states)
    requires user in states && states[user].step == Confirming && states[user].provider.Some?
    ensures
      var st := states[user];
      var r := ConfirmStep(w, states, user, chat);
      var req := r.world.store.requests[w.store.nextId];
      && r.outcome == Completed
      && r.world.store.requests.Keys == w.store.requests.Keys + {w.store.nextId}
      && r.world.store.order == w.store.order + [w.store.nextId]
      && r.world.store.balances == w.store.balances
      && req.userId == user && req.status == Pending
      && req.payload.InternetBill?
      && req.payload.phone == st.phone.value && |req.payload.phone| >= 5
      && TotalPrice(req.payload) == st.price.value + CalculateCommission(st.price.value)
      && Speed(req.payload.speed, req.payload.price) in INTERNET_SPEEDS
  {
    var st := states[user];
    assert SessionOk(st);
    ConfirmQueuesBill(w, states, user, chat);
  }

  /** The request a confirm queues is `BillFor` the session, at the back of the queue. */
  lemma ConfirmQueuesBill(w: World, states: map<int, NetState>, user: int, chat: int)
    requires Valid(w.store) && AllSessionsOk(states)
    requires user in states && states[user].step == Confirming && states[user].provider.Some?
    ensures states[user].price.Some? && states[user].speed.Some? && states[user].phone.Some?
    ensures
      var r := ConfirmStep(w, states, user, chat);
      && r.outcome == Completed
      && r.world.store.requests.Keys == w.store.requests.Keys + {w.store.nextId}
      && r.world.store.order == w.store.order + [w.store.nextId]
      && r.world.store.balances == w.store.balances
      && r.world.store.requests[w.store.nextId].userId == user
      && r.world.store.requests[w.store.nextId].status == Pending
      && r.world.store.requests[w.store.nextId].payload == BillFor(states[user])
  {
    var st := states[user];
    assert SessionOk(st);
    var s := Added(w.store, user, BillFor(st));
    var offered := QueueService.ProcessQueueStep(World(s, w.sent));
    assert ConfirmStep(w, states, user, chat) == Step(World(offered.store, offered.sent + [Message(chat, Submitted)]), Completed);
    QueueService.OfferKeepsRequests(World(s, w.sent));
    assert w.store.nextId in s.requests && s.requests[w.store.nextId].payload == BillFor(st);
  }

  // ---------------------------------------------------------------------------
  // The handlers on the module-level dict
  // ---------------------------------------------------------------------------

  /** `user_net_state`, one entry per user in the middle of a payment. */
  class NetSessions {
    var states: map<int, NetState>

    ghost predicate Valid()
      reads this
    {
      AllSessionsOk(states)
    }

    constructor ()
      ensures states == map[] && Valid()
    {
      states := map[];
    }

    method OpenMenu(user: int)
      modifies this
      ensures states == OpenMenuStep(old(states), user)
      ensures old(Valid()) ==> Valid()
    {
      states := states[user := NetState(ChoosingProvider, None, None, None, None)];
    }

    method ChooseProvider(user: int, data: string) returns (outcome: Outcome)
      modifies this
      ensures NetResult(states, outcome) == ChooseProviderStep(old(states), user, data)
      ensures old(Valid()) ==> Valid()
    {
      if !StartsWith(data, "iprov:") {
        return Ignored;
      }
      var provider := data[6..];
      if provider !in INTERNET_PROVIDERS {
        return Refused;
      }
      states := states[user := NetState(ChoosingSpeed, Some(provider), None, None, None)];
      return Completed;
    }

    method ChooseSpeed(user: int, data: string) returns (outcome: Outcome)
      modifies this
      ensures NetResult(states, outcome) == ChooseSpeedStep(old(states), user, data)
      ensures old(Valid()) ==> Valid()
    {
      if !StartsWith(data, "ispeed:") {
        return Ignored;
      }
      var idx := ParseInt(data[7..]);
      if idx.None? {
        return Raised;
      }
      var speed := PyIndex(INTERNET_SPEEDS, idx.value);
      if speed.None? {
        return Raised;
      }
      var st := if user in states then states[user] else NetState(ChoosingProvider, None, None, None, None);
      states := states[user := st.(step := EnteringPhone, speed := Some(speed.value.caption), price := Some(speed.value.price))];
      return Completed;
    }

    method BackToSpeed(user: int) returns (outcome: Outcome)
      modifies this
      ensures NetResult(states, outcome) == BackToSpeedStep(old(states), user)
      ensures old(Valid()) ==> Valid()
    {
      if user !in states {
        return Raised;
      }
      states := states[user := states[user].(step := ChoosingSpeed)];
      return Completed;
    }

    method Cancel(user: int)
      modifies this
      ensures states == CancelStep(old(states), user)
      ensures old(Valid()) ==> Valid()
    {
      states := states - {user};
    }

    method PhoneEntry(user: int, text: Option<string>) returns (outcome: Outcome)
      modifies this
      ensures NetResult(states, outcome) == PhoneEntryStep(old(states), user, text)
      ensures old(Valid()) ==> Valid()
    {
      if user !in states || states[user].step != EnteringPhone {
        return Ignored;
      }
      if text.None? {
        return Raised;
      }
      var phone := NormalizePhone(text.value);
      if |phone| < 5 {
        return Refused;
      }
      var st := states[user];
      states := states[user := st.(step := Confirming, phone := Some(phone))];
      if st.price.None? || st.provider.None? || st.speed.None? {
        return Raised;
      }
      return Completed;
    }

    method Confirm(user: int, chat: int, store: RequestStore, bot: Outbox) returns (outcome: Outcome)
      modifies store, bot
      ensures Step(World(store.Value(), bot.sent), outcome) == ConfirmStep(old(World(store.Value(), bot.sent)), states, user, chat)
    {
      if user !in states || states[user].step != Confirming {
        return Refused;
      }
      var st := states[user];
      if st.price.None? || st.provider.None? || st.speed.None? || st.phone.None? {
        return Raised;
      }
      ghost var w := World(store.Value(), bot.sent);
      var id := store.Add(user, BillFor(st));
      ghost var mid := World(store.Value(), bot.sent);
      assert mid == World(Added(w.store, user, BillFor(st)), w.sent);
      QueueService.ProcessQueue(store, bot);
      ghost var offered := QueueService.ProcessQueueStep(mid);
      assert World(store.Value(), bot.sent) == offered;
      var doneMsg := bot.Send(chat, Submitted);
      assert bot.sent == offered.sent + [Message(chat, Submitted)];
      return Completed;
    }
  }
}
