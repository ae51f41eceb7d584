/** handlers/bill_and_units.py: buying Syriatel and MTN units. The user opens the menu,
    picks a carrier, picks a unit from that carrier's price list and confirms; confirming
    queues a request carrying the unit's name and price. The Syriatel bill payment is
    modelled up to its balance check. */
module BillAndUnits {
  import opened Common
  import opened PyText
  import opened Backend

  // ---------------------------------------------------------------------------
  // The price lists
  // ---------------------------------------------------------------------------

  /** One row of a price list; its name is the unit count followed by the word for units. */
  datatype Unit = Unit(count: nat, price: int)

  const SYRIATEL_UNITS: seq<Unit> := [
    Unit(1000, 1200), Unit(1500, 1800), Unit(2013, 2400), Unit(3068, 3682), Unit(4506, 5400),
    Unit(5273, 6285), Unit(7190, 8628), Unit(9587, 11500), Unit(13039, 15500)
  ]

  const MTN_UNITS: seq<Unit> := [
    Unit(1000, 1200), Unit(5000, 6000), Unit(7000, 8400), Unit(10000, 12000), Unit(15000, 18000),
    Unit(20000, 24000), Unit(23000, 27600), Unit(30000, 36000), Unit(36000, 43200)
  ]

  function Catalogue(carrier: Carrier): seq<Unit> {
    if carrier == Syriatel then SYRIATEL_UNITS else MTN_UNITS
  }

  /** The `name` of a row, e.g. `1000 وحدة`. */
  function UnitName(u: Unit): (r: string)
    ensures StartsWith(r, NatStr(u.count))
  {
    NatStr(u.count) + " وحدة"
  }

  /** `_unit_label`: name, a dash, the price with thousands separators, and the currency. */
  function UnitLabel(u: Unit): (r: string)
    ensures StartsWith(r, UnitName(u))
  {
    UnitName(u) + " - " + Grouped(u.price) + " ل.س"
  }

  /** Unit counts strictly increase down the list. */
  ghost predicate CountsIncrease(units: seq<Unit>) {
    forall i, j :: 0 <= i < j < |units| ==> units[i].count < units[j].count
  }

  lemma CataloguesIncrease()
    ensures CountsIncrease(SYRIATEL_UNITS) && CountsIncrease(MTN_UNITS)
  {
  }

  /** The digits a label starts with spell its unit count, so two labels that are equal
      belong to rows with the same count. */
  lemma LabelCount(u: Unit)
    ensures DigitsValue(DigitRun(UnitLabel(u))) == u.count
  {
    var ds := NatStr(u.count);
    var rest := " وحدة" + " - " + Grouped(u.price) + " ل.س";
    assert UnitLabel(u) == ds + rest;
    assert rest[0] == ' ';
    NatStrValue(u.count);
    DigitRunOf(ds, rest);
  }

  /** Rows of a list whose counts increase have pairwise different labels. */
  lemma LabelsDistinct(units: seq<Unit>, i: nat, j: nat)
    requires CountsIncrease(units) && i < j < |units|
    ensures UnitLabel(units[i]) != UnitLabel(units[j])
  {
    LabelCount(units[i]);
    LabelCount(units[j]);
  }

  /** The labels of each carrier's price list are pairwise different. */
  lemma CatalogueLabelsDistinct(carrier: Carrier, i: nat, j: nat)
    requires i < j < |Catalogue(carrier)|
    ensures UnitLabel(Catalogue(carrier)[i]) != UnitLabel(Catalogue(carrier)[j])
  {
    CataloguesIncrease();
    LabelsDistinct(Catalogue(carrier), i, j);
  }

  /** `next(u for u in units if _unit_label(u) == text)`: the first row whose label is the
      text, or `None`. */
  function FindByLabel(units: seq<Unit>, text: string): (r: Option<Unit>)
    ensures r.Some? ==> r.value in units && UnitLabel(r.value) == text
    ensures r.None? <==> forall u :: u in units ==> UnitLabel(u) != text
  {
    if units == [] then None
    else if UnitLabel(units[0]) == text then Some(units[0])
    else FindByLabel(units[1..], text)
  }

  /** The `next(...)` search, row by row. */
  method FindUnit(units: seq<Unit>, text: string) returns (r: Option<Unit>)
    ensures r == FindByLabel(units, text)
  {
    var i := 0;
    while i < |units|
      invariant 0 <= i <= |units|
      invariant FindByLabel(units[i..], text) == FindByLabel(units, text)
    {
      if UnitLabel(units[i]) == text {
        return Some(units[i]);
      }
      assert units[i..][1..] == units[i + 1..];
      i := i + 1;
    }
    return None;
  }

  /** On a list whose counts increase, the label of row `i` finds row `i` itself. */
  lemma {:induction false} LabelSelectsItsUnit(units: seq<Unit>, i: nat)
    requires CountsIncrease(units) && i < |units|
    ensures FindByLabel(units, UnitLabel(units[i])) == Some(units[i])
  {
    if i > 0 {
      LabelsDistinct(units, 0, i);
      assert units[1..][i - 1] == units[i];
      LabelSelectsItsUnit(units[1..], i - 1);
    }
  }

  // ---------------------------------------------------------------------------
  // The per-user step machine
  // ---------------------------------------------------------------------------

  /** The `step` values of `user_states`. */
  datatype UnitStage =
    | SelectSyrUnit | SyrBillNumber | SelectMtnUnit | MtnBillNumber
    | SyrUnitNumber | MtnUnitNumber | SyrUnitFinal

  /** One user's entry of `user_states`; a key the dict lacks is `None`. `step` is `None`
      right after the main menu is opened. */
  datatype UnitState = UnitState(
    step: Option<UnitStage>,
    unit: Option<Unit>,
    number: Option<string>,
    amount: Option<int>,
    fee: Option<int>)

  datatype UnitsResult = UnitsResult(states: map<int, UnitState>, outcome: Outcome)

  /** An entry holding only a step. */
  function Fresh(step: Option<UnitStage>): UnitState {
    UnitState(step, None, None, None, None)
  }

  /** The step reached by selecting a row of the carrier's list. */
  function NumberStage(carrier: Carrier): UnitStage {
    if carrier == Syriatel then SyrUnitNumber else MtnUnitNumber
  }

  /** What every reachable entry satisfies: a Syriatel unit step holds a row of the
      Syriatel list, the MTN unit step a row of the MTN list, and no other step a unit. */
  ghost predicate UnitStateOk(st: UnitState) {
    if st.step == Some(SyrUnitNumber) || st.step == Some(SyrUnitFinal) then
      st.unit.Some? && st.unit.value in SYRIATEL_UNITS
    else if st.step == Some(MtnUnitNumber) then
      st.unit.Some? && st.unit.value in MTN_UNITS
    else
      st.unit.None?
  }

  ghost predicate AllUnitStatesOk(states: map<int, UnitState>) {
    forall u :: u in states ==> UnitStateOk(states[u])
  }

  /** Nobody but `user` is affected. */
  ghost predicate OthersUnchanged(before: map<int, UnitState>, after: map<int, UnitState>, user: int) {
    forall u :: u != user ==> (u in after <==> u in before) && (u in before ==> after[u] == before[u])
  }

  /** `open_main_menu` (step `None`) and `syr_units_menu` (step `select_syr_unit`): the
      entry is replaced by one holding only the step. */
  function ResetStep(states: map<int, UnitState>, user: int, step: Option<UnitStage>): (r: map<int, UnitState>)
    requires step != Some(SyrUnitNumber) && step != Some(SyrUnitFinal) && step != Some(MtnUnitNumber)
    ensures AllUnitStatesOk(states) ==> AllUnitStatesOk(r)
    ensures OthersUnchanged(states, r, user)
    ensures user in r && r[user].step == step && r[user].unit.None? && r[user].number.None?
    ensures user in r && r[user].amount.None? && r[user].fee.None?
  {
    states[user := Fresh(step)]
  }

  /** The step each `ubm:` action leads to; `back` and anything else lead nowhere. */
  function RouterStage(action: string): (r: Option<UnitStage>)
    ensures r.Some? ==> r.value in {SelectSyrUnit, SyrBillNumber, SelectMtnUnit, MtnBillNumber}
  {
    if action == "syr_units" then Some(SelectSyrUnit)
    else if action == "syr_bill" then Some(SyrBillNumber)
    else if action == "mtn_units" then Some(SelectMtnUnit)
    else if action == "mtn_bill" then Some(MtnBillNumber)
    else None
  }

  /** `ubm_router`: the action after `ubm:` starts the unit list or the bill number entry
      of a carrier, with an entry holding only that step; `back` and an unknown action leave
      every entry alone. */
  function UbmRouterStep(states: map<int, UnitState>, user: int, data: string): (r: UnitsResult)
    ensures AllUnitStatesOk(states) ==> AllUnitStatesOk(r.states)
    ensures OthersUnchanged(states, r.states, user)
    ensures r.outcome == Ignored <==> !StartsWith(data, "ubm:")
    ensures r.outcome != Ignored ==> r.outcome == Completed
    ensures r.states != states ==>
      && StartsWith(data, "ubm:") && RouterStage(data[4..]).Some?
      && user in r.states && r.states[user] == Fresh(RouterStage(data[4..]))
    ensures StartsWith(data, "ubm:") && RouterStage(data[4..]).None? ==> r.states == states
  {
    if !StartsWith(data, "ubm:") then UnitsResult(states, Ignored)
    else
      match RouterStage(data[4..])
      case None => UnitsResult(states, Completed)
      case Some(step) => UnitsResult(ResetStep(states, user, Some(step)), Completed)
  }

  /** The callback prefix of a carrier's unit list. */
  function ListPrefix(carrier: Carrier): string {
    if carrier == Syriatel then "syrunits:" else "mtnunits:"
  }

  /** `syr_units_inline_handler` / `mtn_units_inline_handler`: the data must split into
      exactly three `:`-separated parts (ValueError otherwise). `page` only redraws the list,
      after reading the page number; `sel` stores the row at that index (negative indices
      count from the end; IndexError past either end) and moves to the number step. */
  function UnitsInlineStep(states: map<int, UnitState>, user: int, data: string, carrier: Carrier): (r: UnitsResult)
    ensures AllUnitStatesOk(states) ==> AllUnitStatesOk(r.states)
    ensures OthersUnchanged(states, r.states, user)
    ensures r.outcome == Ignored <==> !StartsWith(data, ListPrefix(carrier))
    ensures r.outcome != Completed ==> r.states == states
    ensures StartsWith(data, ListPrefix(carrier)) && |Split(data, ':')| != 3 ==> r.outcome == Raised
    ensures r.states != states ==>
      && user in r.states
      && r.states[user].step == Some(NumberStage(carrier))
      && r.states[user].unit.Some? && r.states[user].unit.value in Catalogue(carrier)
      && Split(data, ':')[1] == "sel"
  {
    if !StartsWith(data, ListPrefix(carrier)) then UnitsResult(states, Ignored)
    else
      var parts := Split(data, ':');
      if |parts| != 3 then UnitsResult(states, Raised)
      else if parts[1] == "page" then
        UnitsResult(states, if ParseInt(parts[2]).None? then Raised else Completed)
      else if parts[1] == "sel" then
        match ParseInt(parts[2])
        case None => UnitsResult(states, Raised)
        case Some(i) =>
          match PyIndex(Catalogue(carrier), i)
          case None => UnitsResult(states, Raised)
          case Some(u) =>
            var st := UnitState(Some(NumberStage(carrier)), Some(u), None, None, None);
            assert UnitStateOk(st);
            UnitsResult(states[user := st], Completed)
      else UnitsResult(states, Completed)
  }

  /** A `sel` button written with a row's index selects that row, for every row. */
  lemma SelButtonPicksRow(states: map<int, UnitState>, user: int, data: string, carrier: Carrier, word: string, i: nat)
    requires StartsWith(data, ListPrefix(carrier)) && Split(data, ':') == [word, "sel", Str(i)]
    requires i < |Catalogue(carrier)|
    ensures
      var r := UnitsInlineStep(states, user, data, carrier);
      && r.outcome == Completed
      && r.states == states[user := UnitState(Some(NumberStage(carrier)), Some(Catalogue(carrier)[i]), None, None, None)]
  {
    var parts := Split(data, ':');
    assert parts[1] == "sel" && parts[1] != "page";
    ParseIntStr(i);
    assert ParseInt(parts[2]) == Some(i);
    assert PyIndex(Catalogue(carrier), i) == Some(Catalogue(carrier)[i]);
  }

  /** `syr_unit_select`, for users at `select_syr_unit`: text equal to a row's label moves
      to the final step with that row; any other text is ignored. */
  function SyrUnitSelectStep(states: map<int, UnitState>, user: int, text: Option<string>): (r: UnitsResult)
    ensures AllUnitStatesOk(states) ==> AllUnitStatesOk(r.states)
    ensures OthersUnchanged(states, r.states, user)
    ensures r.outcome == Completed || r.outcome == Ignored
    ensures r.outcome == Ignored ==> r.states == states
    ensures r.outcome == Completed <==>
      && user in states && states[user].step == Some(SelectSyrUnit)
      && text.Some? && exists u :: u in SYRIATEL_UNITS && UnitLabel(u) == text.value
    ensures r.outcome == Completed ==>
      && user in r.states && r.states[user].step == Some(SyrUnitFinal)
      && r.states[user].unit.Some? && r.states[user].unit.value in SYRIATEL_UNITS
      && UnitLabel(r.states[user].unit.value) == text.value
  {
    if user !in states || states[user].step != Some(SelectSyrUnit) || text.None? then UnitsResult(states, Ignored)
    else
      match FindByLabel(SYRIATEL_UNITS, text.value)
      case None => UnitsResult(states, Ignored)
      case Some(u) => UnitsResult(states[user := UnitState(Some(SyrUnitFinal), Some(u), None, None, None)], Completed)
  }

  /** Every button of the unit keyboard selects the very row it shows. */
  lemma KeyboardSelectsShownRow(states: map<int, UnitState>, user: int, i: nat)
    requires user in states && states[user].step == Some(SelectSyrUnit) && i < |SYRIATEL_UNITS|
    ensures SyrUnitSelectStep(states, user, Some(UnitLabel(SYRIATEL_UNITS[i])))
         == UnitsResult(states[user := UnitState(Some(SyrUnitFinal), Some(SYRIATEL_UNITS[i]), None, None, None)], Completed)
  {
    CataloguesIncrease();
    LabelSelectsItsUnit(SYRIATEL_UNITS, i);
  }

  /** `syr_unit_final_confirm` / `mtn_unit_final_confirm`: read the stored row (KeyError if
      the user or the row is missing) and the number (empty if missing), queue the request
      and tell the user it was sent. The admin is not offered it here and the entry stays. */
  function UnitFinalConfirmStep(w: World, states: map<int, UnitState>, user: int, carrier: Carrier, chat: int): (r: Step)
    ensures r.outcome == Completed || r.outcome == Raised
    ensures r.outcome == Raised <==> user !in states || states[user].unit.None?
    ensures r.outcome == Raised ==> r.world == w
    ensures Valid(w.store) ==> Valid(r.world.store)
    ensures r.outcome == Completed ==>
      var st := states[user];
      && r.world.store == Added(w.store, user, UnitTransfer(carrier, UnitName(st.unit.value), st.unit.value.price,
                                                             if st.number.Some? then st.number.value else ""))
      && r.world.sent == w.sent + [Message(chat, Submitted)]
  {
    if user !in states || states[user].unit.None? then Step(w, Raised)
    else
      var st := states[user];
      var u := st.unit.value;
      var number := if st.number.Some? then st.number.value else "";
      var s := Added(w.store, user, UnitTransfer(carrier, UnitName(u), u.price, number));
      Step(World(s, w.sent + [Message(chat, Submitted)]), Completed)
  }

  /** Either confirm button queues exactly one new request, at the back, for that user,
      carrying the unit stored for the user, that unit's price and the stored number (empty
      when there is none); no money moves and the only message is the acknowledgement. At
      `syr_unit_final` the stored unit is a row of the Syriatel list. */
  lemma UnitConfirmQueuesListedPrice(w: World, states: map<int, UnitState>, user: int, carrier: Carrier, chat: int)
    requires Valid(w.store) && user in states && states[user].unit.Some?
    ensures
      var st := states[user];
      var u := st.unit.value;
      var r := UnitFinalConfirmStep(w, states, user, carrier, chat);
      && r.outcome == Completed
      && r.world.store.requests.Keys == w.store.requests.Keys + {w.store.nextId}
      && r.world.store.order == w.store.order + [w.store.nextId]
      && r.world.store.balances == w.store.balances
      && r.world.sent == w.sent + [Message(chat, Submitted)]
      && r.world.store.requests[w.store.nextId].userId == user
      && r.world.store.requests[w.store.nextId].status == Pending
      && r.world.store.requests[w.store.nextId].payload
         == UnitTransfer(carrier, UnitName(u), u.price, if st.number.Some? then st.number.value else "")
      && (AllUnitStatesOk(states) && st.step == Some(SyrUnitFinal) ==> u in SYRIATEL_UNITS)
  {
    assert AllUnitStatesOk(states) ==> UnitStateOk(states[user]);
  }

  /** The amount to pay for a bill: amount plus fee, each 0 when missing. */
  function BillTotal(st: UnitState): (t: int)
    ensures st.amount.None? && st.fee.None? ==> t == 0
  {
    (if st.amount.Some? then st.amount.value else 0) + (if st.fee.Some? then st.fee.value else 0)
  }

  /** `final_confirm_syr_bill` up to its balance check: KeyError without an entry; a
      balance below the total is refused with the current balance and nothing else
      changes. What the handler does after a successful check is not part of this model. */
  function FinalConfirmSyrBillStep(w: World, states: map<int, UnitState>, user: int, chat: int): (r: Step)
    ensures r.outcome == Raised <==> user !in states
    ensures r.outcome == Refused <==> user in states && Balance(w.store, user) < BillTotal(states[user])
    ensures r.world.store == w.store
    ensures r.outcome == Refused ==> r.world.sent == w.sent + [Message(chat, InsufficientBalance(Balance(w.store, user)))]
    ensures r.outcome != Refused ==> r.world.sent == w.sent
  {
    if user !in states then Step(w, Raised)
    else
      var balance := Balance(w.store, user);
      if balance < BillTotal(states[user]) then
        Step(World(w.store, w.sent + [Message(chat, InsufficientBalance(balance))]), Refused)
      else Step(w, Completed)
  }

  // ---------------------------------------------------------------------------
  // The handlers on the module-level dict
  // ---------------------------------------------------------------------------

  /** `user_states`, one entry per user in the units and bills menus. */
  class UnitSessions {
    var states: map<int, UnitState>

    ghost predicate Valid()
      reads this
    {
      AllUnitStatesOk(states)
    }

    constructor ()
      ensures states == map[] && Valid()
    {
      states := map[];
    }

    method OpenMainMenu(user: int)
      modifies this
      ensures states == ResetStep(old(states), user, None)
      ensures old(Valid()) ==> Valid()
    {
      states := states[user := Fresh(None)];
    }

    method SyrUnitsMenu(user: int)
      modifies this
      ensures states == ResetStep(old(states), user, Some(SelectSyrUnit))
      ensures old(Valid()) ==> Valid()
    {
      states := states[user := Fresh(Some(SelectSyrUnit))];
    }

    method UbmRouter(user: int, data: string) returns (outcome: Outcome)
      modifies this
      ensures UnitsResult(states, outcome) == UbmRouterStep(old(states), user, data)
      ensures old(Valid()) ==> Valid()
    {
      if !StartsWith(data, "ubm:") {
        return Ignored;
      }
      var step := RouterStage(data[4..]);
      if step.Some? {
        states := states[user := Fresh(step)];
      }
      return Completed;
    }

    method UnitsInline(user: int, data: string, carrier: Carrier) returns (outcome: Outcome)
      modifies this
      ensures UnitsResult(states, outcome) == UnitsInlineStep(old(states), user, data, carrier)
      ensures old(Valid()) ==> Valid()
    {
      if !StartsWith(data, ListPrefix(carrier)) {
        return Ignored;
      }
      var parts := Split(data, ':');
      if |parts| != 3 {
        return Raised;
      }
      var val := ParseInt(parts[2]);
      if parts[1] == "page" {
        return if val.None? then Raised else Completed;
      }
      if parts[1] != "sel" {
        return Completed;
      }
      if val.None? {
        return Raised;
      }
      var u := PyIndex(Catalogue(carrier), val.value);
      if u.None? {
        return Raised;
      }
      states := states[user := UnitState(Some(NumberStage(carrier)), u, None, None, None)];
      return Completed;
    }

    method SyrUnitSelect(user: int, text: Option<string>) returns (outcome: Outcome)
      modifies this
      ensures UnitsResult(states, outcome) == SyrUnitSelectStep(old(states), user, text)
      ensures old(Valid()) ==> Valid()
    {
      if user !in states || states[user].step != Some(SelectSyrUnit) || text.None? {
        return Ignored;
      }
      var found := FindUnit(SYRIATEL_UNITS, text.value);
      if found.None? {
        return Ignored;
      }
      states := states[user := UnitState(Some(SyrUnitFinal), found, None, None, None)];
      return Completed;
    }

    method UnitFinalConfirm(user: int, carrier: Carrier, chat: int, store: RequestStore, bot: Outbox) returns (outcome: Outcome)
      modifies store, bot
      ensures Step(World(store.Value(), bot.sent), outcome) == UnitFinalConfirmStep(old(World(store.Value(), bot.sent)), states, user, carrier, chat)
    {
      if user !in states || states[user].unit.None? {
        return Raised;
      }
      var st := states[user];
      var u := st.unit.value;
      var number := if st.number.Some? then st.number.value else "";
      var id := store.Add(user, UnitTransfer(carrier, UnitName(u), u.price, number));
      var sentId := bot.Send(chat, Submitted);
      return Completed;
    }

    method FinalConfirmSyrBill(user: int, chat: int, store: RequestStore, bot: Outbox) returns (outcome: Outcome)
      modifies bot
      ensures Step(World(store.Value(), bot.sent), outcome) == FinalConfirmSyrBillStep(old(World(store.Value(), bot.sent)), states, user, chat)
    {
      if user !in states {
        return Raised;
      }
      var balance := store.GetBalance(user);
      if balance < BillTotal(states[user]) {
        var sentId := bot.Send(chat, InsufficientBalance(balance));
        return Refused;
      }
      return Completed;
    }
  }
}
