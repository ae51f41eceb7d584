/** handlers/admin.py: the reviewer's text commands and buttons on the pending-request
    table (`/done_N`, `/cancel_N`, approve, reject), the confirmation or rejection of a
    wallet top-up, and the agents' secret-code flow with its operations log and report. */
module Admin {
  import opened Common
  import opened PyText
  import opened Backend

  /** The codes an agent may hand out. */
  const VALID_SECRET_CODES: seq<string> :=
    ["363836369", "36313251", "646460923", "91914096", "78708501", "06580193"]

  // ---------------------------------------------------------------------------
  // `/done_N` and `/cancel_N`
  // ---------------------------------------------------------------------------

  /** `int(re.match(command + r'(\d+)', text).group(1))`: the run of digits right after the
      command at the very start of the text; `None` when the pattern does not match. */
  function CommandId(text: string, command: string): (r: Option<nat>)
    ensures r.Some? <==> StartsWith(text, command) && |command| < |text| && IsDigit(text[|command|])
  {
    if !StartsWith(text, command) then None
    else
      var run := DigitRun(text[|command|..]);
      if run == [] then None else Some(DigitsValue(run))
  }

  /** The number written after the command is the number read back, whatever text follows
      a non-digit. */
  lemma CommandIdRoundTrip(command: string, n: nat, rest: string)
    requires rest == [] || !IsDigit(rest[0])
    ensures CommandId(command + NatStr(n) + rest, command) == Some(n)
  {
    var ds := NatStr(n);
    var tail := ds + rest;
    var text := command + ds + rest;
    assert text == command + tail;
    assert text[..|command|] == command;
    assert text[|command|..] == tail;
    NatStrValue(n);
    DigitRunOf(ds, rest);
    assert tail[0] == ds[0];
  }

  /** `handle_done` / admin.py's `handle_cancel`: the reply to the command, by its kind. */
  function CommandReply(command: string, id: int): Notice {
    if command == "/done_" then DoneReply(id) else CancelReply(id)
  }

  /** `handle_done` (command `/done_`) and `handle_cancel` (command `/cancel_`): delete row N
      whatever its state, and reply in the same chat. Text that does not match is not for
      this handler. */
  function CommandStep(w: World, chat: int, text: Option<string>, command: string): Step {
    if text.None? || text.value == [] then Step(w, Ignored)
    else
      match CommandId(text.value, command)
      case None => Step(w, Ignored)
      case Some(id) => Step(World(Deleted(w.store, id), w.sent + [Message(chat, CommandReply(command, id))]), Completed)
  }

  /** `/done_N…` and `/cancel_N…` delete row N unconditionally, move no money, touch no
      other row, and send exactly one reply. */
  lemma CommandDeletesRow(w: World, chat: int, command: string, n: nat, rest: string)
    requires Valid(w.store)
    requires rest == [] || !IsDigit(rest[0])
    ensures
      var r := CommandStep(w, chat, Some(command + NatStr(n) + rest), command);
      && r.outcome == Completed
      && Valid(r.world.store)
      && r.world.store.requests.Keys == w.store.requests.Keys - {n}
      && (forall k :: k in r.world.store.requests ==> r.world.store.requests[k] == w.store.requests[k])
      && r.world.store.balances == w.store.balances
      && r.world.sent == w.sent + [Message(chat, CommandReply(command, n))]
  {
    CommandIdRoundTrip(command, n, rest);
  }

  method HandleCommand(chat: int, text: Option<string>, command: string, store: RequestStore, bot: Outbox)
    returns (outcome: Outcome)
    modifies store, bot
    ensures Step(World(store.Value(), bot.sent), outcome) == CommandStep(old(World(store.Value(), bot.sent)), chat, text, command)
  {
    if text.None? || text.value == [] {
      return Ignored;
    }
    var id := CommandId(text.value, command);
    if id.None? {
      return Ignored;
    }
    store.Delete(id.value);
    var reply := bot.Send(chat, CommandReply(command, id.value));
    return Completed;
  }

  // ---------------------------------------------------------------------------
  // Approve / reject from the admin queue
  // ---------------------------------------------------------------------------

  /** `int(data.split("_")[-1])`; `None` where Python raises ValueError. */
  function LastPartId(data: string): Option<int> {
    var parts := Split(data, '_');
    ParseInt(parts[|parts| - 1])
  }

  lemma LastPartRoundTrip(head: seq<string>, id: int)
    requires forall i :: 0 <= i < |head| ==> '_' !in head[i]
    ensures LastPartId(Join(head + [Str(id)], '_')) == Some(id)
  {
    var parts := head + [Str(id)];
    assert '_' !in Str(id);
    assert forall i :: 0 <= i < |parts| ==> '_' !in parts[i];
    SplitJoin(parts, '_');
    ParseIntStr(id);
  }

  /** `handle_admin_approve_queue` (verb `approve`, notice `ApprovedNotice`) and
      `handle_admin_reject_queue` (verb `reject`, notice `RejectedNotice`): an id that is not
      in the table is only acknowledged as "not found or already handled"; otherwise the
      requester gets one message and the row is deleted. */
  function AdminDecisionStep(w: World, data: string, verb: string): Step {
    if !StartsWith(data, "admin_" + verb + "_") then Step(w, Ignored)
    else
      match LastPartId(data)
      case None => Step(w, Raised)
      case Some(id) =>
        match Lookup(w.store, id)
        case None => Step(w, Refused)
        case Some(req) =>
          var notice := if verb == "approve" then ApprovedNotice(id) else RejectedNotice(id);
          Step(World(Deleted(w.store, id), w.sent + [Message(req.userId, notice)]), Completed)
  }

  /** An id absent from the table changes nothing and sends nothing. */
  lemma AdminDecisionAbsentIsNoOp(w: World, data: string, verb: string, id: int)
    requires StartsWith(data, "admin_" + verb + "_") && LastPartId(data) == Some(id)
    requires id !in w.store.requests
    ensures AdminDecisionStep(w, data, verb) == Step(w, Refused)
  {
  }

  /** A present id: exactly one message, to that row's user, and the row is deleted; a
      second press on the same button is then a no-op, so the user is notified once. */
  lemma AdminDecisionNotifiesOnce(w: World, data: string, verb: string, id: int)
    requires StartsWith(data, "admin_" + verb + "_") && LastPartId(data) == Some(id)
    requires Valid(w.store) && id in w.store.requests
    ensures
      var first := AdminDecisionStep(w, data, verb);
      && first.outcome == Completed
      && |first.world.sent| == |w.sent| + 1
      && first.world.sent[|w.sent|].chat == w.store.requests[id].userId
      && first.world.store.requests.Keys == w.store.requests.Keys - {id}
      && first.world.store.balances == w.store.balances
      && AdminDecisionStep(first.world, data, verb) == Step(first.world, Refused)
  {
    var first := AdminDecisionStep(w, data, verb);
    AdminDecisionAbsentIsNoOp(first.world, data, verb, id);
  }

  method HandleAdminDecision(data: string, verb: string, store: RequestStore, bot: Outbox) returns (outcome: Outcome)
    modifies store, bot
    ensures Step(World(store.Value(), bot.sent), outcome) == AdminDecisionStep(old(World(store.Value(), bot.sent)), data, verb)
  {
    if !StartsWith(data, "admin_" + verb + "_") {
      return Ignored;
    }
    var requestId := LastPartId(data);
    if requestId.None? {
      return Raised;
    }
    var id := requestId.value;
    var req := store.Get(id);
    if req.None? {
      return Refused;
    }
    var notice := if verb == "approve" then ApprovedNotice(id) else RejectedNotice(id);
    var userMsg := bot.Send(req.value.userId, notice);
    store.Delete(id);
    return Completed;
  }

  // ---------------------------------------------------------------------------
  // Wallet top-up: confirm / reject
  // ---------------------------------------------------------------------------

  datatype WalletAdd = WalletAdd(userId: int, amount: int)

  /** `_, _, user_id_str, amount_str = data.split("_")`, then `int(...)` of both; `None`
      where Python raises (not exactly four parts, or a part that is not an integer). */
  function WalletAddFields(data: string): (r: Option<WalletAdd>)
    ensures r.Some? ==> |Split(data, '_')| == 4
    ensures r.Some? ==> ParseInt(Split(data, '_')[2]) == Some(r.value.userId)
    ensures r.Some? ==> ParseInt(Split(data, '_')[3]) == Some(r.value.amount)
  {
    var parts := Split(data, '_');
    if |parts| != 4 then None
    else
      match (ParseInt(parts[2]), ParseInt(parts[3]))
      case (Some(u), Some(a)) => Some(WalletAdd(u, a))
      case _ => None
  }

  /** Button data `<a>_<b>_<user>_<amount>` (such as `confirm_add_<user>_<amount>`) gives
      back its user and amount. */
  lemma WalletAddRoundTrip(a: string, b: string, userId: int, amount: int)
    requires '_' !in a && '_' !in b
    ensures WalletAddFields(Join([a, b, Str(userId), Str(amount)], '_')) == Some(WalletAdd(userId, amount))
  {
    var parts := [a, b, Str(userId), Str(amount)];
    assert '_' !in Str(userId) && '_' !in Str(amount);
    SplitJoin(parts, '_');
    ParseIntStr(userId);
    ParseIntStr(amount);
  }

  /** `confirm_wallet_add`: credit the user, mark the row keyed by the button message's id
      as done, tell the user and the admin chat. Any parse error is caught and reported to
      the admin chat before anything changes. */
  function ConfirmWalletAddStep(w: World, data: string, adminChat: int, buttonMessage: int): Step {
    if !StartsWith(data, "confirm_add_") then Step(w, Ignored)
    else
      match WalletAddFields(data)
      case None => Step(World(w.store, w.sent + [Message(adminChat, CreditError)]), Refused)
      case Some(f) =>
        var s := WithStatus(Credited(Registered(w.store, f.userId), f.userId, f.amount), buttonMessage, Done);
        Step(World(s, w.sent + [Message(f.userId, WalletCredited(f.amount)), Message(adminChat, CreditConfirmed(buttonMessage))]),
             Completed)
  }

  /** Data that does not split into four parts credits nothing and marks nothing. */
  lemma MalformedTopUpChangesNothing(w: World, data: string, adminChat: int, buttonMessage: int)
    requires StartsWith(data, "confirm_add_") && |Split(data, '_')| != 4
    ensures ConfirmWalletAddStep(w, data, adminChat, buttonMessage)
         == Step(World(w.store, w.sent + [Message(adminChat, CreditError)]), Refused)
  {
  }

  /** A well-formed confirmation credits exactly the amount to exactly that user, marks the
      row done, and leaves the queue's membership and order alone. */
  lemma TopUpCreditsAmount(w: World, data: string, userId: int, amount: int, adminChat: int, buttonMessage: int)
    requires StartsWith(data, "confirm_add_") && WalletAddFields(data) == Some(WalletAdd(userId, amount))
    requires Valid(w.store)
    ensures
      var r := ConfirmWalletAddStep(w, data, adminChat, buttonMessage);
      && r.outcome == Completed
      && Valid(r.world.store)
      && Balance(r.world.store, userId) == Balance(w.store, userId) + amount
      && (forall u :: u != userId ==> Balance(r.world.store, u) == Balance(w.store, u))
      && r.world.store.order == w.store.order
      && (buttonMessage in w.store.requests ==> r.world.store.requests[buttonMessage].status == Done)
      && r.world.sent == w.sent + [Message(userId, WalletCredited(amount)), Message(adminChat, CreditConfirmed(buttonMessage))]
  {
  }

  method ConfirmWalletAdd(data: string, adminChat: int, buttonMessage: int, store: RequestStore, bot: Outbox)
    returns (outcome: Outcome)
    modifies store, bot
    ensures Step(World(store.Value(), bot.sent), outcome)
         == ConfirmWalletAddStep(old(World(store.Value(), bot.sent)), data, adminChat, buttonMessage)
  {
    ghost var w := World(store.Value(), bot.sent);
    if !StartsWith(data, "confirm_add_") {
      return Ignored;
    }
    var fields := WalletAddFields(data);
    if fields.None? {
      var errorMsg := bot.Send(adminChat, CreditError);
      assert bot.sent == w.sent + [Message(adminChat, CreditError)];
      return Refused;
    }
    var f := fields.value;
    store.Register(f.userId);
    store.Credit(f.userId, f.amount);
    store.SetStatus(buttonMessage, Done);
    assert store.Value() == WithStatus(Credited(Registered(w.store, f.userId), f.userId, f.amount), buttonMessage, Done);
    var userMsg := bot.Send(f.userId, WalletCredited(f.amount));
    var adminMsg := bot.Send(adminChat, CreditConfirmed(buttonMessage));
    assert bot.sent == w.sent + [Message(f.userId, WalletCredited(f.amount)), Message(adminChat, CreditConfirmed(buttonMessage))];
    return Completed;
  }

  /** `reject_wallet_add`: the user the rejection is for, `int(data.split("_")[-1])`. */
  function RejectTarget(data: string): Option<int> {
    LastPartId(data)
  }

  /** `reject_wallet_add`: ask the admin chat for a reason; the next message of that chat
      goes to `process_rejection` with `RejectTarget(data)`. */
  function RejectWalletAddStep(w: World, data: string, adminChat: int): (r: Step)
    ensures r.world.store == w.store
    ensures r.outcome == Completed <==> StartsWith(data, "reject_add_") && RejectTarget(data).Some?
    ensures r.outcome == Completed ==> r.world.sent == w.sent + [Message(adminChat, ReasonPrompt)]
    ensures r.outcome != Completed ==> r.world == w
  {
    if !StartsWith(data, "reject_add_") then Step(w, Ignored)
    else if RejectTarget(data).None? then Step(w, Raised)
    else Step(World(w.store, w.sent + [Message(adminChat, ReasonPrompt)]), Completed)
  }

  /** `process_rejection`: tell the user the stripped reason and mark the row keyed by the
      button message's id as cancelled. A message without text raises first. */
  function ProcessRejectionStep(w: World, text: Option<string>, userId: int, buttonMessage: int): Step {
    match text
    case None => Step(w, Raised)
    case Some(t) =>
      Step(World(WithStatus(w.store, buttonMessage, Cancelled), w.sent + [Message(userId, CreditRejected(Strip(t)))]),
           Completed)
  }

  /** A rejection moves no money, marks only that row, and tells only that user. */
  lemma RejectionMovesNoMoney(w: World, text: string, userId: int, buttonMessage: int)
    requires Valid(w.store)
    ensures
      var r := ProcessRejectionStep(w, Some(text), userId, buttonMessage);
      && Valid(r.world.store)
      && r.world.store.balances == w.store.balances
      && r.world.store.requests.Keys == w.store.requests.Keys
      && (forall k :: k in w.store.requests && k != buttonMessage ==> r.world.store.requests[k] == w.store.requests[k])
      && (buttonMessage in w.store.requests ==> r.world.store.requests[buttonMessage].status == Cancelled)
      && r.world.sent == w.sent + [Message(userId, CreditRejected(Strip(text)))]
  {
  }

  method ProcessRejection(text: Option<string>, userId: int, buttonMessage: int, store: RequestStore, bot: Outbox)
    returns (outcome: Outcome)
    modifies store, bot
    ensures Step(World(store.Value(), bot.sent), outcome)
         == ProcessRejectionStep(old(World(store.Value(), bot.sent)), text, userId, buttonMessage)
  {
    if text.None? {
      return Raised;
    }
    var userMsg := bot.Send(userId, CreditRejected(Strip(text.value)));
    store.SetStatus(buttonMessage, Cancelled);
    return Completed;
  }

  // ---------------------------------------------------------------------------
  // Agents' secret codes
  // ---------------------------------------------------------------------------

  /** The outcome of `verify_code`, with the code the next step is waiting an amount for. */
  datatype CodeCheck = CodeCheck(world: World, outcome: Outcome, accepted: Option<string>)

  /** `verify_code`: the stripped text must be one of the valid codes; otherwise the user
      is told so and the flow stops there. */
  function VerifyCodeStep(w: World, chat: int, text: Option<string>): (r: CodeCheck)
    ensures r.accepted.Some? <==> text.Some? && Strip(text.value) in VALID_SECRET_CODES
    ensures r.accepted.Some? ==> r.accepted.value == Strip(text.value) && r.accepted.value in VALID_SECRET_CODES
    ensures r.world.store == w.store
    ensures text.Some? ==> |r.world.sent| == |w.sent| + 1
  {
    match text
    case None => CodeCheck(w, Raised, None)
    case Some(t) =>
      var code := Strip(t);
      if code !in VALID_SECRET_CODES then CodeCheck(World(w.store, w.sent + [Message(chat, CodeRejected)]), Refused, None)
      else CodeCheck(World(w.store, w.sent + [Message(chat, AmountPrompt)]), Completed, Some(code))
  }

  /** One operation under a code: who, how much, when. */
  datatype Entry = Entry(user: string, userId: int, amount: int, date: string)

  /** The operations log, a JSON object from code to its list of operations; `codes` keeps
      the object's key order (the order codes were first used). */
  datatype Ledger = Ledger(codes: seq<string>, ops: map<string, seq<Entry>>)

  ghost predicate LedgerValid(l: Ledger) {
    && (forall c :: c in l.codes <==> c in l.ops)
    && (forall i, j :: 0 <= i < j < |l.codes| ==> l.codes[i] != l.codes[j])
  }

  /** `ops_data.setdefault(code, []).append(entry)`. */
  function Recorded(l: Ledger, code: string, e: Entry): (r: Ledger)
    ensures LedgerValid(l) ==> LedgerValid(r)
    ensures r.ops.Keys == l.ops.Keys + {code}
    ensures r.ops[code] == (if code in l.ops then l.ops[code] else []) + [e]
    ensures forall c :: c in l.ops && c != code ==> r.ops[c] == l.ops[c]
    ensures LedgerValid(l) && code in l.ops ==> r.codes == l.codes
    ensures LedgerValid(l) && code !in l.ops ==> r.codes == l.codes + [code]
  {
    if code in l.ops then Ledger(l.codes, l.ops[code := l.ops[code] + [e]])
    else Ledger(l.codes + [code], l.ops[code := [e]])
  }

  /** What `confirm_amount` leaves behind: the store and messages, the log, and how it ended. */
  datatype AgentStep = AgentStep(world: World, ledger: Ledger, outcome: Outcome)

  /** `confirm_amount`: the text must be an integer; then one operation is logged under the
      code, the user's wallet is credited, the user is told, and a pending request records
      the credit (without offering it to the reviewer). The user label and the date come
      from the message's sender and the clock. */
  function ConfirmAmountStep(w: World, l: Ledger, text: Option<string>, code: string, userId: int,
                             userLabel: string, date: string, chat: int): AgentStep
  {
    match text
    case None => AgentStep(w, l, Raised)
    case Some(t) =>
      match ParseInt(Strip(t))
      case None => AgentStep(World(w.store, w.sent + [Message(chat, InvalidAmount)]), l, Refused)
      case Some(amount) =>
        var s := Added(Credited(Registered(w.store, userId), userId, amount), userId, AgentCredit(code, amount));
        AgentStep(World(s, w.sent + [Message(chat, AgentTransfer(amount))]),
                  Recorded(l, code, Entry(userLabel, userId, amount, date)), Completed)
  }

  /** Text that is not an integer leaves the log, the wallet and the table as they were. */
  lemma NonIntegerAmountRefused(w: World, l: Ledger, text: string, code: string, userId: int,
                                userLabel: string, date: string, chat: int)
    requires ParseInt(text).None?
    ensures
      var r := ConfirmAmountStep(w, l, Some(text), code, userId, userLabel, date, chat);
      r.outcome == Refused && r.ledger == l && r.world.store == w.store
  {
    StripIdempotent(text);
  }

  /** `int()` strips its argument itself, so stripping first changes nothing. */
  lemma StripIdempotent(s: string)
    ensures ParseInt(Strip(s)) == ParseInt(s)
  {
    StripNoSpaceEnds(Strip(s));
    ParseIntOfStripped(Strip(s), s);
  }

  /** Any text `int()` reads as an integer (spaces, a sign, leading zeros and `_` groups
      included) appends exactly one entry under that code, leaves other codes
      alone, credits the wallet by the amount, and queues one new pending request for it at
      the back of the queue, without sending it to the reviewer. */
  lemma AmountIsLoggedAndCredited(w: World, l: Ledger, text: string, amount: int, code: string, userId: int,
                                  userLabel: string, date: string, chat: int)
    requires Valid(w.store) && LedgerValid(l)
    requires ParseInt(text) == Some(amount)
    ensures
      var r := ConfirmAmountStep(w, l, Some(text), code, userId, userLabel, date, chat);
      var before := if code in l.ops then l.ops[code] else [];
      && r.outcome == Completed
      && LedgerValid(r.ledger)
      && r.ledger.ops[code] == before + [Entry(userLabel, userId, amount, date)]
      && (forall c :: c in l.ops && c != code ==> r.ledger.ops[c] == l.ops[c])
      && Balance(r.world.store, userId) == Balance(w.store, userId) + amount
      && Valid(r.world.store)
      && r.world.store.order == w.store.order + [w.store.nextId]
      && r.world.store.requests[w.store.nextId].payload == AgentCredit(code, amount)
      && r.world.sent == w.sent + [Message(chat, AgentTransfer(amount))]
  {
    StripIdempotent(text);
  }

  /** The lines of one code's section: its heading, then one line per operation. */
  function EntryLines(es: seq<Entry>): (r: seq<ReportLine>)
    ensures |r| == |es|
    ensures forall i :: 0 <= i < |es| ==> r[i] == EntryLine(es[i].amount, es[i].date, es[i].user)
  {
    if es == [] then [] else EntryLines(es[..|es| - 1]) + [EntryLine(es[|es| - 1].amount, es[|es| - 1].date, es[|es| - 1].user)]
  }

  /** The report's lines: for each code in key order, its heading and its operations. */
  function ReportLines(codes: seq<string>, ops: map<string, seq<Entry>>): seq<ReportLine>
    requires forall c :: c in codes ==> c in ops
  {
    if codes == [] then []
    else
      var last := codes[|codes| - 1];
      ReportLines(codes[..|codes| - 1], ops) + [CodeHeader(last)] + EntryLines(ops[last])
  }

  /** The inner loop of `generate_report`: one line per operation of a code, in order. */
  method AppendEntries(lines: seq<ReportLine>, entries: seq<Entry>) returns (r: seq<ReportLine>)
    ensures r == lines + EntryLines(entries)
  {
    r := lines;
    var i := 0;
    while i < |entries|
      invariant 0 <= i <= |entries|
      invariant r == lines + EntryLines(entries[..i])
    {
      var e := entries[i];
      assert entries[..i + 1][..i] == entries[..i];
      r := r + [EntryLine(e.amount, e.date, e.user)];
      i := i + 1;
    }
    assert entries[..i] == entries;
  }

  /** Every code gets its heading and every logged operation appears in the report. */
  lemma {:induction false} ReportListsEveryEntry(codes: seq<string>, ops: map<string, seq<Entry>>)
    requires forall c :: c in codes ==> c in ops
    ensures forall k :: 0 <= k < |codes| ==> CodeHeader(codes[k]) in ReportLines(codes, ops)
    ensures forall k, i :: 0 <= k < |codes| && 0 <= i < |ops[codes[k]]| ==>
              var e := ops[codes[k]][i]; EntryLine(e.amount, e.date, e.user) in ReportLines(codes, ops)
  {
    if codes != [] {
      var init := codes[..|codes| - 1];
      var last := codes[|codes| - 1];
      assert forall c :: c in init ==> c in codes;
      ReportListsEveryEntry(init, ops);
      var r := ReportLines(codes, ops);
      assert r == ReportLines(init, ops) + [CodeHeader(last)] + EntryLines(ops[last]);
      forall k | 0 <= k < |codes|
        ensures CodeHeader(codes[k]) in r
      {
        if k < |codes| - 1 {
          assert codes[k] == init[k];
        }
      }
      forall k, i | 0 <= k < |codes| && 0 <= i < |ops[codes[k]]|
        ensures var e := ops[codes[k]][i]; EntryLine(e.amount, e.date, e.user) in r
      {
        var e := ops[codes[k]][i];
        if k < |codes| - 1 {
          assert codes[k] == init[k];
          assert EntryLine(e.amount, e.date, e.user) in ReportLines(init, ops);
        } else {
          assert EntryLines(ops[last])[i] == EntryLine(e.amount, e.date, e.user);
        }
      }
    }
  }

  /** Nothing in the report is invented: each line is the heading of a logged code or one
      of its operations. */
  lemma {:induction false} ReportInventsNothing(codes: seq<string>, ops: map<string, seq<Entry>>, line: ReportLine)
    requires forall c :: c in codes ==> c in ops
    requires line in ReportLines(codes, ops)
    ensures line.CodeHeader? ==> line.code in codes
    ensures line.EntryLine? ==>
              (exists c, i :: c in codes && 0 <= i < |ops[c]| && line == EntryLine(ops[c][i].amount, ops[c][i].date, ops[c][i].user))
  {
    var init := codes[..|codes| - 1];
    var last := codes[|codes| - 1];
    assert forall c :: c in init ==> c in codes;
    if line in ReportLines(init, ops) {
      ReportInventsNothing(init, ops, line);
    } else if line.EntryLine? {
      assert line in EntryLines(ops[last]);
      var i :| 0 <= i < |ops[last]| && EntryLines(ops[last])[i] == line;
      assert last in codes;
    }
  }

  /** The operations log the bot keeps in memory, and the agents' report over it. */
  class AgentLedger {
    var codes: seq<string>
    var ops: map<string, seq<Entry>>

    function Value(): Ledger
      reads this
    {
      Ledger(codes, ops)
    }

    ghost predicate Valid()
      reads this
    {
      LedgerValid(Value())
    }

    constructor ()
      ensures Value() == Ledger([], map[]) && Valid()
    {
      codes, ops := [], map[];
    }

    /** `ops_data.setdefault(code, []).append(entry)` on the log itself. */
    method Record(code: string, e: Entry)
      modifies this
      ensures Value() == Recorded(old(Value()), code, e)
    {
      if code in ops {
        ops := ops[code := ops[code] + [e]];
      } else {
        codes := codes + [code];
        ops := ops[code := [e]];
      }
    }

    method ConfirmAmount(text: Option<string>, code: string, userId: int, userLabel: string, date: string, chat: int,
                         store: RequestStore, bot: Outbox)
      returns (outcome: Outcome)
      modifies this, store, bot
      ensures AgentStep(World(store.Value(), bot.sent), Value(), outcome)
           == ConfirmAmountStep(old(World(store.Value(), bot.sent)), old(Value()), text, code, userId, userLabel, date, chat)
    {
      ghost var w := World(store.Value(), bot.sent);
      ghost var l := Value();
      if text.None? {
        return Raised;
      }
      var parsed := ParseInt(Strip(text.value));
      if parsed.None? {
        var errorMsg := bot.Send(chat, InvalidAmount);
        assert bot.sent == w.sent + [Message(chat, InvalidAmount)];
        return Refused;
      }
      var amount := parsed.value;
      var e := Entry(userLabel, userId, amount, date);
      Record(code, e);
      store.Register(userId);
      store.Credit(userId, amount);
      var userMsg := bot.Send(chat, AgentTransfer(amount));
      var id := store.Add(userId, AgentCredit(code, amount));
      assert store.Value() == Added(Credited(Registered(w.store, userId), userId, amount), userId, AgentCredit(code, amount));
      assert bot.sent == w.sent + [Message(chat, AgentTransfer(amount))];
      return Completed;
    }

    /** `generate_report`: only for admins; an empty log gets a "nothing yet" message;
        otherwise one message holding every code's heading followed by its operations. */
    method GenerateReport(sender: int, admins: set<int>, chat: int, bot: Outbox) returns (outcome: Outcome)
      requires Valid()
      modifies bot
      ensures sender !in admins ==> bot.sent == old(bot.sent) && outcome == Ignored
      ensures sender in admins && ops == map[] ==> bot.sent == old(bot.sent) + [Message(chat, NoOperations)] && outcome == Refused
      ensures sender in admins && ops != map[] ==>
                bot.sent == old(bot.sent) + [Message(chat, Report(ReportLines(codes, ops)))] && outcome == Completed
    {
      if sender !in admins {
        return Ignored;
      }
      if ops == map[] {
        var emptyMsg := bot.Send(chat, NoOperations);
        return Refused;
      }
      var lines: seq<ReportLine> := [];
      var k := 0;
      while k < |codes|
        invariant 0 <= k <= |codes|
        invariant lines == ReportLines(codes[..k], ops)
        invariant bot.sent == old(bot.sent)
      {
        var code := codes[k];
        var entries := ops[code];
        lines := AppendEntries(lines + [CodeHeader(code)], entries);
        assert codes[..k + 1][..k] == codes[..k];
        assert ReportLines(codes[..k + 1], ops) == ReportLines(codes[..k], ops) + [CodeHeader(code)] + EntryLines(entries);
        k := k + 1;
      }
      assert codes[..k] == codes;
      var reportMsg := bot.Send(chat, Report(lines));
      return Completed;
    }
  }
}
