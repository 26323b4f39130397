/** The cross-system outbox: the first delivery of a mutation
    (backend/internal/dreamupadmin/service.go), the receipt reconciler behind it
    (backend/internal/dreamupadmin/reconciler.go), and the table they share
    (adapters/postgres/admin_unit_of_work.go) with its claims, leases and versions. Times are
    milliseconds. */
module Outbox {
  import opened Outcomes
  import opened Powers

  const DEADLINE := 900_000
  const MAX_CLOCK_SKEW := 5_000
  const DELIVERY_DELAY := 1_000

  /** The most deferrals a pass can make before the deadline. */
  const MAX_DEFERRALS := 18

  // ---- Items and receipts ----

  datatype Phase = NotSent | Indeterminate | Sent

  datatype ItemState = Pending | Claimed(token: string, leaseUntil: int) | Succeeded | Failed | NeedsOperator {
    predicate Terminal() { !Pending? && !Claimed? }
  }

  /** What the operation's receipt must say; an empty target identifier leaves it open. */
  datatype Expectation = Expectation(event: string, request: string, action: string, targetType: string,
    targetId: string)

  /** A parsed, well-formed receipt of the upstream system. */
  datatype Receipt = Receipt(
    event: string, request: string, action: string, targetType: string, targetId: string,
    success: bool, resultVersion: Option<int>, hash: string, createdAt: int)

  /** What a success is recorded with: a receipt, or the answer to the first delivery. */
  datatype Settlement = ByReceipt(receipt: Receipt) | ByResponse(status: int, digest: string)

  /** A mutation as its caller asks for it. The identifier stands for the row's own one and
      for its idempotency key, which are both unique; wellFormed stands for the checks of the
      fields that never change. */
  datatype Intent = Intent(id: string, fingerprint: string, expects: Expectation, wellFormed: bool)

  datatype Item = Item(
    intent: Intent, state: ItemState, phase: Phase, version: nat, attempts: nat,
    nextAttempt: int, createdAt: int, settled: Option<Settlement>)
  {
    function Id(): string { intent.id }
  }

  predicate SameOperation(a: Item, b: Item) {
    a.intent == b.intent && a.createdAt == b.createdAt
  }

  /** parseReceiptResponse and receiptMatchesOperation. */
  predicate Matches(e: Expectation, r: Receipt) {
    && r.event == e.event && r.request == e.request && r.success
    && (r.resultVersion.Some? ==> r.resultVersion.value > 0)
    && r.action == e.action && r.targetType == e.targetType
    && (e.targetId == "" || r.targetId == e.targetId)
  }

  predicate Timely(item: Item, r: Receipt, now: int) {
    item.createdAt - MAX_CLOCK_SKEW <= r.createdAt <= now + MAX_CLOCK_SKEW
  }

  /** What the upstream call comes to: no answer at all, or a status and a body. */
  datatype Response = NoAnswer | Answer(ok: bool, receipt: Option<Receipt>)

  datatype Verdict = Settle(receipt: Receipt) | Defer(next: int) | Operator | Leave

  predicate Reconcilable(item: Item) {
    item.intent.wellFormed && item.state.Claimed? && item.version > 0 && !item.phase.NotSent?
  }

  function Min(a: nat, b: nat): nat { if a <= b then a else b }

  /** One second, doubled with every attempt up to the sixth. */
  function Delay(attempts: nat): nat { 1000 * Pow2(Min(attempts, 6)) }

  /** reconcileOne up to the write it decides on. */
  function Judge(item: Item, idDrawn: bool, signed: bool, response: Response, now: int): Verdict {
    if !Reconcilable(item) then Operator
    else if !idDrawn then Leave
    else if !signed then Operator
    else match response
      case NoAnswer => if now - item.createdAt >= DEADLINE then Operator else Defer(now + Delay(item.attempts))
      case Answer(ok, receipt) =>
        if ok && receipt.Some? && Matches(item.intent.expects, receipt.value) && Timely(item, receipt.value, now)
        then Settle(receipt.value)
        else Operator
  }

  // ---- The guarded updates ----

  /** The claim of the snapshot still holds the row. */
  predicate Holds(row: Item, snap: Item, expected: nat, now: int) {
    && row.version == expected && row.state.Claimed? && snap.state.Claimed?
    && row.state.token == snap.state.token && row.state.token != "" && row.state.leaseUntil > now
  }

  function DeferReceipt(row: Item, snap: Item, next: int, now: int): Option<Item> {
    if next > now && Holds(row, snap, snap.version, now) && !row.phase.NotSent? then
      Some(row.(state := Pending, nextAttempt := next, version := row.version + 1))
    else None
  }

  function MarkNeedsOperator(row: Item, snap: Item, now: int): Option<Item> {
    if Holds(row, snap, snap.version, now) && !row.phase.NotSent? then
      Some(row.(state := NeedsOperator, version := row.version + 1))
    else None
  }

  function MarkSent(row: Item, snap: Item, expected: nat, now: int): Option<Item> {
    if Holds(row, snap, expected, now) && row.phase.Indeterminate? then
      Some(row.(phase := Sent, version := row.version + 1))
    else None
  }

  function SettleRow(row: Item, snap: Item, expected: nat, how: Settlement, now: int): Option<Item> {
    if Holds(row, snap, expected, now) && row.phase.Sent? then
      Some(row.(state := Succeeded, settled := Some(how), version := row.version + 1))
    else None
  }

  function FailRow(row: Item, snap: Item, expected: nat, now: int): Option<Item> {
    if Holds(row, snap, expected, now) && row.phase.Sent? then
      Some(row.(state := Failed, version := row.version + 1))
    else None
  }

  function AbortBeforeSend(row: Item, snap: Item, now: int): Option<Item> {
    if Holds(row, snap, snap.version, now) && row.phase.Indeterminate? then
      Some(row.(state := Failed, phase := NotSent, version := row.version + 1))
    else None
  }

  function RenewClaim(row: Item, snap: Item, now: int, lease: nat): Option<Item> {
    if Holds(row, snap, snap.version, now) && row.phase.Indeterminate? && lease > 0 then
      Some(row.(state := Claimed(row.state.token, now + lease), version := row.version + 1))
    else None
  }

  /** settle: an indeterminate item is first marked sent, in the same transaction. */
  function SettleTx(row: Item, snap: Item, receipt: Receipt, now: int): Option<Item> {
    if snap.phase.Indeterminate? then
      match MarkSent(row, snap, snap.version, now)
      case None => None
      case Some(sent) => SettleRow(sent, snap, snap.version + 1, ByReceipt(receipt), now)
    else SettleRow(row, snap, snap.version, ByReceipt(receipt), now)
  }

  /** The row after a verdict, or None when its guards miss. */
  function Carry(row: Item, snap: Item, verdict: Verdict, now: int): Option<Item> {
    match verdict
    case Settle(receipt) => SettleTx(row, snap, receipt, now)
    case Defer(next) => DeferReceipt(row, snap, next, now)
    case Operator => MarkNeedsOperator(row, snap, now)
    case Leave => None
  }

  predicate Due(row: Item, now: int) { row.state.Pending? && !row.phase.NotSent? && row.nextAttempt <= now }

  function ClaimRow(row: Item, token: string, leaseUntil: int): Item {
    row.(state := Claimed(token, leaseUntil), attempts := row.attempts + 1, version := row.version + 1)
  }

  predicate Expired(row: Item, now: int) { row.state.Claimed? && row.state.leaseUntil <= now }

  function ReclaimRow(row: Item, now: int): Item {
    row.(state := Pending, nextAttempt := now, version := row.version + 1)
  }

  // ---- The first delivery ----

  function NewItem(intent: Intent, now: int): Item {
    Item(intent, Pending, NotSent, 1, 0, now, now, None)
  }

  /** CreateOrReplay, then a claim of exactly that row, then the mark that it may be sent:
      one transaction. A replayed row has to be as good as new. */
  function BeginTx(stored: Option<Item>, intent: Intent, now: int, lease: nat, token: string): Option<Item> {
    var row := if stored.Some? then stored.value else NewItem(intent, now);
    if row.intent == intent && row.state.Pending? && row.phase.NotSent? && row.version > 0 && lease > 0
      && token != "" then
      var claimed := ClaimRow(row, token, now + lease);
      Some(claimed.(phase := Indeterminate, version := claimed.version + 1))
    else None
  }

  /** How the delivery ended: a 2xx answer, a definite refusal, no definite answer, or a
      failure before anything was sent. */
  datatype Delivered = Answered(status: int, digest: string) | Refused | Unknown | Unsent

  /** settleMutation, failMutation, deferReceipt and abortMutationBeforeSend. */
  function DeliverTx(row: Item, snap: Item, outcome: Delivered, now: int): Option<Item> {
    match outcome
    case Answered(status, digest) =>
      (match MarkSent(row, snap, snap.version, now)
       case None => None
       case Some(sent) => SettleRow(sent, snap, snap.version + 1, ByResponse(status, digest), now))
    case Refused =>
      (match MarkSent(row, snap, snap.version, now)
       case None => None
       case Some(sent) => FailRow(sent, snap, snap.version + 1, now))
    case Unknown => DeferReceipt(row, snap, now + DELIVERY_DELAY, now)
    case Unsent => AbortBeforeSend(row, snap, now)
  }

  // ---- Any number of deliveries and passes at once ----

  /** A claimed row in the memory of a first delivery, or of a pass that started at the given
      time and uses it throughout. */
  datatype Holder = Delivery(item: Item) | Pass(item: Item, since: int)

  datatype System = System(items: map<string, Item>, held: map<nat, Holder>)

  datatype Action =
    | Begin(h: nat, intent: Intent, now: int, lease: nat, token: string)
    | Renew(h: nat, now: int, lease: nat)
    | Finish(h: nat, outcome: Delivered, now: int)
    | Claim(h: nat, id: string, now: int, lease: nat, token: string)
    | Reconcile(h: nat, idDrawn: bool, signed: bool, response: Response)
    | Reclaim(id: string, now: int)
    | Drop(h: nat)

  function Lookup(items: map<string, Item>, id: string): Option<Item> {
    if id in items then Some(items[id]) else None
  }

  /** What a pass does to its row, if anything. */
  function PassWrite(sys: System, h: nat, idDrawn: bool, signed: bool, response: Response): Option<Item> {
    if h in sys.held && sys.held[h].Pass? && sys.held[h].item.Id() in sys.items then
      var Pass(snap, since) := sys.held[h];
      Carry(sys.items[snap.Id()], snap, Judge(snap, idDrawn, signed, response, since), since)
    else None
  }

  /** What the end of a first delivery does to its row, if anything. */
  function DeliveryWrite(sys: System, h: nat, outcome: Delivered, now: int): Option<Item> {
    if h in sys.held && sys.held[h].Delivery? && sys.held[h].item.Id() in sys.items then
      DeliverTx(sys.items[sys.held[h].item.Id()], sys.held[h].item, outcome, now)
    else None
  }

  function Write(items: map<string, Item>, row: Option<Item>): map<string, Item> {
    if row.Some? then items[row.value.Id() := row.value] else items
  }

  function Apply(sys: System, a: Action): System {
    match a
    case Begin(h, intent, now, lease, token) =>
      var row := BeginTx(Lookup(sys.items, intent.id), intent, now, lease, token);
      if h !in sys.held && row.Some? then System(Write(sys.items, row), sys.held[h := Delivery(row.value)]) else sys
    case Renew(h, now, lease) =>
      if h in sys.held && sys.held[h].Delivery? && sys.held[h].item.Id() in sys.items then
        var row := RenewClaim(sys.items[sys.held[h].item.Id()], sys.held[h].item, now, lease);
        if row.Some? then System(Write(sys.items, row), sys.held[h := Delivery(row.value)]) else sys
      else sys
    case Finish(h, outcome, now) =>
      if h in sys.held && sys.held[h].Delivery? then
        System(Write(sys.items, DeliveryWrite(sys, h, outcome, now)), sys.held - {h})
      else sys
    case Claim(h, id, now, lease, token) =>
      if h !in sys.held && id in sys.items && Due(sys.items[id], now) && lease > 0 && token != "" then
        var row := ClaimRow(sys.items[id], token, now + lease);
        System(sys.items[id := row], sys.held[h := Pass(row, now)])
      else sys
    case Reconcile(h, idDrawn, signed, response) =>
      if h in sys.held && sys.held[h].Pass? then
        System(Write(sys.items, PassWrite(sys, h, idDrawn, signed, response)), sys.held - {h})
      else sys
    case Reclaim(id, now) =>
      if id in sys.items && Expired(sys.items[id], now) then
        sys.(items := sys.items[id := ReclaimRow(sys.items[id], now)])
      else sys
    case Drop(h) => sys.(held := sys.held - {h})
  }

  function Run(sys: System, actions: seq<Action>): System
    decreases |actions|
  {
    if actions == [] then sys else Run(Apply(sys, actions[0]), actions[1..])
  }

  const INIT := System(map[], map[])

  // ---- The invariant ----

  /** Every stored row has been claimed at least once; it leaves the sendable phases only by
      failing before it was sent; and a success under its first claim is the answer to the
      first delivery, while a success under any later claim is its own receipt. */
  ghost predicate RowOk(row: Item) {
    && row.attempts >= 1
    && (row.phase.NotSent? ==> row.state.Failed?)
    && (row.state.Succeeded? <==> row.settled.Some?)
    && (row.settled.Some? ==>
          && row.phase.Sent?
          && (row.settled.value.ByReceipt? <==> row.attempts >= 2)
          && (row.settled.value.ByReceipt? ==>
                && Matches(row.intent.expects, row.settled.value.receipt)
                && row.settled.value.receipt.createdAt >= row.createdAt - MAX_CLOCK_SKEW))
  }

  /** A held copy is older than its row, or it is its row: the version says which. Only a
      delivery has the first claim. */
  ghost predicate HolderOk(items: map<string, Item>, holder: Holder) {
    var snap := holder.item;
    && snap.Id() in items && SameOperation(snap, items[snap.Id()])
    && snap.version <= items[snap.Id()].version
    && (snap.version == items[snap.Id()].version ==> snap == items[snap.Id()])
    && snap.state.Claimed? && snap.state.token != "" && snap.version > 0
    && (match holder
        case Delivery(_) => snap.attempts == 1 && snap.phase.Indeterminate?
        case Pass(_, since) => snap.attempts >= 2 && !snap.phase.NotSent? && snap.state.leaseUntil > since)
  }

  ghost predicate Inv(sys: System) {
    && (forall id :: id in sys.items ==> sys.items[id].Id() == id && RowOk(sys.items[id]))
    && (forall h :: h in sys.held ==> HolderOk(sys.items, sys.held[h]))
  }

  /** Versions only rise, and they rise with every change; a terminal row never changes; and
      a row leaves the queue only through another claim. */
  ghost predicate Forward(before: Item, after: Item) {
    && SameOperation(before, after) && before.version <= after.version
    && (before.version == after.version ==> before == after)
    && (before.state.Terminal() ==> after == before)
    && before.attempts <= after.attempts
    && (before.state.Pending? && before.attempts == after.attempts ==> after.state.Pending?)
  }

  /** A verdict is carried out only on the claimed version, only forward, and settles only
      what matches. */
  lemma CarryForward(row: Item, snap: Item, idDrawn: bool, signed: bool, response: Response, now: int)
    requires RowOk(row) && snap.attempts >= 2 && (snap.version == row.version ==> snap == row)
    ensures var next := Carry(row, snap, Judge(snap, idDrawn, signed, response, now), now);
      next.Some? ==> Forward(row, next.value) && RowOk(next.value) && row == snap
  {
  }

  lemma DeliverForward(row: Item, snap: Item, outcome: Delivered, now: int)
    requires RowOk(row) && snap.attempts == 1 && (snap.version == row.version ==> snap == row)
    ensures var next := DeliverTx(row, snap, outcome, now);
      next.Some? ==> Forward(row, next.value) && RowOk(next.value) && row == snap
  {
  }

  ghost predicate Advances(sys: System, t: System) {
    forall id :: id in sys.items ==> id in t.items && Forward(sys.items[id], t.items[id])
  }

  lemma RowStep(sys: System, t: System, id: string, row: Item)
    requires Inv(sys) && id in sys.items && Forward(sys.items[id], row) && RowOk(row)
    requires t.items == sys.items[id := row]
    requires forall h :: h in t.held ==>
      (h in sys.held && t.held[h] == sys.held[h]) || (t.held[h].item == row && HolderOk(t.items, t.held[h]))
    ensures Inv(t) && Advances(sys, t)
  {
    forall h | h in t.held && h in sys.held && t.held[h] == sys.held[h]
      ensures HolderOk(t.items, t.held[h])
    {
      assert HolderOk(sys.items, sys.held[h]);
    }
  }

  lemma BeginIsNew(sys: System, intent: Intent, now: int, lease: nat, token: string)
    requires Inv(sys)
    ensures BeginTx(Lookup(sys.items, intent.id), intent, now, lease, token).Some? ==> intent.id !in sys.items
  {
  }

  lemma BeginKeeps(sys: System, a: Action)
    requires Inv(sys) && a.Begin?
    ensures Inv(Apply(sys, a))
    ensures forall id :: id in sys.items ==> id in Apply(sys, a).items && Apply(sys, a).items[id] == sys.items[id]
  {
    BeginIsNew(sys, a.intent, a.now, a.lease, a.token);
    forall h | h in Apply(sys, a).held ensures HolderOk(Apply(sys, a).items, Apply(sys, a).held[h]) {
      if h in sys.held { assert HolderOk(sys.items, sys.held[h]); }
    }
  }

  lemma RenewKeeps(sys: System, a: Action)
    requires Inv(sys) && a.Renew? && Apply(sys, a) != sys
    ensures Inv(Apply(sys, a)) && Advances(sys, Apply(sys, a))
  {
    var t, snap := Apply(sys, a), sys.held[a.h].item;
    assert HolderOk(sys.items, sys.held[a.h]);
    RowStep(sys, t, snap.Id(), t.items[snap.Id()]);
  }

  lemma FinishKeeps(sys: System, a: Action)
    requires Inv(sys) && a.Finish? && DeliveryWrite(sys, a.h, a.outcome, a.now).Some?
    ensures Inv(Apply(sys, a)) && Advances(sys, Apply(sys, a))
  {
    var t, snap := Apply(sys, a), sys.held[a.h].item;
    assert HolderOk(sys.items, sys.held[a.h]);
    DeliverForward(sys.items[snap.Id()], snap, a.outcome, a.now);
    RowStep(sys, t, snap.Id(), t.items[snap.Id()]);
  }

  lemma ClaimKeeps(sys: System, a: Action)
    requires Inv(sys) && a.Claim? && Apply(sys, a) != sys
    ensures Inv(Apply(sys, a)) && Advances(sys, Apply(sys, a))
  {
    RowStep(sys, Apply(sys, a), a.id, Apply(sys, a).items[a.id]);
  }

  lemma ReconcileKeeps(sys: System, a: Action)
    requires Inv(sys) && a.Reconcile? && PassWrite(sys, a.h, a.idDrawn, a.signed, a.response).Some?
    ensures Inv(Apply(sys, a)) && Advances(sys, Apply(sys, a))
  {
    var t := Apply(sys, a);
    var Pass(snap, since) := sys.held[a.h];
    assert HolderOk(sys.items, sys.held[a.h]);
    CarryForward(sys.items[snap.Id()], snap, a.idDrawn, a.signed, a.response, since);
    RowStep(sys, t, snap.Id(), t.items[snap.Id()]);
  }

  lemma ReclaimKeeps(sys: System, a: Action)
    requires Inv(sys) && a.Reclaim? && Apply(sys, a) != sys
    ensures Inv(Apply(sys, a)) && Advances(sys, Apply(sys, a))
  {
    RowStep(sys, Apply(sys, a), a.id, Apply(sys, a).items[a.id]);
  }

  lemma StepKeeps(sys: System, a: Action)
    requires Inv(sys)
    ensures Inv(Apply(sys, a)) && Advances(sys, Apply(sys, a))
  {
    match a
    case Begin(_, _, _, _, _) => BeginKeeps(sys, a);
    case Renew(_, _, _) => if Apply(sys, a) != sys { RenewKeeps(sys, a); }
    case Finish(h, outcome, now) => if DeliveryWrite(sys, h, outcome, now).Some? { FinishKeeps(sys, a); }
    case Claim(_, _, _, _, _) => if Apply(sys, a) != sys { ClaimKeeps(sys, a); }
    case Reconcile(h, idDrawn, signed, response) =>
      if PassWrite(sys, h, idDrawn, signed, response).Some? { ReconcileKeeps(sys, a); }
    case Reclaim(_, _) => if Apply(sys, a) != sys { ReclaimKeeps(sys, a); }
    case Drop(_) =>
  }

  lemma {:induction false} RunKeeps(sys: System, actions: seq<Action>)
    requires Inv(sys)
    ensures Inv(Run(sys, actions)) && Advances(sys, Run(sys, actions))
    decreases |actions|
  {
    if actions != [] {
      StepKeeps(sys, actions[0]);
      RunKeeps(Apply(sys, actions[0]), actions[1..]);
    }
  }

  lemma {:induction false} RunOneMore(sys: System, actions: seq<Action>, a: Action)
    ensures Run(sys, actions + [a]) == Apply(Run(sys, actions), a)
    decreases |actions|
  {
    if actions == [] {
      assert ([] + [a])[1..] == [];
      assert Run(Apply(sys, a), []) == Apply(sys, a);
    } else {
      assert (actions + [a])[1..] == actions[1..] + [a];
      RunOneMore(Apply(sys, actions[0]), actions[1..], a);
    }
  }

  // ---- Main results on runs ----

  /** A step in which the holder of the first claim settles the row with the answer it got. */
  predicate DeliverySettles(sys: System, a: Action, id: string) {
    && a.Finish? && a.outcome.Answered? && a.h in sys.held && sys.held[a.h].item.Id() == id
    && DeliveryWrite(sys, a.h, a.outcome, a.now).Some?
  }

  ghost predicate SettledByDelivery(actions: seq<Action>, id: string) {
    exists i :: 0 <= i < |actions| && DeliverySettles(Run(INIT, actions[..i]), actions[i], id)
  }

  /** A receipt of the row's own event, request, action and target, of a success, that is not
      from before the row. */
  predicate OwnReceipt(row: Item, r: Receipt) {
    var e := row.intent.expects;
    && (r.event, r.request, r.action, r.targetType) == (e.event, e.request, e.action, e.targetType)
    && e.targetId in ["", r.targetId]
    && r.success && (r.resultVersion == None || r.resultVersion.value >= 1)
    && r.createdAt + 5_000 >= row.createdAt
  }

  predicate HasOwnReceipt(row: Item) {
    row.settled.Some? && row.settled.value.ByReceipt? && OwnReceipt(row, row.settled.value.receipt)
  }

  /** In every run, with any number of deliveries, reconcilers, crashes and expired leases: a
      settled row has a receipt of its own event, request, action and target exactly if the
      holder of its first claim did not settle it; and exactly if it was claimed again. */
  lemma ReceiptUnlessDelivered(actions: seq<Action>, id: string)
    ensures var items := Run(INIT, actions).items;
      id in items && items[id].state.Succeeded? ==>
        && (HasOwnReceipt(items[id]) <==> !SettledByDelivery(actions, id))
        && (HasOwnReceipt(items[id]) <==> items[id].attempts >= 2)
  {
    RunKeeps(INIT, actions);
    DeliveriesOnTrace(actions, id);
  }

  lemma {:induction false} DeliveriesOnTrace(actions: seq<Action>, id: string)
    ensures var items := Run(INIT, actions).items;
      SettledByDelivery(actions, id) <==>
        id in items && items[id].settled.Some? && items[id].settled.value.ByResponse?
    decreases |actions|
  {
    if actions != [] {
      var last := |actions| - 1;
      var before, a := actions[..last], actions[last];
      assert actions == before + [a];
      DeliveriesOnTrace(before, id);
      RunKeeps(INIT, before);
      RunOneMore(INIT, before, a);
      DeliverySettlesOnce(Run(INIT, before), a, id);
      forall i | 0 <= i < last ensures actions[..i] == before[..i] && actions[i] == before[i] {
      }
      if SettledByDelivery(before, id) {
        var i :| 0 <= i < last && DeliverySettles(Run(INIT, before[..i]), before[i], id);
        assert DeliverySettles(Run(INIT, actions[..i]), actions[i], id);
      }
      if SettledByDelivery(actions, id) && !DeliverySettles(Run(INIT, before), a, id) {
        var i :| 0 <= i < |actions| && DeliverySettles(Run(INIT, actions[..i]), actions[i], id);
        assert DeliverySettles(Run(INIT, before[..i]), before[i], id);
      }
    }
  }

  ghost predicate ByDelivery(sys: System, id: string) {
    id in sys.items && sys.items[id].settled.Some? && sys.items[id].settled.value.ByResponse?
  }

  lemma DeliverySettlesOnce(sys: System, a: Action, id: string)
    requires Inv(sys)
    ensures ByDelivery(Apply(sys, a), id) <==> ByDelivery(sys, id) || DeliverySettles(sys, a, id)
  {
    match a
    case Begin(_, intent, now, lease, token) => BeginIsNew(sys, intent, now, lease, token);
    case Finish(_, _, _) => FinishSettles(sys, a, id);
    case Reconcile(_, _, _, _) => ReceiptsOnly(sys, a, id);
    case _ =>
  }

  lemma FinishSettles(sys: System, a: Action, id: string)
    requires Inv(sys) && a.Finish?
    ensures ByDelivery(Apply(sys, a), id) <==> ByDelivery(sys, id) || DeliverySettles(sys, a, id)
  {
    if DeliveryWrite(sys, a.h, a.outcome, a.now).Some? {
      var snap := sys.held[a.h].item;
      assert HolderOk(sys.items, sys.held[a.h]);
      DeliverForward(sys.items[snap.Id()], snap, a.outcome, a.now);
    }
  }

  lemma ReceiptsOnly(sys: System, a: Action, id: string)
    requires Inv(sys) && a.Reconcile?
    ensures ByDelivery(Apply(sys, a), id) <==> ByDelivery(sys, id)
  {
    if PassWrite(sys, a.h, a.idDrawn, a.signed, a.response).Some? {
      var Pass(snap, since) := sys.held[a.h];
      assert HolderOk(sys.items, sys.held[a.h]);
      CarryForward(sys.items[snap.Id()], snap, a.idDrawn, a.signed, a.response, since);
    }
  }

  /** The first delivery does settle rows without any receipt: created, delivered, answered. */
  lemma DeliveryNeedsNoReceipt(intent: Intent, now: int, lease: nat, token: string, status: int, digest: string)
    requires lease > 0 && token != ""
    ensures var actions := [Begin(0, intent, now, lease, token), Finish(0, Answered(status, digest), now)];
      && intent.id in Run(INIT, actions).items
      && Run(INIT, actions).items[intent.id].state.Succeeded?
      && !HasOwnReceipt(Run(INIT, actions).items[intent.id])
  {
    var begin, finish := Begin(0, intent, now, lease, token), Finish(0, Answered(status, digest), now);
    RunOneMore(INIT, [begin], finish);
    RunOneMore(INIT, [], begin);
    assert [begin] + [finish] == [begin, finish] && [] + [begin] == [begin];
  }

  /** A row that is or ever was back in the queue, deferred or reclaimed, is settled only by
      its own receipt. */
  lemma OnceQueuedOnlyReceipts(before: seq<Action>, after: seq<Action>, id: string)
    ensures var sys := Run(INIT, before);
      id in sys.items && sys.items[id].state.Pending? ==>
        && id in Run(sys, after).items
        && (Run(sys, after).items[id].state.Succeeded? ==> HasOwnReceipt(Run(sys, after).items[id]))
  {
    RunKeeps(INIT, before);
    RunKeeps(Run(INIT, before), after);
  }

  /** One delivery per key, ever: once a row exists, whatever became of it, beginning again is
      refused and changes nothing. */
  lemma NeverDeliveredTwice(actions: seq<Action>, h: nat, intent: Intent, now: int, lease: nat, token: string)
    ensures intent.id in Run(INIT, actions).items ==>
      Apply(Run(INIT, actions), Begin(h, intent, now, lease, token)) == Run(INIT, actions)
  {
    RunKeeps(INIT, actions);
    BeginIsNew(Run(INIT, actions), intent, now, lease, token);
  }

  /** Settled, failed and handed-over rows are final in every continuation of every run. */
  lemma TerminalRowsAreFinal(before: seq<Action>, after: seq<Action>, id: string)
    ensures var sys := Run(INIT, before);
      id in sys.items && sys.items[id].state.Terminal() ==>
        id in Run(sys, after).items && Run(sys, after).items[id] == sys.items[id]
  {
    RunKeeps(INIT, before);
    RunKeeps(Run(INIT, before), after);
  }

  /** What beginning does, exactly: a new row under its first claim, marked as possibly sent,
      and nothing if there is a row already or no claim can be made. */
  lemma BeginDecides(sys: System, h: nat, intent: Intent, now: int, lease: nat, token: string)
    requires Inv(sys) && h !in sys.held
    ensures var t := Apply(sys, Begin(h, intent, now, lease, token));
      var row := Item(intent, Claimed(token, now + lease), Indeterminate, 3, 1, now, now, None);
      t == if intent.id !in sys.items && lease > 0 && token != ""
           then System(sys.items[intent.id := row], sys.held[h := Delivery(row)]) else sys
  {
    BeginIsNew(sys, intent, now, lease, token);
  }

  /** What a pass claims: a row in the queue whose time has come, for its lease, with one more
      attempt on it. */
  lemma ClaimDecides(sys: System, h: nat, id: string, now: int, lease: nat, token: string)
    requires Inv(sys) && h !in sys.held && id in sys.items && lease > 0 && token != ""
    ensures var row, t := sys.items[id], Apply(sys, Claim(h, id, now, lease, token));
      if row.state == Pending && row.nextAttempt <= now then
        var next := Item(row.intent, Claimed(token, now + lease), row.phase, row.version + 1, row.attempts + 1,
                         row.nextAttempt, row.createdAt, row.settled);
        t == System(sys.items[id := next], sys.held[h := Pass(next, now)])
      else t == sys
  {
    assert RowOk(sys.items[id]);
  }

  /** What a delivery's renewal and the return of an expired claim do to the row: the first
      extends a lease that still runs, the second ends one that ran out. */
  lemma LeaseDecides(sys: System, h: nat, id: string, now: int, lease: nat)
    requires Inv(sys) && id in sys.items
    ensures var row, t := sys.items[id], Apply(sys, Reclaim(id, now));
      && t.held == sys.held
      && t.items == (if row.state.Claimed? && row.state.leaseUntil <= now
                     then sys.items[id := row.(state := Pending, nextAttempt := now, version := row.version + 1)]
                     else sys.items)
    ensures h in sys.held && sys.held[h].Delivery? && sys.held[h].item.Id() == id ==>
      var row, t := sys.items[id], Apply(sys, Renew(h, now, lease));
      if row == sys.held[h].item && row.state.leaseUntil > now && lease > 0 then
        var next := row.(state := Claimed(row.state.token, now + lease), version := row.version + 1);
        t == System(sys.items[id := next], sys.held[h := Delivery(next)])
      else t == sys
  {
    if h in sys.held { assert HolderOk(sys.items, sys.held[h]); }
  }

  /** While a claim stands, only its holder changes the row; anyone else has to wait for the
      end of its lease and put the row back into the queue first. */
  lemma OnlyTheHolderWrites(actions: seq<Action>, a: Action, id: string)
    ensures var sys := Run(INIT, actions);
      id in sys.items && sys.items[id].state.Claimed? && Apply(sys, a).items[id] != sys.items[id] ==>
        || (a.Reclaim? && a.id == id && sys.items[id].state.leaseUntil <= a.now)
        || ((a.Renew? || a.Finish? || a.Reconcile?) && a.h in sys.held && sys.held[a.h].item == sys.items[id])
  {
    RunKeeps(INIT, actions);
    var sys := Run(INIT, actions);
    StepKeeps(sys, a);
    if id in sys.items && sys.items[id].state.Claimed? && Apply(sys, a).items[id] != sys.items[id] {
      HolderWrites(sys, a, id);
    }
  }

  lemma HolderWrites(sys: System, a: Action, id: string)
    requires Inv(sys) && id in sys.items && id in Apply(sys, a).items && sys.items[id].state.Claimed?
    requires Apply(sys, a).items[id] != sys.items[id]
    ensures || (a.Reclaim? && a.id == id && sys.items[id].state.leaseUntil <= a.now)
            || ((a.Renew? || a.Finish? || a.Reconcile?) && a.h in sys.held && sys.held[a.h].item == sys.items[id])
  {
    match a
    case Begin(_, intent, now, lease, token) => BeginIsNew(sys, intent, now, lease, token);
    case Renew(_, _, _) => DeliveryWrites(sys, a, id);
    case Finish(_, _, _) => DeliveryWrites(sys, a, id);
    case Reconcile(_, _, _, _) => PassWrites(sys, a, id);
    case _ =>
  }

  lemma DeliveryWrites(sys: System, a: Action, id: string)
    requires Inv(sys) && (a.Renew? || a.Finish?) && id in sys.items && id in Apply(sys, a).items
    requires Apply(sys, a).items[id] != sys.items[id]
    ensures a.h in sys.held && sys.held[a.h].item == sys.items[id]
  {
    assert HolderOk(sys.items, sys.held[a.h]);
    if a.Finish? { DeliverForward(sys.items[id], sys.held[a.h].item, a.outcome, a.now); }
  }

  lemma PassWrites(sys: System, a: Action, id: string)
    requires Inv(sys) && a.Reconcile? && id in sys.items && id in Apply(sys, a).items
    requires Apply(sys, a).items[id] != sys.items[id]
    ensures a.h in sys.held && sys.held[a.h].item == sys.items[id]
  {
    assert HolderOk(sys.items, sys.held[a.h]);
    CarryForward(sys.items[id], sys.held[a.h].item, a.idDrawn, a.signed, a.response, sys.held[a.h].since);
  }

  /** What a pass does, exactly: nothing if its row moved on since its claim, whatever
      upstream said, or if no identifier could be drawn; otherwise a success exactly for an own
      receipt of the right time, another try exactly for silence before the deadline, and an
      operator for everything else. */
  lemma PassDecides(sys: System, h: nat, idDrawn: bool, signed: bool, response: Response)
    requires Inv(sys) && h in sys.held && sys.held[h].Pass?
    ensures var Pass(snap, since) := sys.held[h];
      var row, t := sys.items[snap.Id()], Apply(sys, Reconcile(h, idDrawn, signed, response));
      && (row != snap ==> t.items == sys.items)
      && (row == snap ==>
            var next := t.items[snap.Id()];
            var called := snap.intent.wellFormed && idDrawn && signed;
            if snap.intent.wellFormed && !idDrawn then next == row
            else if called && response.NoAnswer? && since < snap.createdAt + 900_000 then
              next == row.(state := Pending, nextAttempt := since + Delay(snap.attempts), version := row.version + 1)
            else if called && response.Answer? && response.ok && response.receipt.Some?
                    && OwnReceipt(snap, response.receipt.value)
                    && response.receipt.value.createdAt <= since + 5_000 then
              && next.state.Succeeded? && next.settled == Some(ByReceipt(response.receipt.value))
              && next == row.(state := Succeeded, settled := next.settled, phase := Sent, version := next.version)
            else next == row.(state := NeedsOperator, version := row.version + 1))
  {
    var Pass(snap, since) := sys.held[h];
    assert HolderOk(sys.items, sys.held[h]);
    CarryForward(sys.items[snap.Id()], snap, idDrawn, signed, response, since);
  }

  /** What the end of a first delivery does, exactly: nothing if the row moved on or the lease
      ran out; otherwise what its outcome says. */
  lemma DeliveryDecides(sys: System, h: nat, outcome: Delivered, now: int)
    requires Inv(sys) && h in sys.held && sys.held[h].Delivery?
    ensures var snap := sys.held[h].item;
      var row, t := sys.items[snap.Id()], Apply(sys, Finish(h, outcome, now));
      && (row != snap || Expired(row, now) ==> t.items == sys.items)
      && (row == snap && !Expired(row, now) ==>
            var next := t.items[snap.Id()];
            match outcome
            case Answered(status, digest) => next.state.Succeeded? && next.settled == Some(ByResponse(status, digest))
            case Refused => next.state.Failed? && next.phase.Sent?
            case Unknown => next.state.Pending? && next.nextAttempt == now + 1_000
            case Unsent => next.state.Failed? && next.phase.NotSent?)
  {
    var snap := sys.held[h].item;
    assert HolderOk(sys.items, sys.held[h]);
    DeliverForward(sys.items[snap.Id()], snap, outcome, now);
  }

  // ---- The backoff and the deadline ----

  /** The time an action happens at; a pass keeps the time it claimed at. */
  function TimeOf(a: Action): Option<int> {
    match a
    case Begin(_, _, now, _, _) => Some(now)
    case Renew(_, now, _) => Some(now)
    case Finish(_, _, now) => Some(now)
    case Claim(_, _, now, _, _) => Some(now)
    case Reclaim(_, now) => Some(now)
    case _ => None
  }

  function Clock(a: Action, clock: int): int { if TimeOf(a).Some? then TimeOf(a).value else clock }

  /** The clock does not run backwards. */
  predicate InOrder(actions: seq<Action>, clock: int)
    decreases |actions|
  {
    actions != [] ==> clock <= Clock(actions[0], clock) && InOrder(actions[1..], Clock(actions[0], clock))
  }

  /** A pass puts the row off because upstream did not answer. */
  predicate Defers(sys: System, a: Action, id: string) {
    && a.Reconcile? && a.h in sys.held && sys.held[a.h].Pass? && sys.held[a.h].item.Id() == id
    && Judge(sys.held[a.h].item, a.idDrawn, a.signed, a.response, sys.held[a.h].since).Defer?
    && PassWrite(sys, a.h, a.idDrawn, a.signed, a.response).Some?
  }

  function Deferrals(sys: System, actions: seq<Action>, id: string): nat
    decreases |actions|
  {
    if actions == [] then 0
    else (if Defers(sys, actions[0], id) then 1 else 0) + Deferrals(Apply(sys, actions[0]), actions[1..], id)
  }

  /** The least time d deferrals in a row take after the first claim: the i-th of them has at
      least i + 1 attempts behind it. */
  function Delays(d: nat): nat { if d == 0 then 0 else Delays(d - 1) + Delay(d + 1) }

  lemma {:induction false} DelayGrows(a: nat, b: nat)
    requires a <= b
    ensures Delay(a) <= Delay(b)
    decreases b - a
  {
    if a < b {
      DelayGrows(a, b - 1);
    }
  }

  /** The delay doubles from one second with every attempt and stays at sixty-four seconds. */
  lemma {:induction false} DelayTable(attempts: nat)
    ensures Delay(0) == 1_000
    ensures Delay(attempts + 1) == if attempts < 6 then 2 * Delay(attempts) else 64_000
  {
    SmallPowers();
  }

  lemma FirstDelays()
    ensures Delays(4) == 60_000
  {
    SmallPowers();
    assert Delays(1) == 4_000 && Delays(2) == 12_000 && Delays(3) == 28_000;
  }

  lemma {:induction false} DelaysAfter(d: nat)
    requires d >= 4
    ensures Delays(d) == 60_000 + 64_000 * (d - 4)
  {
    if d == 4 {
      FirstDelays();
    } else {
      DelaysAfter(d - 1);
      SmallPowers();
    }
  }

  lemma {:induction false} DelaysGrow(d: nat, e: nat)
    requires d <= e
    ensures Delays(d) <= Delays(e)
    decreases e - d
  {
    if d < e { DelaysGrow(d, e - 1); }
  }

  /** Before the deadline there is room for one more deferral exactly while there have been
      fewer than eighteen. */
  lemma RoomForDeferrals(d: nat)
    ensures Delays(d) + DELIVERY_DELAY < DEADLINE <==> d < MAX_DEFERRALS
    ensures Delays(d) < DEADLINE <==> d < MAX_DEFERRALS
  {
    DelaysAfter(17);
    DelaysAfter(18);
    if d < MAX_DEFERRALS { DelaysGrow(d, 17); } else { DelaysGrow(18, d); }
  }

  /** After d deferrals of a row its attempts, its queue time and its claims are behind the
      delays these deferrals imposed. */
  ghost predicate RowPaced(row: Item, d: nat, clock: int) {
    && row.attempts >= d + 1
    && (row.state.Pending? ==> row.nextAttempt >= row.createdAt + Delays(d))
    && (row.state.Claimed? ==> clock >= row.createdAt + Delays(d))
  }

  /** The same of a pass that still holds the row. */
  ghost predicate PassPaced(row: Item, holder: Holder, d: nat) {
    holder.Pass? && holder.item == row ==> holder.since >= row.createdAt + Delays(d) && row.attempts >= d + 2
  }

  ghost predicate Paced(sys: System, id: string, d: nat, clock: int) {
    && d <= MAX_DEFERRALS
    && (id !in sys.items ==> d == 0)
    && (id in sys.items ==>
          && RowPaced(sys.items[id], d, clock)
          && forall h :: h in sys.held ==> PassPaced(sys.items[id], sys.held[h], d))
  }

  lemma DeferralPaced(sys: System, a: Action, id: string, d: nat, clock: int)
    requires Inv(sys) && Paced(sys, id, d, clock) && Defers(sys, a, id)
    ensures Paced(Apply(sys, a), id, d + 1, clock)
  {
    var Pass(snap, since) := sys.held[a.h];
    assert HolderOk(sys.items, sys.held[a.h]) && PassPaced(sys.items[id], sys.held[a.h], d);
    assert snap == sys.items[id];
    RoomForDeferrals(d);
    DelayGrows(d + 2, snap.attempts);
    NoPassBehind(sys, Apply(sys, a), id, d + 1);
  }

  /** A write leaves no pass that holds the new row, unless it is a claim. */
  lemma NoPassBehind(sys: System, t: System, id: string, d: nat)
    requires Inv(sys) && id in sys.items && id in t.items && t.items[id].version > sys.items[id].version
    requires t.items[id].Id() == id
    requires forall h :: h in t.held ==> (h in sys.held && t.held[h] == sys.held[h]) || t.held[h].Delivery?
    ensures forall h :: h in t.held ==> PassPaced(t.items[id], t.held[h], d)
  {
    forall h | h in t.held && t.held[h].Pass? ensures t.held[h].item != t.items[id] {
      assert HolderOk(sys.items, sys.held[h]);
    }
  }

  /** A step that writes to the row without a claim or a deferral. */
  lemma WritePaced(sys: System, t: System, id: string, d: nat, clock: int, now: int)
    requires Inv(sys) && Paced(sys, id, d, clock) && clock <= now && id in sys.items && id in t.items
    requires var row, next := sys.items[id], t.items[id];
      && next.version > row.version && next.attempts == row.attempts && next.createdAt == row.createdAt
      && next.Id() == id && row.state.Claimed? && (next.state.Pending? ==> next.nextAttempt >= now)
    requires forall h :: h in t.held ==> (h in sys.held && t.held[h] == sys.held[h]) || t.held[h].Delivery?
    ensures Paced(t, id, d, now)
  {
    NoPassBehind(sys, t, id, d);
  }

  /** A step that does not touch the row. */
  lemma OtherRowPaced(sys: System, t: System, id: string, d: nat, clock: int, now: int)
    requires Paced(sys, id, d, clock) && clock <= now
    requires (id in t.items <==> id in sys.items) && (id in sys.items ==> t.items[id] == sys.items[id])
    requires forall h :: h in t.held ==> (h in sys.held && t.held[h] == sys.held[h]) || t.held[h].item.Id() != id
    requires id in sys.items ==> sys.items[id].Id() == id
    ensures Paced(t, id, d, now)
  {
  }

  lemma BeginPaced(sys: System, a: Action, id: string, d: nat, clock: int)
    requires Inv(sys) && Paced(sys, id, d, clock) && a.Begin? && clock <= a.now
    ensures Paced(Apply(sys, a), id, d, a.now)
  {
    BeginIsNew(sys, a.intent, a.now, a.lease, a.token);
    var t := Apply(sys, a);
    if id in sys.items || id !in t.items {
      OtherRowPaced(sys, t, id, d, clock, a.now);
    } else {
      forall h | h in t.held && t.held[h].Pass? ensures t.held[h].item.Id() != id {
        assert HolderOk(sys.items, sys.held[h]);
      }
    }
  }

  lemma DeliveryPaced(sys: System, a: Action, id: string, d: nat, clock: int)
    requires Inv(sys) && Paced(sys, id, d, clock) && (a.Renew? || a.Finish?) && clock <= a.now
    ensures Paced(Apply(sys, a), id, d, a.now)
  {
    var t := Apply(sys, a);
    if a.h in sys.held && sys.held[a.h].Delivery? {
      var snap := sys.held[a.h].item;
      assert HolderOk(sys.items, sys.held[a.h]);
      if a.Finish? { DeliverForward(sys.items[snap.Id()], snap, a.outcome, a.now); }
      if snap.Id() == id && t.items != sys.items {
        WritePaced(sys, t, id, d, clock, a.now);
      } else {
        OtherRowPaced(sys, t, id, d, clock, a.now);
      }
    } else {
      OtherRowPaced(sys, t, id, d, clock, a.now);
    }
  }

  lemma ClaimPaced(sys: System, a: Action, id: string, d: nat, clock: int)
    requires Inv(sys) && Paced(sys, id, d, clock) && a.Claim? && clock <= a.now
    ensures Paced(Apply(sys, a), id, d, a.now)
  {
    var t := Apply(sys, a);
    if t != sys && a.id == id {
      var claim := t.held[a.h];
      assert PassPaced(t.items[id], claim, d);
      NoPassBehind(sys, t.(held := sys.held), id, d);
    } else {
      OtherRowPaced(sys, t, id, d, clock, a.now);
    }
  }

  lemma ReconcilePaced(sys: System, a: Action, id: string, d: nat, clock: int)
    requires Inv(sys) && Paced(sys, id, d, clock) && a.Reconcile? && !Defers(sys, a, id)
    ensures Paced(Apply(sys, a), id, d, clock)
  {
    var t := Apply(sys, a);
    var written := PassWrite(sys, a.h, a.idDrawn, a.signed, a.response);
    if written.Some? && sys.held[a.h].item.Id() == id {
      var Pass(snap, since) := sys.held[a.h];
      assert HolderOk(sys.items, sys.held[a.h]);
      CarryForward(sys.items[id], snap, a.idDrawn, a.signed, a.response, since);
      WritePaced(sys, t, id, d, clock, clock);
    } else {
      OtherRowPaced(sys, t, id, d, clock, clock);
    }
  }

  lemma ReclaimPaced(sys: System, a: Action, id: string, d: nat, clock: int)
    requires Inv(sys) && Paced(sys, id, d, clock) && a.Reclaim? && clock <= a.now
    ensures Paced(Apply(sys, a), id, d, a.now)
  {
    var t := Apply(sys, a);
    if t != sys && a.id == id {
      WritePaced(sys, t, id, d, clock, a.now);
    } else {
      OtherRowPaced(sys, t, id, d, clock, a.now);
    }
  }

  lemma OtherStepPaced(sys: System, a: Action, id: string, d: nat, clock: int)
    requires Inv(sys) && Paced(sys, id, d, clock) && !Defers(sys, a, id) && clock <= Clock(a, clock)
    ensures Paced(Apply(sys, a), id, d, Clock(a, clock))
  {
    match a
    case Begin(_, _, _, _, _) => BeginPaced(sys, a, id, d, clock);
    case Renew(_, _, _) => DeliveryPaced(sys, a, id, d, clock);
    case Finish(_, _, _) => DeliveryPaced(sys, a, id, d, clock);
    case Claim(_, _, _, _, _) => ClaimPaced(sys, a, id, d, clock);
    case Reconcile(_, _, _, _) => ReconcilePaced(sys, a, id, d, clock);
    case Reclaim(_, _) => ReclaimPaced(sys, a, id, d, clock);
    case Drop(_) => OtherRowPaced(sys, Apply(sys, a), id, d, clock, clock);
  }

  lemma {:induction false} RunPaced(sys: System, actions: seq<Action>, id: string, d: nat, clock: int)
    requires Inv(sys) && Paced(sys, id, d, clock) && InOrder(actions, clock)
    ensures d + Deferrals(sys, actions, id) <= MAX_DEFERRALS
    decreases |actions|
  {
    if actions != [] {
      var a := actions[0];
      StepKeeps(sys, a);
      if Defers(sys, a, id) {
        DeferralPaced(sys, a, id, d, clock);
        RunPaced(Apply(sys, a), actions[1..], id, d + 1, clock);
      } else {
        OtherStepPaced(sys, a, id, d, clock);
        RunPaced(Apply(sys, a), actions[1..], id, d, Clock(a, clock));
      }
    }
  }

  /** In every run under a clock that does not run backwards, with any number of passes,
      crashes and expired leases, a row is deferred by passes at most eighteen times. */
  lemma DeferredAtMostEighteenTimes(actions: seq<Action>, id: string, start: int)
    requires InOrder(actions, start)
    ensures Deferrals(INIT, actions, id) <= MAX_DEFERRALS
  {
    RunPaced(INIT, actions, id, 0, start);
  }

  /** The earliest attempts: a delivery without an answer, and then a pass as soon as the row
      is due again, each without an answer. */
  function Earliest(intent: Intent, lease: nat, token: string, d: nat): seq<Action> {
    if d == 0 then [Begin(0, intent, 0, lease, token), Finish(0, Unknown, 0)]
    else Earliest(intent, lease, token, d - 1) + [Claim(0, intent.id, DueAt(d - 1), lease, token)]
         + [Reconcile(0, true, true, NoAnswer)]
  }

  function DueAt(d: nat): nat { DELIVERY_DELAY + Delays(d) }

  lemma {:induction false} InOrderOneMore(actions: seq<Action>, a: Action, clock: int)
    requires InOrder(actions, clock) && LastClock(actions, clock) <= Clock(a, LastClock(actions, clock))
    ensures InOrder(actions + [a], clock)
    ensures LastClock(actions + [a], clock) == Clock(a, LastClock(actions, clock))
    decreases |actions|
  {
    if actions == [] {
      assert ([] + [a])[1..] == [];
      assert InOrder([], Clock(a, clock)) && LastClock([], Clock(a, clock)) == Clock(a, clock);
    } else {
      assert (actions + [a])[1..] == actions[1..] + [a];
      InOrderOneMore(actions[1..], a, Clock(actions[0], clock));
    }
  }

  function LastClock(actions: seq<Action>, clock: int): int
    decreases |actions|
  {
    if actions == [] then clock else LastClock(actions[1..], Clock(actions[0], clock))
  }

  lemma {:induction false} DeferralsOneMore(sys: System, actions: seq<Action>, a: Action, id: string)
    ensures Deferrals(sys, actions + [a], id) ==
      Deferrals(sys, actions, id) + (if Defers(Run(sys, actions), a, id) then 1 else 0)
    decreases |actions|
  {
    if actions == [] {
      assert ([] + [a])[1..] == [];
      assert Deferrals(Apply(sys, a), [], id) == 0;
    } else {
      assert (actions + [a])[1..] == actions[1..] + [a];
      DeferralsOneMore(Apply(sys, actions[0]), actions[1..], a, id);
    }
  }

  /** After the earliest d attempts of passes. */
  ghost predicate PutOff(sys: System, intent: Intent, d: nat) {
    && sys.held == map[] && intent.id in sys.items
    && var row := sys.items[intent.id];
       && row.intent == intent && row.state.Pending? && row.phase.Indeterminate? && row.version > 0
       && row.createdAt == 0 && row.attempts == d + 1 && row.nextAttempt == DueAt(d)
  }

  lemma EarliestStart(intent: Intent, lease: nat, token: string)
    requires lease > 0 && token != ""
    ensures var actions := Earliest(intent, lease, token, 0);
      PutOff(Run(INIT, actions), intent, 0) && Deferrals(INIT, actions, intent.id) == 0
      && InOrder(actions, 0) && LastClock(actions, 0) == 0
  {
    var begin, finish := Begin(0, intent, 0, lease, token), Finish(0, Unknown, 0);
    assert [begin] + [finish] == [begin, finish] && [] + [begin] == [begin];
    RunOneMore(INIT, [begin], finish);
    RunOneMore(INIT, [], begin);
    DeferralsOneMore(INIT, [begin], finish, intent.id);
    DeferralsOneMore(INIT, [], begin, intent.id);
    InOrderOneMore([], begin, 0);
    InOrderOneMore([begin], finish, 0);
  }

  lemma EarliestStep(sys: System, intent: Intent, lease: nat, token: string, d: nat)
    requires PutOff(sys, intent, d) && intent.wellFormed && lease > 0 && token != "" && d < MAX_DEFERRALS
    ensures var claim, reconcile := Claim(0, intent.id, DueAt(d), lease, token), Reconcile(0, true, true, NoAnswer);
      PutOff(Apply(Apply(sys, claim), reconcile), intent, d + 1) && Defers(Apply(sys, claim), reconcile, intent.id)
  {
    RoomForDeferrals(d);
    var t := Apply(sys, Claim(0, intent.id, DueAt(d), lease, token));
    assert t.held.Keys == {0};
    assert Apply(t, Reconcile(0, true, true, NoAnswer)).held.Keys == {};
  }

  lemma {:induction false} EarliestRun(intent: Intent, lease: nat, token: string, d: nat)
    requires intent.wellFormed && lease > 0 && token != "" && d <= MAX_DEFERRALS
    ensures var actions := Earliest(intent, lease, token, d);
      PutOff(Run(INIT, actions), intent, d) && Deferrals(INIT, actions, intent.id) == d
      && InOrder(actions, 0) && LastClock(actions, 0) <= DueAt(d)
  {
    if d == 0 {
      EarliestStart(intent, lease, token);
    } else {
      EarliestRun(intent, lease, token, d - 1);
      var before := Earliest(intent, lease, token, d - 1);
      var claim, reconcile := Claim(0, intent.id, DueAt(d - 1), lease, token), Reconcile(0, true, true, NoAnswer);
      EarliestStep(Run(INIT, before), intent, lease, token, d - 1);
      RunOneMore(INIT, before, claim);
      RunOneMore(INIT, before + [claim], reconcile);
      DeferralsOneMore(INIT, before, claim, intent.id);
      DeferralsOneMore(INIT, before + [claim], reconcile, intent.id);
      InOrderOneMore(before, claim, 0);
      InOrderOneMore(before + [claim], reconcile, 0);
    }
  }

  /** The bound is reached, from the first claim on. */
  lemma EighteenIsReached(intent: Intent, lease: nat, token: string)
    requires intent.wellFormed && lease > 0 && token != ""
    ensures exists actions ::
      InOrder(actions, 0) && [Begin(0, intent, 0, lease, token)] <= actions
      && Deferrals(INIT, actions, intent.id) == MAX_DEFERRALS
  {
    EarliestRun(intent, lease, token, MAX_DEFERRALS);
    EarliestBegins(intent, lease, token, MAX_DEFERRALS);
  }

  lemma {:induction false} EarliestBegins(intent: Intent, lease: nat, token: string, d: nat)
    ensures [Begin(0, intent, 0, lease, token)] <= Earliest(intent, lease, token, d)
  {
    if d > 0 { EarliestBegins(intent, lease, token, d - 1); }
  }

  /** After the deadline a pass that gets no answer hands the row to an operator. */
  lemma LateSilenceEnds(sys: System, h: nat, signed: bool)
    requires Inv(sys) && h in sys.held && sys.held[h].Pass?
    requires sys.held[h].item == sys.items[sys.held[h].item.Id()]
    requires sys.held[h].since >= sys.held[h].item.createdAt + DEADLINE
    ensures Apply(sys, Reconcile(h, true, signed, NoAnswer)).items[sys.held[h].item.Id()].state.NeedsOperator?
  {
    PassDecides(sys, h, true, signed, NoAnswer);
  }

  // ---- The services over their table ----

  function Reclaimed(items: map<string, Item>, now: int): map<string, Item> {
    map id | id in items :: if Expired(items[id], now) then ReclaimRow(items[id], now) else items[id]
  }

  predicate Distinct(ids: seq<string>) {
    forall i, j :: 0 <= i < j < |ids| ==> ids[i] != ids[j]
  }

  datatype Attempt = Attempt(token: string, idDrawn: bool, signed: bool, response: Response)

  /** A row that a pass claims and reconciles with nobody in between. */
  function AfterPass(row: Item, attempt: Attempt, now: int, lease: nat): Item {
    Reconciled(ClaimRow(row, attempt.token, now + lease), attempt, now)
  }

  function Reconciled(snap: Item, attempt: Attempt, now: int): (row: Item)
    ensures row.Id() == snap.Id()
  {
    var next := Carry(snap, snap, Judge(snap, attempt.idDrawn, attempt.signed, attempt.response, now), now);
    if next.Some? then next.value else snap
  }

  class OutboxTable {
    var items: map<string, Item>

    constructor ()
      ensures items == map[]
    {
      items := map[];
    }

    ghost predicate Valid()
      reads this
    {
      forall id :: id in items ==> items[id].Id() == id
    }

    /** One guarded update; None means that no row matched. */
    method Store(row: Option<Item>) returns (ok: bool)
      modifies this
      ensures ok <==> row.Some?
      ensures items == Write(old(items), row)
    {
      if row.None? { return false; }
      items := items[row.value.Id() := row.value];
      ok := true;
    }

    /** beginMutation: create or replay, claim, mark; a failure of any of them undoes all. */
    method BeginMutation(intent: Intent, now: int, lease: nat, token: string) returns (claimed: Option<Item>)
      modifies this
      ensures claimed == BeginTx(Lookup(old(items), intent.id), intent, now, lease, token)
      ensures items == Write(old(items), claimed)
    {
      var before := items;
      if intent.id !in items {
        items := items[intent.id := NewItem(intent, now)];
      }
      var row := items[intent.id];
      if row.intent != intent || !row.state.Pending? || !row.phase.NotSent? || row.version == 0 || lease == 0
        || token == "" {
        items := before;
        return None;
      }
      var snap := ClaimRow(row, token, now + lease);
      items := items[intent.id := snap];
      items := items[intent.id := snap.(phase := Indeterminate, version := snap.version + 1)];
      claimed := Some(items[intent.id]);
      assert items == before[intent.id := claimed.value];
    }

    /** renewMutationClaim; the caller goes on with the next version. */
    method RenewMutationClaim(snap: Item, now: int, lease: nat) returns (renewed: Option<Item>)
      requires snap.Id() in items
      modifies this
      ensures renewed == RenewClaim(old(items)[snap.Id()], snap, now, lease)
      ensures items == Write(old(items), renewed)
    {
      renewed := RenewClaim(items[snap.Id()], snap, now, lease);
      var _ := Store(renewed);
    }

    /** settleMutation and failMutation: marked sent and ended in one transaction. */
    method EndMutation(snap: Item, settlement: Option<Settlement>, now: int) returns (ok: bool)
      requires Valid() && snap.Id() in items && (settlement.Some? ==> settlement.value.ByResponse?)
      modifies this
      ensures Valid()
      ensures var outcome :=
          if settlement.Some? then Answered(settlement.value.status, settlement.value.digest) else Refused;
        && (ok <==> DeliverTx(old(items)[snap.Id()], snap, outcome, now).Some?)
        && items == Write(old(items), DeliverTx(old(items)[snap.Id()], snap, outcome, now))
    {
      var before := items;
      ok := Store(MarkSent(items[snap.Id()], snap, snap.version, now));
      if !ok { return; }
      var row := items[snap.Id()];
      if settlement.Some? {
        ok := Store(SettleRow(row, snap, snap.version + 1, settlement.value, now));
      } else {
        ok := Store(FailRow(row, snap, snap.version + 1, now));
      }
      if !ok { items := before; }
    }

    /** The end of a first delivery. */
    method FinishMutation(snap: Item, outcome: Delivered, now: int) returns (ok: bool)
      requires Valid() && snap.Id() in items
      modifies this
      ensures Valid()
      ensures ok <==> DeliverTx(old(items)[snap.Id()], snap, outcome, now).Some?
      ensures items == Write(old(items), DeliverTx(old(items)[snap.Id()], snap, outcome, now))
    {
      match outcome {
        case Answered(status, digest) => ok := EndMutation(snap, Some(ByResponse(status, digest)), now);
        case Refused => ok := EndMutation(snap, None, now);
        case Unknown => ok := Store(DeferReceipt(items[snap.Id()], snap, now + DELIVERY_DELAY, now));
        case Unsent => ok := Store(AbortBeforeSend(items[snap.Id()], snap, now));
      }
    }

    /** One claim of ClaimReceiptsDue, with a fresh token. */
    method ClaimReceiptDue(id: string, now: int, lease: nat, token: string) returns (snap: Item)
      requires Valid() && id in items && Due(items[id], now)
      modifies this
      ensures Valid()
      ensures snap == ClaimRow(old(items)[id], token, now + lease) && items == old(items)[id := snap]
    {
      snap := ClaimRow(items[id], token, now + lease);
      items := items[id := snap];
    }

    /** The transaction of settle; a miss of its second update undoes the first. */
    method SettleItem(snap: Item, receipt: Receipt, now: int) returns (ok: bool)
      requires Valid() && snap.Id() in items
      modifies this
      ensures Valid()
      ensures ok <==> SettleTx(old(items)[snap.Id()], snap, receipt, now).Some?
      ensures items == Write(old(items), SettleTx(old(items)[snap.Id()], snap, receipt, now))
    {
      var before := items;
      var expected := snap.version;
      if snap.phase.Indeterminate? {
        ok := Store(MarkSent(items[snap.Id()], snap, expected, now));
        if !ok { return; }
        expected := expected + 1;
      }
      ok := Store(SettleRow(items[snap.Id()], snap, expected, ByReceipt(receipt), now));
      if !ok { items := before; }
    }

    /** reconcileOne. */
    method ReconcileOne(snap: Item, attempt: Attempt, now: int) returns (ok: bool)
      requires Valid() && snap.Id() in items
      modifies this
      ensures Valid()
      ensures var verdict := Judge(snap, attempt.idDrawn, attempt.signed, attempt.response, now);
        var next := Carry(old(items)[snap.Id()], snap, verdict, now);
        && (ok <==> next.Some?)
        && items == Write(old(items), next)
    {
      var row, response := items[snap.Id()], attempt.response;
      if !Reconcilable(snap) {
        ok := Store(MarkNeedsOperator(row, snap, now));
        return;
      }
      if !attempt.idDrawn { return false; }
      if !attempt.signed {
        ok := Store(MarkNeedsOperator(row, snap, now));
        return;
      }
      if response.NoAnswer? {
        if now - snap.createdAt >= DEADLINE {
          ok := Store(MarkNeedsOperator(row, snap, now));
        } else {
          ok := Store(DeferReceipt(row, snap, now + Delay(snap.attempts), now));
        }
        return;
      }
      if !response.ok || response.receipt.None? || !Matches(snap.intent.expects, response.receipt.value)
         || !Timely(snap, response.receipt.value, now)
      {
        ok := Store(MarkNeedsOperator(row, snap, now));
        return;
      }
      ok := SettleItem(snap, response.receipt.value, now);
    }

    /** The claims of ClaimReceiptsDue: expired claims go back to the queue, and then every
        listed row is claimed. */
    method ClaimReceiptsDue(ids: seq<string>, attempts: seq<Attempt>, now: int, lease: nat) returns (claimed: seq<Item>)
      requires Valid() && |attempts| == |ids| && Distinct(ids)
      requires forall i :: 0 <= i < |ids| ==> ids[i] in items && Due(Reclaimed(items, now)[ids[i]], now)
      modifies this
      ensures Valid() && items.Keys == old(items).Keys && |claimed| == |ids|
      ensures forall i :: 0 <= i < |ids| ==>
        && claimed[i] == ClaimRow(Reclaimed(old(items), now)[ids[i]], attempts[i].token, now + lease)
        && items[ids[i]] == claimed[i]
      ensures forall id :: id in items && id !in ids ==> items[id] == Reclaimed(old(items), now)[id]
    {
      items := Reclaimed(items, now);
      ghost var start := items;
      claimed := [];
      for k := 0 to |ids|
        invariant Valid() && items.Keys == start.Keys && |claimed| == k
        invariant forall i :: 0 <= i < k ==> claimed[i] == ClaimRow(start[ids[i]], attempts[i].token, now + lease)
        invariant forall i :: 0 <= i < k ==> items[ids[i]] == claimed[i]
        invariant forall id :: id in items && id !in ids[..k] ==> items[id] == start[id]
      {
        assert forall i :: 0 <= i < k ==> ids[i] != ids[k];
        var snap := ClaimReceiptDue(ids[k], now, lease, attempts[k].token);
        claimed := claimed + [snap];
      }
    }

    /** The loop of RunOnce: each claimed row is reconciled on its own, and no failure of one
        stops the others. */
    method ReconcileAll(claimed: seq<Item>, attempts: seq<Attempt>, now: int)
      returns (processed: nat, failures: nat)
      requires Valid() && |attempts| == |claimed|
      requires forall i :: 0 <= i < |claimed| ==> claimed[i].Id() in items && items[claimed[i].Id()] == claimed[i]
      requires forall i, j :: 0 <= i < j < |claimed| ==> claimed[i].Id() != claimed[j].Id()
      modifies this
      ensures processed + failures == |claimed|
      ensures items.Keys == old(items).Keys
      ensures forall i :: 0 <= i < |claimed| ==> items[claimed[i].Id()] == Reconciled(claimed[i], attempts[i], now)
      ensures forall id :: id in items && (forall i :: 0 <= i < |claimed| ==> claimed[i].Id() != id) ==>
        items[id] == old(items)[id]
    {
      processed, failures := 0, 0;
      for k := 0 to |claimed|
        invariant Valid() && items.Keys == old(items).Keys && processed + failures == k
        invariant forall i :: 0 <= i < k ==> items[claimed[i].Id()] == Reconciled(claimed[i], attempts[i], now)
        invariant forall i :: k <= i < |claimed| ==> items[claimed[i].Id()] == claimed[i]
        invariant forall id :: id in items && (forall i :: 0 <= i < |claimed| ==> claimed[i].Id() != id) ==>
          items[id] == old(items)[id]
      {
        ghost var before := items;
        var ok := ReconcileOne(claimed[k], attempts[k], now);
        assert items == before[claimed[k].Id() := Reconciled(claimed[k], attempts[k], now)];
        if ok { processed := processed + 1; } else { failures := failures + 1; }
      }
    }

    /** RunOnce over the rows its query lists: claimed together, then reconciled one by one. */
    method RunOnce(ids: seq<string>, attempts: seq<Attempt>, now: int, lease: nat)
      returns (processed: nat, failures: nat)
      requires Valid() && |attempts| == |ids| && Distinct(ids)
      requires forall i :: 0 <= i < |ids| ==> ids[i] in items && Due(Reclaimed(items, now)[ids[i]], now)
      modifies this
      ensures processed + failures == |ids|
      ensures items.Keys == old(items).Keys
      ensures forall i :: 0 <= i < |ids| ==>
        items[ids[i]] == AfterPass(Reclaimed(old(items), now)[ids[i]], attempts[i], now, lease)
      ensures forall id :: id in items && id !in ids ==> items[id] == Reclaimed(old(items), now)[id]
    {
      var claimed := ClaimReceiptsDue(ids, attempts, now, lease);
      assert forall i :: 0 <= i < |ids| ==> claimed[i].Id() == ids[i];
      processed, failures := ReconcileAll(claimed, attempts, now);
    }
  }
}
