/** The credit ledger and the payment webhook as transitions over user
    balances, a transaction log and a subscription list. A database
    transaction either applies all of its writes or none: a failure is
    `Failure(message)` and leaves the state as it was. */
module Ledger {
  import opened Wrappers
  import opened JsText

  datatype User = User(credits: int, isGuest: bool)

  datatype TxKind = Usage | CreditPurchase

  datatype Tx = Tx(userId: string, amount: int, kind: TxKind, status: string, externalId: Option<string>,
                   description: string)

  datatype Subscription = Subscription(userId: string, plan: string, status: string, startDate: int, endDate: int)

  datatype State = State(users: map<string, User>, txs: seq<Tx>, subscriptions: seq<Subscription>)

  const UserNotFound: string := "Usuário não encontrado"
  const GuestOutOfCredits: string := "Seus créditos grátis acabaram. Crie uma conta para continuar!"
  const NotEnoughCredits: string := "Créditos insuficientes. Recarregue sua conta!"
  const UsageDescription: string := "Geração de planilha"

  /** The amount consumed when none is given. */
  const DefaultConsumeAmount: int := 1

  /** `consumeCredits(userId, amount = 1)`. */
  function Consume(s: State, userId: string, amount: Option<int>): (r: Result<State, string>)
  {
    var a := amount.GetOr(DefaultConsumeAmount);
    if userId !in s.users then Failure(UserNotFound)
    else if s.users[userId].credits < a then
      Failure(if s.users[userId].isGuest then GuestOutOfCredits else NotEnoughCredits)
    else
      var u := s.users[userId];
      Success(s.(users := s.users[userId := u.(credits := u.credits - a)],
                 txs := s.txs + [Tx(userId, -a, Usage, "completed", None, UsageDescription)]))
  }

  /** How a consume ends: an unknown user, too few credits (with the guest or
      the registered message), or the credits lowered by exactly the amount
      together with one usage record of minus the amount. */
  lemma ConsumeSpec(s: State, userId: string, amount: Option<int>)
    ensures var a := amount.GetOr(1); var r := Consume(s, userId, amount);
      && (userId !in s.users <==> r == Failure(UserNotFound))
      && (userId in s.users && s.users[userId].credits < a ==>
            r == Failure(if s.users[userId].isGuest then GuestOutOfCredits else NotEnoughCredits))
      && (r.Success? <==> userId in s.users && s.users[userId].credits >= a)
      && (r.Success? ==>
            && r.value.users.Keys == s.users.Keys
            && r.value.users[userId].credits == s.users[userId].credits - a
            && r.value.users[userId].credits >= 0
            && r.value.users[userId].isGuest == s.users[userId].isGuest
            && r.value.txs == s.txs + [Tx(userId, -a, Usage, "completed", None, UsageDescription)]
            && r.value.subscriptions == s.subscriptions
            && forall v :: v in s.users && v != userId ==> r.value.users[v] == s.users[v])
  {
  }

  /** `addCredits`: an update of a user that does not exist fails, and so
      does a second record under an `externalId` already used. */
  function AddCredits(s: State, userId: string, amount: int, externalId: Option<string>): (r: Result<State, string>)
  {
    if userId !in s.users then Failure("user not found")
    else if externalId.Some? && ExternalIdUsed(s, externalId.value) then Failure("duplicate externalId")
    else
      var u := s.users[userId];
      Success(s.(users := s.users[userId := u.(credits := u.credits + amount)],
                 txs := s.txs + [Tx(userId, amount, CreditPurchase, "completed", externalId,
                                    "Compra de " + IntToString(amount) + " créditos")]))
  }

  predicate ExternalIdUsed(s: State, externalId: string) {
    exists i | 0 <= i < |s.txs| :: s.txs[i].externalId == Some(externalId)
  }

  /** A successful add raises the credits by the amount and records one
      purchase of that amount under the given `externalId`. */
  lemma AddCreditsSpec(s: State, userId: string, amount: int, externalId: Option<string>)
    ensures var r := AddCredits(s, userId, amount, externalId);
      && (r.Success? <==> userId in s.users && (externalId.Some? ==> !ExternalIdUsed(s, externalId.value)))
      && (r.Success? ==>
            && r.value.users.Keys == s.users.Keys
            && r.value.users[userId].credits == s.users[userId].credits + amount
            && |r.value.txs| == |s.txs| + 1 && r.value.txs[..|s.txs|] == s.txs
            && r.value.txs[|s.txs|].userId == userId && r.value.txs[|s.txs|].amount == amount
            && r.value.txs[|s.txs|].kind == CreditPurchase && r.value.txs[|s.txs|].externalId == externalId
            && r.value.subscriptions == s.subscriptions
            && forall v :: v in s.users && v != userId ==> r.value.users[v] == s.users[v])
  {
    var r := AddCredits(s, userId, amount, externalId);
    if r.Success? {
      assert r.value.txs[..|s.txs|] == s.txs;
    }
  }

  /** `getUserBalance`: `user?.credits || 0`. */
  function Balance(s: State, userId: string): (b: int)
    ensures userId !in s.users ==> b == 0
    ensures userId in s.users ==> b == s.users[userId].credits
  {
    if userId in s.users then s.users[userId].credits else 0
  }

  // ---------------------------------------------------------------------------
  // Every balance change is recorded.

  /** The sum of the amounts recorded for one user. */
  function RecordedFor(txs: seq<Tx>, userId: string): int {
    if txs == [] then 0
    else RecordedFor(txs[..|txs| - 1], userId) + (if txs[|txs| - 1].userId == userId then txs[|txs| - 1].amount else 0)
  }

  /** Every user's credits are their opening credits plus what the log
      records for them. */
  predicate Reconciled(s: State, opening: map<string, int>) {
    s.users.Keys == opening.Keys
    && forall u :: u in s.users ==> s.users[u].credits == opening[u] + RecordedFor(s.txs, u)
  }

  lemma RecordedForAppend(txs: seq<Tx>, t: Tx, u: string)
    ensures RecordedFor(txs + [t], u) == RecordedFor(txs, u) + (if t.userId == u then t.amount else 0)
  {
    assert (txs + [t])[..|txs|] == txs;
  }

  /** Consuming keeps the balances reconciled with the log. */
  lemma ConsumeReconciled(s: State, opening: map<string, int>, userId: string, amount: Option<int>)
    requires Reconciled(s, opening) && Consume(s, userId, amount).Success?
    ensures Reconciled(Consume(s, userId, amount).value, opening)
  {
    var n := Consume(s, userId, amount).value;
    var t := n.txs[|s.txs|];
    assert n.txs == s.txs + [t];
    forall u | u in n.users ensures n.users[u].credits == opening[u] + RecordedFor(n.txs, u) {
      RecordedForAppend(s.txs, t, u);
    }
  }

  /** Adding keeps the balances reconciled with the log. */
  lemma AddCreditsReconciled(s: State, opening: map<string, int>, userId: string, amount: int, externalId: Option<string>)
    requires Reconciled(s, opening) && AddCredits(s, userId, amount, externalId).Success?
    ensures Reconciled(AddCredits(s, userId, amount, externalId).value, opening)
  {
    var n := AddCredits(s, userId, amount, externalId).value;
    var t := n.txs[|s.txs|];
    assert n.txs == s.txs + [t];
    forall u | u in n.users ensures n.users[u].credits == opening[u] + RecordedFor(n.txs, u) {
      RecordedForAppend(s.txs, t, u);
    }
  }

  // ---------------------------------------------------------------------------
  // The payment webhook

  /** What the payment provider reports for a payment id: its status, the
      `metadata.user_id` and the payment id, as strings. */
  datatype Payment = Payment(status: string, userId: Option<string>, id: Option<string>)

  const SubscriptionCredits: int := 600
  const DayMs: int := 24 * 60 * 60 * 1000
  const SubscriptionMs: int := 30 * DayMs

  /** The conditions under which the webhook grants anything. */
  predicate Grants(s: State, p: Payment) {
    && p.status == "approved"
    && p.userId.Some? && p.userId.value != ""
    && p.id.Some? && p.id.value != ""
    && !ExternalIdUsed(s, p.id.value)
  }

  /** `handleWebhook`: the payment is looked up only for a `payment`
      notification (`fetched` is that lookup, with its failure); `now` is
      the clock. `Success` is the `{ success: true }` answer. */
  function HandleWebhook(s: State, kind: string, fetched: Result<Payment, string>, now: int): (r: Result<State, string>)
  {
    if kind != "payment" then Success(s)
    else if fetched.Failure? then Failure(fetched.error)
    else
      var p := fetched.value;
      if !Grants(s, p) then Success(s)
      else
        var added := AddCredits(s, p.userId.value, SubscriptionCredits, Some(p.id.value));
        if added.Failure? then Failure(added.error)
        else
          Success(added.value.(subscriptions := added.value.subscriptions
            + [Subscription(p.userId.value, "monthly", "active", now, now + SubscriptionMs)]))
  }

  /** Anything but an approved, attributable, new payment changes nothing;
      a grant adds exactly 600 credits under the payment id and one monthly
      subscription ending 30 days later. */
  lemma WebhookSpec(s: State, kind: string, fetched: Result<Payment, string>, now: int)
    ensures var r := HandleWebhook(s, kind, fetched, now);
      && (kind != "payment" ==> r == Success(s))
      && (kind == "payment" && fetched.Success? && !Grants(s, fetched.value) ==> r == Success(s))
      && (kind == "payment" && fetched.Success? && Grants(s, fetched.value) && fetched.value.userId.value in s.users ==>
            var p := fetched.value; var u := p.userId.value;
            && r.Success?
            && r.value.users.Keys == s.users.Keys
            && r.value.users[u].credits == s.users[u].credits + 600
            && (forall v :: v in s.users && v != u ==> r.value.users[v] == s.users[v])
            && |r.value.txs| == |s.txs| + 1 && r.value.txs[..|s.txs|] == s.txs
            && r.value.txs[|s.txs|].userId == u && r.value.txs[|s.txs|].kind == CreditPurchase
            && r.value.txs[|s.txs|].externalId == Some(p.id.value)
            && r.value.txs[|s.txs|].amount == 600
            && r.value.subscriptions == s.subscriptions + [Subscription(u, "monthly", "active", now, now + 30 * 86400000)])
  {
    if kind == "payment" && fetched.Success? && Grants(s, fetched.value) && fetched.value.userId.value in s.users {
      var p := fetched.value;
      AddCreditsSpec(s, p.userId.value, SubscriptionCredits, Some(p.id.value));
    }
  }

  /** After a grant the payment id is on record, so it cannot grant again. */
  lemma GrantRecordsId(s: State, kind: string, fetched: Result<Payment, string>, now: int)
    requires kind == "payment" && fetched.Success? && Grants(s, fetched.value)
    requires HandleWebhook(s, kind, fetched, now).Success?
    ensures ExternalIdUsed(HandleWebhook(s, kind, fetched, now).value, fetched.value.id.value)
  {
    var p := fetched.value;
    AddCreditsSpec(s, p.userId.value, SubscriptionCredits, Some(p.id.value));
    var r := HandleWebhook(s, kind, fetched, now).value;
    assert r.txs[|s.txs|].externalId == Some(p.id.value);
  }

  /** Replaying a notification, at any later time, leaves the state as the
      first delivery left it. */
  lemma WebhookIdempotent(s: State, kind: string, fetched: Result<Payment, string>, now: int, later: int)
    requires HandleWebhook(s, kind, fetched, now).Success?
    ensures var s1 := HandleWebhook(s, kind, fetched, now).value;
      HandleWebhook(s1, kind, fetched, later) == Success(s1)
  {
    var s1 := HandleWebhook(s, kind, fetched, now).value;
    if kind == "payment" && Grants(s, fetched.value) {
      GrantRecordsId(s, kind, fetched, now);
    } else {
      assert s1 == s;
    }
  }

  /** A grant keeps the balances reconciled with the log. */
  lemma WebhookReconciled(s: State, opening: map<string, int>, kind: string, fetched: Result<Payment, string>, now: int)
    requires Reconciled(s, opening) && HandleWebhook(s, kind, fetched, now).Success?
    ensures Reconciled(HandleWebhook(s, kind, fetched, now).value, opening)
  {
    if kind == "payment" && Grants(s, fetched.value) {
      var p := fetched.value;
      AddCreditsReconciled(s, opening, p.userId.value, SubscriptionCredits, Some(p.id.value));
    }
  }
}
