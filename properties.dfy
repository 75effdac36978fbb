/** What the ledger promises across calls: balances stay non-negative,
    settlement credits exactly once, registration and login agree, and the
    read-side projections follow every write. */
module Properties {
  import opened Types
  import opened Arrays
  import opened MockBackend

  // --- Identity ---

  /** A user who has just registered can log in with the same email and
      password, and gets back exactly the stored record. */
  lemma RegisterThenLogin(s: Store, id: string, email: string, password: string, name: string, now: int)
    requires forall j :: 0 <= j < |s.users| ==> s.users[j].email != email
    ensures Register(s, id, email, password, name, now).result.Ok?
    ensures Login(Register(s, id, email, password, name, now).store.users, email, password)
         == Register(s, id, email, password, name, now).result
  {
    var r := Register(s, id, email, password, name, now);
    var users := r.store.users;
    assert users[|s.users|] == r.result.value;
    var l := Login(users, email, password);
    assert l.Ok?;
  }

  /** Registering an email a second time fails and leaves every store as
      the first registration left it. */
  lemma RegisterTwiceFails(s: Store, id: string, id': string, email: string, password: string, password': string,
                           name: string, name': string, now: int, now': int)
    ensures var r := Register(s, id, email, password, name, now);
      Register(r.store, id', email, password', name', now') == Step(r.store, Err(UserAlreadyExists))
  {
    var r := Register(s, id, email, password, name, now);
    if r.result.Ok? {
      assert r.store.users[|s.users|].email == email;
    }
  }

  // --- Credit ledger ---

  /** Every stored balance is at least zero. */
  ghost predicate NonNegativeBalances(users: seq<User>)
  {
    forall i :: 0 <= i < |users| ==> users[i].credits >= 0
  }

  /** Non-negative balances survive any credit update that is a subtraction
      or adds a non-negative amount, whether it succeeds or fails. */
  lemma UpdateKeepsBalancesNonNegative(s: Store, userId: string, amount: int, op: CreditOp)
    requires NonNegativeBalances(s.users)
    requires op == Subtract || amount >= 0
    ensures NonNegativeBalances(UpdateCredits(s, userId, amount, op).store.users)
  {
  }

  /** After a successful update the session copy of that user, if signed in,
      shows the same balance as the stored record. */
  lemma SessionFollowsBalance(s: Store, userId: string, amount: int, op: CreditOp)
    requires s.session.Some? && s.session.value.id == userId
    ensures var r := UpdateCredits(s, userId, amount, op);
      r.result.Ok? ==> r.store.session.Some? && r.store.session.value.credits == r.result.value.credits
  {
  }

  // --- Payment journal ---

  /** The index lookup finds the same record after any change to a record
      that keeps its id. */
  lemma PaymentIndexAfterUpdate(payments: seq<Payment>, paymentId: string, i: nat, q: Payment)
    requires PaymentIndex(payments, paymentId) == Some(i)
    requires q.id == payments[i].id
    ensures PaymentIndex(payments[i := q], paymentId) == Some(i)
  {
    var ps := payments[i := q];
    var f := PaymentIndex(ps, paymentId);
    assert ps[i].id == paymentId;
    assert f.Some?;
  }

  /** Approval is idempotent: approving the result of an approval again
      changes nothing, whatever the first call did. */
  lemma ApproveIdempotent(s: Store, paymentId: string)
    ensures var r := Approve(s, paymentId);
      Approve(r.store, paymentId).store == r.store
  {
    var r := Approve(s, paymentId);
    var f := PaymentIndex(s.payments, paymentId);
    if f.Some? && s.payments[f.value].status != SUCCESS {
      var i := f.value;
      PaymentIndexAfterUpdate(s.payments, paymentId, i, s.payments[i].(status := SUCCESS));
    }
  }

  /** Approving a pending payment twice credits its owner exactly once. */
  lemma ApproveTwiceCreditsOnce(s: Store, paymentId: string)
    requires PaymentIndex(s.payments, paymentId).Some?
    requires s.payments[PaymentIndex(s.payments, paymentId).value].status != SUCCESS
    requires UserIndex(s.users, s.payments[PaymentIndex(s.payments, paymentId).value].userId).Some?
    ensures var p := s.payments[PaymentIndex(s.payments, paymentId).value];
      var k := UserIndex(s.users, p.userId).value;
      var twice := Approve(Approve(s, paymentId).store, paymentId);
      && twice.result == Ok(())
      && |twice.store.users| == |s.users|
      && twice.store.users[k].credits == s.users[k].credits + p.credits
      && (forall j :: 0 <= j < |s.users| && j != k ==> twice.store.users[j] == s.users[j])
  {
    var r := Approve(s, paymentId);
    var i := PaymentIndex(s.payments, paymentId).value;
    PaymentIndexAfterUpdate(s.payments, paymentId, i, s.payments[i].(status := SUCCESS));
    ApproveIdempotent(s, paymentId);
  }

  /** A manual transfer leaves every balance alone until an administrator
      approves it; the approval then credits the owner by the payment's
      credits and marks that record settled. */
  lemma ManualPaymentThenApprove(s: Store, id: string, userId: string, amount: int, credits: int,
                                 transactionId: Option<string>, now: int)
    requires PaymentIndex(s.payments, id).None?
    requires UserIndex(s.users, userId).Some?
    ensures var bought := Purchase(s, id, userId, amount, credits, UPI_MANUAL, transactionId, now);
      var approved := Approve(bought.store, id);
      var k := UserIndex(s.users, userId).value;
      && bought.result.Ok? && bought.result.value.status == PENDING
      && bought.store.users == s.users
      && approved.result == Ok(())
      && approved.store.payments == s.payments + [bought.result.value.(status := SUCCESS)]
      && approved.store.users == s.users[k := s.users[k].(credits := s.users[k].credits + credits)]
  {
    var bought := Purchase(s, id, userId, amount, credits, UPI_MANUAL, transactionId, now);
    var ps := bought.store.payments;
    assert ps[|s.payments|].id == id;
    var f := PaymentIndex(ps, id);
    assert f.Some?;
    assert ps[|s.payments| := ps[|s.payments|].(status := SUCCESS)]
        == s.payments + [bought.result.value.(status := SUCCESS)];
  }

  /** A gateway payment settles at once and credits its owner by exactly its credits. */
  lemma InstantPaymentCredits(s: Store, id: string, userId: string, amount: int, credits: int,
                              transactionId: Option<string>, now: int)
    requires UserIndex(s.users, userId).Some?
    ensures var bought := Purchase(s, id, userId, amount, credits, RAZORPAY, transactionId, now);
      var k := UserIndex(s.users, userId).value;
      && bought.result.Ok? && bought.result.value.status == SUCCESS
      && |bought.store.users| == |s.users|
      && bought.store.users[k].credits == s.users[k].credits + credits
  {
  }

  // --- Revenue ---

  /** Summing the amounts of two journals laid end to end. */
  lemma {:induction false} SumAmountsConcat(a: seq<Payment>, b: seq<Payment>)
    ensures SumAmounts(a + b) == SumAmounts(a) + SumAmounts(b)
  {
    if |b| == 0 {
      assert a + b == a;
    } else {
      assert (a + b)[..|a + b| - 1] == a + b[..|b| - 1];
      SumAmountsConcat(a, b[..|b| - 1]);
    }
  }

  /** Appending a record adds its amount to the revenue exactly when it is settled. */
  lemma RevenueAppend(ps: seq<Payment>, p: Payment)
    ensures Revenue(ps + [p]) == Revenue(ps) + (if p.status == SUCCESS then p.amount else 0)
  {
    FilterConcat(ps, [p], IsSettled);
    SumAmountsConcat(Settled(ps), Settled([p]));
  }

  /** Settling one unsettled record adds its amount to the revenue. */
  lemma RevenueSettle(ps: seq<Payment>, i: nat)
    requires i < |ps| && ps[i].status != SUCCESS
    ensures Revenue(ps[i := ps[i].(status := SUCCESS)]) == Revenue(ps) + ps[i].amount
  {
    var q := ps[i].(status := SUCCESS);
    var before, after := ps[..i], ps[i + 1..];
    assert ps == before + [ps[i]] + after;
    assert ps[i := q] == before + [q] + after;
    FilterConcat(before + [ps[i]], after, IsSettled);
    FilterConcat(before, [ps[i]], IsSettled);
    FilterConcat(before + [q], after, IsSettled);
    FilterConcat(before, [q], IsSettled);
    SumAmountsConcat(Settled(before) + Settled([q]), Settled(after));
    SumAmountsConcat(Settled(before), Settled([q]));
    SumAmountsConcat(Settled(before) + Settled([ps[i]]), Settled(after));
    SumAmountsConcat(Settled(before), Settled([ps[i]]));
  }

  /** A purchase adds its amount to the revenue exactly when it is a
      gateway payment, whether or not the owner could be credited. */
  lemma RevenueAfterPurchase(s: Store, id: string, userId: string, amount: int, credits: int,
                             paymentMethod: PaymentMethod, transactionId: Option<string>, now: int)
    ensures Revenue(Purchase(s, id, userId, amount, credits, paymentMethod, transactionId, now).store.payments)
         == Revenue(s.payments) + (if paymentMethod == RAZORPAY then amount else 0)
  {
    RevenueAppend(s.payments, NewPayment(id, userId, amount, credits, paymentMethod, transactionId, now));
  }

  /** An approval adds the payment's amount to the revenue once, when it
      settles a payment that was not settled, and nothing otherwise. */
  lemma RevenueAfterApprove(s: Store, paymentId: string)
    ensures var f := PaymentIndex(s.payments, paymentId);
      Revenue(Approve(s, paymentId).store.payments)
      == Revenue(s.payments) + (if f.Some? && s.payments[f.value].status != SUCCESS then s.payments[f.value].amount else 0)
  {
    var f := PaymentIndex(s.payments, paymentId);
    if f.Some? && s.payments[f.value].status != SUCCESS {
      RevenueSettle(s.payments, f.value);
    }
  }

  /** A sum of non-negative amounts is non-negative. */
  lemma {:induction false} SumAmountsNonNegative(ps: seq<Payment>)
    requires forall i :: 0 <= i < |ps| ==> ps[i].amount >= 0
    ensures SumAmounts(ps) >= 0
  {
    if |ps| > 0 {
      SumAmountsNonNegative(ps[..|ps| - 1]);
    }
  }

  /** Revenue is never negative when no payment has a negative amount. */
  lemma RevenueNonNegative(ps: seq<Payment>)
    requires forall i :: 0 <= i < |ps| ==> ps[i].amount >= 0
    ensures Revenue(ps) >= 0
  {
    var settled := Settled(ps);
    forall i | 0 <= i < |settled|
      ensures settled[i].amount >= 0
    {
      assert settled[i] in ps;
    }
    SumAmountsNonNegative(settled);
  }

  // --- Generation log ---

  /** After an image is saved, its owner's history starts with it and
      continues with the earlier history; everyone else's is unchanged. */
  lemma UserImagesAfterLogImage(s: Store, id: string, userId: string, prompt: string, imageUrl: string,
                                model: string, size: string, now: int, viewer: string)
    ensures var r := LogImage(s, id, userId, prompt, imageUrl, model, size, now);
      UserImages(r.store.images, viewer)
      == if viewer == userId then [r.result.value] + UserImages(s.images, viewer) else UserImages(s.images, viewer)
  {
  }

  /** Saving an image adds one image and one image's cost to the analytics,
      and leaves the user count and the revenue alone. */
  lemma AnalyticsAfterLogImage(s: Store, id: string, userId: string, prompt: string, imageUrl: string,
                               model: string, size: string, now: int)
    ensures var before := GetAnalytics(s);
      var after := GetAnalytics(LogImage(s, id, userId, prompt, imageUrl, model, size, now).store);
      && after.totalImages == before.totalImages + 1
      && after.creditsConsumed == before.creditsConsumed + IMAGE_COST
      && after.totalUsers == before.totalUsers
      && after.totalRevenue == before.totalRevenue
  {
  }

  // --- Worked scenarios ---

  /** Alice registers with the initial 25 credits, spends 2, and a further
      debit of 30 is refused with her balance still at 23. */
  lemma RegisterAndDebitScenario()
    ensures var reg := Register(Store([], [], [], None), "u1", "a@x.com", "pw", "Alice", 0);
      var spend := UpdateCredits(reg.store, "u1", 2, Subtract);
      var overdraw := UpdateCredits(spend.store, "u1", 30, Subtract);
      && reg.result.Ok? && reg.result.value.credits == 25 && reg.result.value.role == USER
      && spend.result.Ok? && spend.result.value.credits == 23
      && overdraw == Step(spend.store, Err(InsufficientCredits))
  {
  }

  /** A manual payment for the Pro plan stays pending with the balance
      unchanged; the first approval credits 150, the second nothing. */
  lemma ManualSettlementScenario(alice: User)
    requires alice.id == "u1" && alice.credits == 25
    ensures var pro := PLANS[1];
      var bought := Purchase(Store([alice], [], [], None), "p1", "u1", pro.price, pro.credits, UPI_MANUAL, None, 0);
      var once := Approve(bought.store, "p1");
      var twice := Approve(once.store, "p1");
      && bought.result.Ok? && bought.result.value.status == PENDING && bought.store.users[0].credits == 25
      && once.result == Ok(()) && once.store.payments[0].status == SUCCESS && once.store.users[0].credits == 175
      && twice == Step(once.store, Ok(()))
  {
  }

  /** One gateway payment of 79 and one approved manual payment of 199,
      with three images logged: revenue 278, six credits consumed. */
  lemma AnalyticsScenario(alice: User, img1: ImageGeneration, img2: ImageGeneration, img3: ImageGeneration)
    requires alice.id == "u1"
    ensures var s0 := Store([alice], [], [img1, img2, img3], None);
      var basic := Purchase(s0, "p1", "u1", PLANS[0].price, PLANS[0].credits, RAZORPAY, None, 0);
      var pro := Purchase(basic.store, "p2", "u1", PLANS[1].price, PLANS[1].credits, UPI_MANUAL, None, 1);
      var approved := Approve(pro.store, "p2");
      var summary := GetAnalytics(approved.store);
      && summary.totalRevenue == 278
      && summary.creditsConsumed == 6
      && summary.totalUsers == 1
  {
    var s0 := Store([alice], [], [img1, img2, img3], None);
    var basic := Purchase(s0, "p1", "u1", PLANS[0].price, PLANS[0].credits, RAZORPAY, None, 0);
    var pro := Purchase(basic.store, "p2", "u1", PLANS[1].price, PLANS[1].credits, UPI_MANUAL, None, 1);
    RevenueAfterPurchase(s0, "p1", "u1", PLANS[0].price, PLANS[0].credits, RAZORPAY, None, 0);
    RevenueAfterPurchase(basic.store, "p2", "u1", PLANS[1].price, PLANS[1].credits, UPI_MANUAL, None, 1);
    RevenueAfterApprove(pro.store, "p2");
    assert Settled([]) == [];
    assert pro.store.payments[1].id == "p2" && pro.store.payments[0].id == "p1";
    assert PaymentIndex(pro.store.payments, "p2") == Some(1);
  }
}
