/** The mock backend: the identity store, the credit ledger, the payment
    journal and the generation log, with the read-side analytics.

    Each operation is first given as a pure transition from one `Store`
    (the three collections and the session pointer) to the next, together
    with what it returns or throws; the class `Backend` then holds the
    stores as fields and performs the same operations in place, each method
    proved to leave exactly the state its transition describes. */
module MockBackend {
  import opened Types
  import opened Arrays

  /** Everything the backend persists: registered users, the payment
      journal, the image log (newest first) and the session copy of the
      signed-in user, if any. */
  datatype Store = Store(
    users: seq<User>,
    payments: seq<Payment>,
    images: seq<ImageGeneration>,
    session: Option<User>)

  /** The store an operation leaves behind and what it returns or throws. */
  datatype Step<T> = Step(store: Store, result: Result<T>)

  // --- Lookups ---

  /** `users.findIndex(u => u.id === userId)`. */
  function UserIndex(users: seq<User>, userId: string): (r: Option<nat>)
    ensures r.Some? ==> r.value < |users| && users[r.value].id == userId
    ensures r.Some? ==> forall j :: 0 <= j < r.value ==> users[j].id != userId
    ensures r.None? <==> forall j :: 0 <= j < |users| ==> users[j].id != userId
  {
    FindIndex(users, (u: User) => u.id == userId)
  }

  /** `payments.findIndex(p => p.id === paymentId)`. */
  function PaymentIndex(payments: seq<Payment>, paymentId: string): (r: Option<nat>)
    ensures r.Some? ==> r.value < |payments| && payments[r.value].id == paymentId
    ensures r.Some? ==> forall j :: 0 <= j < r.value ==> payments[j].id != paymentId
    ensures r.None? <==> forall j :: 0 <= j < |payments| ==> payments[j].id != paymentId
  {
    FindIndex(payments, (p: Payment) => p.id == paymentId)
  }

  /** Whether `users.find(u => u.email === email)` finds anyone. */
  predicate EmailTaken(users: seq<User>, email: string)
  {
    Find(users, (u: User) => u.email == email).Some?
  }

  // --- Identity ---

  /** `registerUser`: refuses an email already on file; otherwise appends a
      user with the initial credits, the admin role exactly for the admin
      address, and the password kept on the record. */
  function Register(s: Store, id: string, email: string, password: string, name: string, now: int): (r: Step<User>)
    ensures r.result.Err? <==> exists j :: 0 <= j < |s.users| && s.users[j].email == email
    ensures r.result.Err? ==> r == Step(s, Err(UserAlreadyExists))
    ensures r.result.Ok? ==> r.store == s.(users := s.users + [r.result.value])
    ensures r.result.Ok? ==>
      var u := r.result.value;
      && u.id == id && u.email == email && u.name == name && u.password == password
      && u.credits == INITIAL_CREDITS && u.createdAt == now
      && (u.role == ADMIN <==> email == ADMIN_EMAIL)
  {
    if EmailTaken(s.users, email) then Step(s, Err(UserAlreadyExists))
    else
      var u := User(id, email, name, INITIAL_CREDITS, if email == ADMIN_EMAIL then ADMIN else USER, now, password);
      Step(s.(users := s.users + [u]), Ok(u))
  }

  /** `loginUser`: the first user whose email and password both match
      exactly; "Invalid credentials" when there is none. */
  function Login(users: seq<User>, email: string, password: string): (r: Result<User>)
    ensures r.Ok? <==> exists j :: 0 <= j < |users| && users[j].email == email && users[j].password == password
    ensures r.Ok? ==> r.value in users && r.value.email == email && r.value.password == password
    ensures r.Ok? ==>
      exists j :: 0 <= j < |users| && users[j] == r.value &&
        forall i :: 0 <= i < j ==> !(users[i].email == email && users[i].password == password)
    ensures r.Err? ==> r.error == InvalidCredentials
  {
    match Find(users, (u: User) => u.email == email && u.password == password)
    case None => Err(InvalidCredentials)
    case Some(u) => Ok(u)
  }

  // --- Credit ledger ---

  /** The signed change a credit operation makes to a balance. */
  function Delta(op: CreditOp, amount: int): int
  {
    match op
    case Add => amount
    case Subtract => -amount
  }

  /** The session after user `u`'s balance changed: the session copy takes
      the new balance when it is the same user, and is untouched otherwise. */
  function SyncSession(session: Option<User>, u: User): (r: Option<User>)
    ensures r.Some? <==> session.Some?
    ensures session.Some? && session.value.id == u.id ==> r.value == session.value.(credits := u.credits)
    ensures session.Some? && session.value.id != u.id ==> r == session
  {
    if session.Some? && session.value.id == u.id then Some(session.value.(credits := u.credits))
    else session
  }

  /** `updateUserCredits`: fails on an unknown id and on a subtraction larger
      than the balance, leaving the store as it was; otherwise moves the
      first user with that id by exactly `amount` in the direction of `op`,
      refreshes the session copy, and returns the updated user. */
  function UpdateCredits(s: Store, userId: string, amount: int, op: CreditOp): (r: Step<User>)
    ensures UserIndex(s.users, userId).None? ==> r == Step(s, Err(UserNotFound))
    ensures UserIndex(s.users, userId).Some? ==>
      var k := UserIndex(s.users, userId).value;
      (r.result.Ok? <==> op == Add || s.users[k].credits >= amount)
    ensures r.result.Err? ==> r.store == s
    ensures r.result.Err? && UserIndex(s.users, userId).Some? ==> r.result.error == InsufficientCredits
    ensures r.result.Ok? ==>
      var k := UserIndex(s.users, userId).value;
      && r.result.value == s.users[k].(credits := s.users[k].credits + Delta(op, amount))
      && r.store.users == s.users[k := r.result.value]
      && r.store.payments == s.payments
      && r.store.images == s.images
      && r.store.session == SyncSession(s.session, r.result.value)
    ensures r.result.Ok? && op == Subtract ==> r.result.value.credits >= 0
  {
    match UserIndex(s.users, userId)
    case None => Step(s, Err(UserNotFound))
    case Some(k) =>
      if op == Subtract && s.users[k].credits < amount then Step(s, Err(InsufficientCredits))
      else
        var u := s.users[k].(credits := s.users[k].credits + Delta(op, amount));
        Step(s.(users := s.users[k := u], session := SyncSession(s.session, u)), Ok(u))
  }

  // --- Payment journal ---

  /** The record `createPayment` builds: settled at once for the gateway,
      pending otherwise, with an empty transaction id when none was given. */
  function NewPayment(id: string, userId: string, amount: int, credits: int, paymentMethod: PaymentMethod,
                      transactionId: Option<string>, now: int): (p: Payment)
    ensures p.status == SUCCESS <==> paymentMethod == RAZORPAY
    ensures p.status == PENDING <==> paymentMethod == UPI_MANUAL
    ensures transactionId.None? ==> p.transactionId == ""
    ensures transactionId.Some? ==> p.transactionId == transactionId.value
    ensures p.id == id && p.userId == userId && p.amount == amount && p.credits == credits
    ensures p.paymentMethod == paymentMethod && p.createdAt == now
  {
    Payment(id, userId, amount, credits, paymentMethod,
            if paymentMethod == RAZORPAY then SUCCESS else PENDING,
            match transactionId case None => "" case Some(t) => t,
            now)
  }

  /** `createPayment`: appends the new record, then credits its owner when
      it was settled at once. The record is saved before the credit, so a
      settled payment for an unknown user stays in the journal while the
      call fails with "User not found". */
  function Purchase(s: Store, id: string, userId: string, amount: int, credits: int, paymentMethod: PaymentMethod,
                         transactionId: Option<string>, now: int): (r: Step<Payment>)
    ensures var p := NewPayment(id, userId, amount, credits, paymentMethod, transactionId, now);
      && r.store.payments == s.payments + [p]
      && r.store.images == s.images
      && (r.result.Ok? ==> r.result.value == p)
    ensures paymentMethod == UPI_MANUAL ==> r.result.Ok? && r.store.users == s.users && r.store.session == s.session
    ensures paymentMethod == RAZORPAY && UserIndex(s.users, userId).None? ==>
      r.result == Err(UserNotFound) && r.store.users == s.users && r.store.session == s.session
    ensures paymentMethod == RAZORPAY && UserIndex(s.users, userId).Some? ==>
      var k := UserIndex(s.users, userId).value;
      var u := s.users[k].(credits := s.users[k].credits + credits);
      && r.result.Ok?
      && r.store.users == s.users[k := u]
      && r.store.session == SyncSession(s.session, u)
  {
    var p := NewPayment(id, userId, amount, credits, paymentMethod, transactionId, now);
    var s1 := s.(payments := s.payments + [p]);
    if p.status == SUCCESS then
      var c := UpdateCredits(s1, userId, credits, Add);
      match c.result
      case Ok(_) => Step(c.store, Ok(p))
      case Err(e) => Step(c.store, Err(e))
    else Step(s1, Ok(p))
  }

  /** `approvePayment`: fails on an unknown id; does nothing to a payment
      that already succeeded; otherwise marks that one record SUCCESS and
      credits its owner by the record's credits. As in `createPayment`, the
      new status is saved before the credit is attempted. */
  function Approve(s: Store, paymentId: string): (r: Step<()>)
    ensures PaymentIndex(s.payments, paymentId).None? ==> r == Step(s, Err(PaymentNotFound))
    ensures PaymentIndex(s.payments, paymentId).Some? &&
            s.payments[PaymentIndex(s.payments, paymentId).value].status == SUCCESS ==>
      r == Step(s, Ok(()))
    ensures PaymentIndex(s.payments, paymentId).Some? &&
            s.payments[PaymentIndex(s.payments, paymentId).value].status != SUCCESS ==>
      var i := PaymentIndex(s.payments, paymentId).value;
      var p := s.payments[i];
      && r.store.payments == s.payments[i := p.(status := SUCCESS)]
      && r.store.images == s.images
      && (UserIndex(s.users, p.userId).None? ==>
            r.result == Err(UserNotFound) && r.store.users == s.users && r.store.session == s.session)
      && (UserIndex(s.users, p.userId).Some? ==>
            var k := UserIndex(s.users, p.userId).value;
            var u := s.users[k].(credits := s.users[k].credits + p.credits);
            r.result == Ok(()) && r.store.users == s.users[k := u] && r.store.session == SyncSession(s.session, u))
  {
    match PaymentIndex(s.payments, paymentId)
    case None => Step(s, Err(PaymentNotFound))
    case Some(i) =>
      var p := s.payments[i];
      if p.status == SUCCESS then Step(s, Ok(()))
      else
        var s1 := s.(payments := s.payments[i := p.(status := SUCCESS)]);
        var c := UpdateCredits(s1, p.userId, p.credits, Add);
        match c.result
        case Ok(_) => Step(c.store, Ok(()))
        case Err(e) => Step(c.store, Err(e))
  }

  // --- Generation log ---

  /** `saveImage`: puts the new record in front of the log. */
  function LogImage(s: Store, id: string, userId: string, prompt: string, imageUrl: string,
                     model: string, size: string, now: int): (r: Step<ImageGeneration>)
    ensures r.result.Ok?
    ensures r.result.value == ImageGeneration(id, userId, prompt, imageUrl, now, model, size)
    ensures |r.store.images| == |s.images| + 1
    ensures r.store.images[0] == r.result.value && r.store.images[1..] == s.images
    ensures r.store.users == s.users && r.store.payments == s.payments && r.store.session == s.session
  {
    var img := ImageGeneration(id, userId, prompt, imageUrl, now, model, size);
    Step(s.(images := [img] + s.images), Ok(img))
  }

  // --- Read-side projections ---

  /** The test `getUserImages` filters with. */
  function OwnedBy(userId: string): ImageGeneration -> bool
  {
    (img: ImageGeneration) => img.userId == userId
  }

  /** `getUserImages`: the images of one user, in log order. */
  function UserImages(images: seq<ImageGeneration>, userId: string): (r: seq<ImageGeneration>)
    ensures forall i :: 0 <= i < |r| ==> r[i].userId == userId && r[i] in images
    ensures forall j :: 0 <= j < |images| && images[j].userId == userId ==> images[j] in r
  {
    Filter(images, OwnedBy(userId))
  }

  /** The left-to-right sum of the amounts, as `reduce((acc, p) => acc + p.amount, 0)`. */
  function SumAmounts(ps: seq<Payment>): int
  {
    if |ps| == 0 then 0 else SumAmounts(ps[..|ps| - 1]) + ps[|ps| - 1].amount
  }

  /** The test `getAnalytics` filters the journal with. */
  predicate IsSettled(p: Payment)
  {
    p.status == SUCCESS
  }

  /** The payments that have been settled. */
  function Settled(payments: seq<Payment>): seq<Payment>
  {
    Filter(payments, IsSettled)
  }

  /** Total revenue: the amounts of the settled payments, summed. */
  function Revenue(payments: seq<Payment>): int
  {
    SumAmounts(Settled(payments))
  }

  datatype Analytics = Analytics(totalUsers: nat, totalImages: nat, totalRevenue: int, creditsConsumed: int)

  /** `getAnalytics`: counts the users and the images, sums the settled
      revenue, and charges every image at two credits. */
  function GetAnalytics(s: Store): (r: Analytics)
    ensures r.totalUsers == |s.users| && r.totalImages == |s.images|
    ensures r.totalRevenue == Revenue(s.payments)
    ensures r.creditsConsumed == IMAGE_COST * r.totalImages
  {
    var totalImages := |s.images|;
    Analytics(|s.users|, totalImages, Revenue(s.payments), totalImages * 2)
  }

  // --- The stores, updated in place ---

  /** The backend with its stores as mutable fields. Every mutator changes
      the fields exactly as the matching transition above prescribes. */
  class Backend {
    var users: seq<User>
    var payments: seq<Payment>
    var images: seq<ImageGeneration>
    var session: Option<User>

    /** The stores as one value. */
    function State(): Store
      reads this
    {
      Store(users, payments, images, session)
    }

    /** Opens the backend on whatever the stores currently hold. */
    constructor (users0: seq<User>, payments0: seq<Payment>, images0: seq<ImageGeneration>, session0: Option<User>)
      ensures State() == Store(users0, payments0, images0, session0)
    {
      users, payments, images, session := users0, payments0, images0, session0;
    }

    method RegisterUser(id: string, email: string, password: string, name: string, now: int)
      returns (r: Result<User>)
      modifies this
      ensures Step(State(), r) == Register(old(State()), id, email, password, name, now)
    {
      if EmailTaken(users, email) {
        return Err(UserAlreadyExists);
      }
      var role := if email == ADMIN_EMAIL then ADMIN else USER;
      var newUser := User(id, email, name, INITIAL_CREDITS, role, now, password);
      users := users + [newUser];
      r := Ok(newUser);
    }

    method UpdateUserCredits(userId: string, amount: int, op: CreditOp) returns (r: Result<User>)
      modifies this
      ensures Step(State(), r) == UpdateCredits(old(State()), userId, amount, op)
    {
      var found := UserIndex(users, userId);
      if found.None? {
        return Err(UserNotFound);
      }
      var k := found.value;
      if op == Add {
        users := users[k := users[k].(credits := users[k].credits + amount)];
      } else {
        if users[k].credits < amount {
          return Err(InsufficientCredits);
        }
        users := users[k := users[k].(credits := users[k].credits - amount)];
      }
      if session.Some? && session.value.id == userId {
        session := Some(session.value.(credits := users[k].credits));
      }
      r := Ok(users[k]);
    }

    method CreatePayment(id: string, userId: string, amount: int, credits: int, paymentMethod: PaymentMethod,
                         transactionId: Option<string>, now: int) returns (r: Result<Payment>)
      modifies this
      ensures Step(State(), r) == Purchase(old(State()), id, userId, amount, credits, paymentMethod, transactionId, now)
    {
      var status := if paymentMethod == RAZORPAY then SUCCESS else PENDING;
      var txn := if transactionId.Some? then transactionId.value else "";
      var newPayment := Payment(id, userId, amount, credits, paymentMethod, status, txn, now);
      payments := payments + [newPayment];
      r := Ok(newPayment);
      if status == SUCCESS {
        var c := UpdateUserCredits(userId, credits, Add);
        if c.Err? {
          r := Err(c.error);
        }
      }
    }

    method ApprovePayment(paymentId: string) returns (r: Result<()>)
      modifies this
      ensures Step(State(), r) == Approve(old(State()), paymentId)
    {
      var found := PaymentIndex(payments, paymentId);
      if found.None? {
        return Err(PaymentNotFound);
      }
      var i := found.value;
      var payment := payments[i];
      if payment.status == SUCCESS {
        return Ok(());
      }
      payment := payment.(status := SUCCESS);
      payments := payments[i := payment];
      r := Ok(());
      var c := UpdateUserCredits(payment.userId, payment.credits, Add);
      if c.Err? {
        r := Err(c.error);
      }
    }

    method SaveImage(id: string, userId: string, prompt: string, imageUrl: string,
                     model: string, size: string, now: int) returns (newImage: ImageGeneration)
      modifies this
      ensures Step(State(), Ok(newImage)) == LogImage(old(State()), id, userId, prompt, imageUrl, model, size, now)
    {
      newImage := ImageGeneration(id, userId, prompt, imageUrl, now, model, size);
      images := [newImage] + images;
    }
  }
}
