/** Records, enumerations and constants of the image-generation SaaS demo:
    the account, payment and generation records the mock backend keeps in
    its three stores, and the fixed numbers the ledger uses. */
module Types {

  datatype Option<T> = None | Some(value: T)

  /** The failures the mock backend raises, one per `throw new Error(...)`. */
  datatype Error =
    | UserAlreadyExists
    | InvalidCredentials
    | UserNotFound
    | InsufficientCredits
    | PaymentNotFound

  /** A call either returns its value or throws one of the errors above. */
  datatype Result<T> = Ok(value: T) | Err(error: Error)

  /** The message text each error is thrown with. */
  function Message(e: Error): string
  {
    match e
    case UserAlreadyExists => "User already exists"
    case InvalidCredentials => "Invalid credentials"
    case UserNotFound => "User not found"
    case InsufficientCredits => "Insufficient credits"
    case PaymentNotFound => "Payment not found"
  }

  datatype UserRole = USER | ADMIN

  datatype PaymentStatus = PENDING | SUCCESS | FAILED

  datatype PaymentMethod = RAZORPAY | UPI_MANUAL

  /** The two directions of a credit adjustment. */
  datatype CreditOp = Add | Subtract

  /** A stored account. The password travels on the same record, as the
      backend attaches it to the user object before saving it. */
  datatype User = User(
    id: string,
    email: string,
    name: string,
    credits: int,
    role: UserRole,
    createdAt: int,
    password: string)

  /** A purchase attempt. `transactionId` is always set by the backend
      (empty when the caller gave none). */
  datatype Payment = Payment(
    id: string,
    userId: string,
    amount: int,
    credits: int,
    paymentMethod: PaymentMethod,  // `method` in the source, a reserved word here
    status: PaymentStatus,
    transactionId: string,
    createdAt: int)

  /** One completed image generation. */
  datatype ImageGeneration = ImageGeneration(
    id: string,
    userId: string,
    prompt: string,
    imageUrl: string,
    createdAt: int,
    model: string,
    size: string)

  /** A credit pack offered for sale: `price` is the payment amount. */
  datatype Plan = Plan(id: string, name: string, credits: int, price: int, description: string)

  const ADMIN_EMAIL: string := "admin@dipakdigital.ai"

  const PLANS: seq<Plan> := [
    Plan("basic", "Basic", 50, 79, "Perfect for starters"),
    Plan("pro", "Pro", 150, 199, "Best value for creators"),
    Plan("premium", "Premium", 500, 499, "For power users and businesses")
  ]

  /** Credits one image generation costs. */
  const IMAGE_COST: int := 2

  /** Credits every new account starts with. */
  const INITIAL_CREDITS: int := 25
}
