/** The records and enumerations of the yield dashboard.
    Monetary amounts are whole cents of USDT (the application keeps them in a
    JavaScript number; here they are exact integers). Interest rates are in
    hundredths of a percent per day. Optional fields are `Option`s. */
module Types {

  datatype Option<+T> = None | Some(value: T)

  datatype UserRole = ADMIN | USER

  datatype TransactionStatus = PENDING | APPROVED | REJECTED | COMPLETED

  datatype TransactionType = DEPOSIT | WITHDRAWAL | INTEREST | REFERRAL_COMMISSION | PLAN_PURCHASE

  datatype Network = BEP20 | TRC20

  /** A purchasable plan of the catalogue. */
  datatype InvestmentPlan = InvestmentPlan(
    id: string,
    name: string,
    price: int,
    dailyInterestRate: int,
    durationDays: int,
    totalProfit: int,
    active: bool)

  /** One entry of the activity history. */
  datatype Transaction = Transaction(
    id: string,
    userId: string,
    date: string,
    kind: TransactionType,
    amount: int,
    network: Option<Network>,
    status: TransactionStatus,
    txid: Option<string>,
    address: Option<string>,
    fee: Option<int>,
    notes: Option<string>)

  /** The signed-in account as the dashboard sees it. */
  datatype UserProfile = UserProfile(
    id: string,
    username: string,
    role: UserRole,
    balance: int,
    lockedBalance: int,
    withdrawableAmount: int,
    referralCode: string,
    referredBy: Option<string>)

  /** Funds held by a profile: spendable plus committed to plans. */
  function Holdings(p: UserProfile): int {
    p.balance + p.lockedBalance
  }

  /** Every field of the profile except the two balances is the same. */
  predicate SameIdentity(p: UserProfile, q: UserProfile) {
    && p.id == q.id
    && p.username == q.username
    && p.role == q.role
    && p.withdrawableAmount == q.withdrawableAmount
    && p.referralCode == q.referralCode
    && p.referredBy == q.referredBy
  }

  /** The role the role switch moves to. */
  function Other(r: UserRole): (o: UserRole)
    ensures o != r
  {
    match r
    case USER => ADMIN
    case ADMIN => USER
  }
}
