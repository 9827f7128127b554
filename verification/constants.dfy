/** The fixed data the dashboard starts from: the plan catalogue, the two
    demonstration profiles and the demonstration history. */
module Constants {
  import opened Types

  const InitialPlans: seq<InvestmentPlan> := [
    InvestmentPlan("plan-1", "Starter Yield", 10000, 150, 30, 14500, true),
    InvestmentPlan("plan-2", "Pro Multiplier", 50000, 220, 45, 99500, true),
    InvestmentPlan("plan-3", "Elite Wealth", 250000, 350, 60, 775000, true)
  ]

  const MockUser: UserProfile :=
    UserProfile("user-1", "CryptoInvestor88", USER, 125050, 60000, 45025, "YIELD-9941", Some("admin"))

  const MockAdmin: UserProfile :=
    UserProfile("admin-1", "GlobalAdmin", ADMIN, 9999900, 0, 0, "ROOT-001", None)

  const MockTransactions: seq<Transaction> := [
    Transaction("tx-1", "user-1", "2024-05-15 14:30:22", DEPOSIT, 100000,
                Some(TRC20), COMPLETED, Some("TNVX...p7r2"), None, None, None),
    Transaction("tx-2", "user-1", "2024-05-16 09:00:00", PLAN_PURCHASE, 50000,
                None, COMPLETED, None, None, None, None),
    Transaction("tx-3", "user-1", "2024-05-17 00:05:00", INTEREST, 1100,
                None, COMPLETED, None, None, None, None)
  ]

  /** The fixed demonstration profile shown for a role. */
  function MockProfile(role: UserRole): (p: UserProfile)
    ensures p.role == role
    ensures p.balance >= 0 && p.lockedBalance >= 0
  {
    match role
    case ADMIN => MockAdmin
    case USER => MockUser
  }

  /** Every catalogue plan is on offer and costs a positive amount. */
  lemma CatalogueWellFormed()
    ensures forall p :: p in InitialPlans ==> p.active && p.price > 0
  {
  }
}
