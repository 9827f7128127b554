# USDT yield dashboard — state machine model

The dashboard's root component (`App.tsx`) keeps one state record:
the current role (USER or ADMIN), the open tab, the plan catalogue, the
signed-in profile and the transaction history. Two handlers change it.
The purchase handler checks the balance against the plan price. On success
it moves the price from the spendable balance to the locked balance and
puts a completed `PLAN_PURCHASE` record at the head of the history. The
role switch flips the role, installs the fixed demonstration profile of
the new role and opens that role's home tab. The page also derives two
views from the state: the plans offered for purchase (the active ones)
and the recent-activity window (the first five transactions).

The model is written as pure functions over immutable datatypes:

- `types.dfy` (`Types`): plans, profiles, transactions and the role, type,
  status and network enumerations.
- `constants.dfy` (`Constants`): the initial catalogue, the two
  demonstration profiles and the demonstration history.
- `decimal.dfy` (`Decimal`): the decimal rendering of the millisecond
  clock that forms a purchase identifier, and its inverse.
- `date_format.dfy` (`DateFormat`): the purchase date, which is the ISO
  clock string with its first `T` replaced by a space, cut to 19 characters.
- `app.dfy` (`App`): the state record, the purchase handler, the role
  switch, tab navigation, the derived views, and runs of user-interface
  events with the invariants they keep.

Each state update is read as a plain replacement of the record, so
`handlePurchase` is one sequential step. Amounts are exact integers
counting cents of USDT: `1250.50` becomes `125050`. Daily interest rates
are integers counting hundredths of a percent: `1.5` becomes `150`. These
are abstractions of the JavaScript `number` the application uses. The
clock reading (`Date.now()`) and its ISO rendering (`new Date().toISOString()`)
are parameters of the purchase. The two `alert` messages become a `Notice`
returned with the new state.

A run applies a sequence of events: buy a plan, switch role, or open a tab.
A purchase button exists only on the plans page and only for offered plans.
A buy event in any other situation therefore leaves the state unchanged.

## Model

| member | source | states |
|---|---|---|
| App.Init | App.tsx:10-14 | the page starts in the user role with the user's demonstration profile (balance 1250.50, locked 600), on the dashboard page, with the whole three-plan catalogue on offer and the whole demonstration history in the activity window |
| Types.Other | App.tsx:51 | the role switch always lands on the other role |
| Constants.MockProfile | App.tsx:53 | the profile installed for a role carries that role, and its balance and locked balance are non-negative |
| Constants.CatalogueWellFormed | constants.ts:4-32 | every plan of the initial catalogue is active and has a positive price |
| Decimal.ToDecimal | App.tsx:33 | the clock reading is rendered as a non-empty digit string with no leading zero, and it is "0" exactly for zero |
| Decimal.ValueOfToDecimal | App.tsx:33 | reading the rendered digits back gives the clock reading |
| Decimal.ToDecimalOfValue | App.tsx:33 | every digit string without a leading zero is the rendering of the number it denotes, so the rendering is a bijection onto such strings |
| Decimal.ToDecimalInjective | App.tsx:33 | different clock readings render differently |
| App.PurchaseTxId | App.tsx:33 | a purchase identifier is `tx-` followed by the canonical digits of the clock reading |
| App.PurchaseTxIdInjective | App.tsx:33 | purchases at different milliseconds get different identifiers |
| DateFormat.ReplaceFirst | App.tsx:35 | only the first occurrence of the pattern character is replaced, and a string without it is returned unchanged |
| DateFormat.Prefix | App.tsx:35 | `substring(0, n)` is a prefix of length n, or the whole string when it is shorter |
| DateFormat.FormatDate | App.tsx:35 | the purchase date has at most 19 characters and is a prefix of the clock string when that has no `T` |
| DateFormat.FormatIsoTimestamp | App.tsx:35 | an ISO timestamp becomes `YYYY-MM-DD HH:MM:SS`: its date, a space, and its time to the second, the same shape as the demonstration history's dates |
| App.PurchaseRecord | App.tsx:32-39 | the new record belongs to the profile's id, is a completed plan purchase for the plan's price, carries the clock-derived id and date, and has no network, hash, address, fee or notes |
| App.Purchase | App.tsx:26-48 | the purchase is refused exactly when the balance is below the price (so an equal balance buys) and a refusal changes nothing; a purchase lowers the balance and raises the locked balance by exactly the price and puts exactly one record in front of the unchanged history; balance plus locked balance is conserved and a non-negative balance stays non-negative in both cases; no other profile field, nor the role, tab or catalogue, changes |
| App.ToggleRole | App.tsx:50-55 | the role flips; becoming ADMIN installs the admin profile and the admin overview tab, becoming USER installs the user profile and the dashboard tab; history and catalogue are kept |
| App.ToggleTwice | App.tsx:50-55 | switching twice restores the role, history and catalogue, but the profile becomes the fixed one for that role |
| App.PurchaseThenToggleTwiceDiscardsBalance | App.tsx:26-55 | from the initial state a starter-plan purchase lowers the balance to 1150.50, and two switches bring it back to 1250.50 while the purchase record stays at the head of the four-entry history |
| App.Navigate | App.tsx:144 | opening a tab changes only the open tab |
| App.ContentFor | App.tsx:284-297 | the dashboard, plans and admin-overview tabs each show their own page and only that tab shows it; every other tab shows the placeholder page |
| App.ActivePlans | App.tsx:181 | a plan is offered exactly when it is in the catalogue and active |
| App.ActivePlansAppend | App.tsx:181 | the offer keeps catalogue order: offering a concatenation is offering each part in turn |
| App.ActivePlansAllActive | App.tsx:181 | a catalogue whose plans are all active is offered whole and in order |
| App.ActivePlansIdempotent | App.tsx:181 | filtering the offer again changes nothing |
| App.InitialOffer | App.tsx:181 | initially the whole catalogue is offered |
| App.RecentActivity | App.tsx:157 | the window holds the first min(5, n) transactions, in order |
| App.RecentActivityAfterPurchase | App.tsx:157 | after a purchase the new record is shown first, followed by the first entries that were shown before |
| App.Enabled | App.tsx:179-211 | a purchase can only be started from a plan's button, which exists only when the plans page is shown and only for active catalogue plans; switching role and opening a tab are always possible. This over-approximates the source: an ADMIN can open the plans tab here, while the admin menu has no such tab |
| App.Apply | App.tsx:26-55 | one event never changes the catalogue, adds at most one history entry, changes the role exactly when it is a role switch, and a purchase that cannot be started changes nothing |
| App.Run | App.tsx:10-55 | a sequence of events adds at most one history entry per event |
| App.InitValid | App.tsx:10-14 | the initial state has non-negative balances, a profile matching the role, and no negative price |
| App.ApplyValid | App.tsx:26-55 | every user-interface event keeps those properties |
| App.RunValid | App.tsx:26-55 | any sequence of events keeps those properties |
| App.ReachableValid | App.tsx:10-55 | every reachable state has a non-negative balance and locked balance and a profile of the current role |
| App.RunKeepsPlans | App.tsx:12 | the catalogue never changes, because no handler replaces it |
| App.ApplyKeepsHistory | App.tsx:41 | one event adds at most one entry to the history, and only at its head |
| App.RunKeepsHistory | App.tsx:41 | the history only grows at its head: the earlier history is always its suffix, even across role switches |
| App.RunConservesHoldings | App.tsx:42-46 | in a run without role switches, balance plus locked balance never changes |

## Left out

- Deposits, withdrawals, admin approval or rejection, referral commission
  fan-out, interest accrual and plan editing: the source has no handlers
  for them, so there is no behaviour to model.
- `ReferralConfig`, `ReferralCommission`, `ReferralUser` and `UserPlan`:
  declared types that no code uses.
- The asynchronous advice request (`App.tsx:18-24`) and the advice service
  (`services/geminiService.ts`): network I/O to an external model. Its only
  local logic, a fixed fallback text on failure, is plumbing.
- The `showModal` state: it is declared and never set.
- Rendering: the navigation layout (`components/Layout.tsx`), charts, the
  hard-coded statistics and the decorative configuration and referral-tier
  panels. The menu lists of the layout are not modelled, so `Navigate`
  accepts any tab name.
- App.Enabled: an ADMIN may open the plans tab and buy, which the admin
  menu of the layout does not offer; the reachable states therefore include
  more than the source's, and every invariant proved over them still holds
  for the source.
- The `alert` pop-ups: modelled only as the returned `Notice`.
- Stale closures and update batching: the guard reads the rendered profile
  while the update goes through the latest one. The model makes both the
  same state, so one purchase is one step.
- Floating-point rounding of amounts such as 1250.50: the model uses exact
  integer cents.
- Consistency of `totalProfit` with price, rate and duration: it is fixed
  data that no code computes or checks.
- The clock: `Date.now()` and `toISOString()` are inputs. The reading is a
  natural number, so a clock set before 1970 (which would give an id such
  as `tx--5`) is not modelled. Extended-year ISO
  strings (years beyond 9999) are not covered by `DateFormat.FormatIsoTimestamp`.
  `Decimal.ToDecimal` renders every reading in plain digits; JavaScript
  switches to exponent notation from 10^21 on, far beyond any clock reading.
  Two purchases in the same millisecond get the same identifier; the model
  keeps that behaviour.
