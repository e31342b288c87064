# Hospital management dashboard — a verified model of its core

`app.py` is a Streamlit front end over one SQLite file. The model covers the parts of it
that carry logic:

- the **keyword query router** `ai_query`. It lower-cases the question and tests nine
  substring predicates in order. The first one that holds picks one fixed aggregate
  query. When none holds, it returns a fixed help string. Any exception becomes
  `"Error: ..."`.
- the **dashboard counters** `get_stats`: eleven COUNT/SUM queries over a snapshot.
- the **store**: ten tables kept as sequences inside the class `Hospital.Store`. It covers
  the guarded insert forms, the in-place `UPDATE ... WHERE id=?` handlers for bills, beds,
  ambulances, lab tests and inventory, and the seed step of `init_db`.

Modules:

| file | module | contents |
|---|---|---|
| `text.dfy` | `Text` | ASCII `str.lower`, Python `in` on strings, SQL `LIKE '%p%'` |
| `tally.dfy` | `Tally` | `COUNT(*) WHERE p` and `SUM(x) WHERE p` over a sequence of rows, with append/update lemmas |
| `tables.dfy` | `Tables` | the rows of the ten tables, foreign keys, and the status invariants of bills, beds and ambulances |
| `billing.dfy`, `beds.dfy`, `ambulance.dfy`, `lab_tests.dfy`, `inventory.dfy` | one per page | each insert and `UPDATE` as a function on its table, with lemmas about it |
| `stats.dfy` | `Stats` | `get_stats` and how each form moves the counters |
| `router.dfy` | `Router` | `ai_query` as a function from a question and a snapshot to an `Answer` |
| `seed.dfy` | `Seed` | the demonstration rows and the `departments`-is-empty guard |
| `store.dfy` | `Hospital` | `class Store`: the tables as fields, one method per form handler |

Design points:

- **Row identity.** Every table is `AUTOINCREMENT` and nothing is ever deleted, so row `k`
  (from 0) has id `k + 1`. An `UPDATE` whose id names no row changes nothing. It is not
  an error.
- **Foreign keys** are `Option<Id>`. A selectbox over an empty table yields `None`, and the
  form then stores NULL. The `Store` methods require each key to be NULL or to name an
  existing row, because the selectboxes list only existing rows.
- **Status invariants** (`Tables.WellFormed`) are what the handlers keep:
  - a bill is Paid exactly when it has a payment date;
  - a bed is Occupied exactly when it has an admission date, and an Available bed holds
    no patient;
  - an ambulance is Available exactly when pickup, destination and request time are all
    NULL, and an Available ambulance holds no patient.

  Every `Store` method preserves `Valid()`.
- **The router's answers** are values (`Router.Answer`), not formatted strings.
  `Router.FixedReply` gives the exact text of the replies that do not depend on
  formatting: the help string, the two "nothing found" messages and the error replies.
  Branches that raise are `Failed(NoRows)` (`iloc[0]` on an empty frame) or
  `Failed(NullAggregate)` (a NULL `AVG`/`SUM` passed to a numeric format).
- **NULL aggregates in the router.** Only `get_stats` applies `or 0` (app.py:285). The
  router formats a NULL `SUM` with `:,.0f`, which raises. So with no Paid bill
  (app.py:336-338) or no Pending bill (app.py:344-346) the router answers `"Error: ..."`
  while the dashboard shows 0. See `Router.FailsExactly` and
  `Router.RouterAgreesWithDashboard`.
- **Seeding** checks only `departments`. When that table is empty and others are not, the
  seed rows are appended after the existing rows. Their literal foreign keys 1..5 then
  name the existing rows, not the seeded ones. `Seed.SeedKeepsWellFormed` shows the store
  stays well formed all the same.

## Model

| member | source | states |
|---|---|---|
| Text.LowerChar | app.py:297 | the model's ASCII-only lowering of one character maps exactly `A`..`Z` to `a`..`z` and leaves every other character alone |
| Text.LowerHasNoUpper | app.py:297 | the lower-cased question contains no upper-case ASCII letter |
| Text.LowerIdempotent | app.py:297 | lower-casing twice is lower-casing once |
| Text.LowerOfLower | app.py:297 | a string with no upper-case letter is its own lower-cased form |
| Text.LowerPrefix | app.py:297 | lower-casing commutes with taking a prefix |
| Text.ContainsIff | app.py:300 | Python `t in s` holds exactly when some window of `s` equals `t` |
| Text.ContainsAt | app.py:300 | a window equal to `t` makes `t in s` true |
| Billing.CreateAppendsPending | app.py:760-761 | a new bill is the last row, Pending, with NULL payment date and the given patient, appointment and amount; earlier rows and the invariant are kept |
| Billing.CreateCounts | app.py:760-761 | a new bill adds one Pending bill and its amount to the pending total; Paid count and total are unchanged |
| Billing.PayTouchesOnlyThatBill | app.py:784-785 | paying sets Paid and today's date on that bill only; its patient, appointment and amount and every other row stay as they were; a missing id changes nothing |
| Billing.PayOfferedBill | app.py:772-785 | paying a bill the payment tab lists (Pending, with a joining patient) makes it Paid with today's date, drops it from that list, lowers the pending count by 1 and raises the Paid total by its amount |
| Billing.PayKeepsBillsOk | app.py:784-785 | paying keeps "Paid exactly when dated" for every bill |
| Billing.PayPendingBill | app.py:784-785 | paying a Pending bill lowers the pending count by 1 and the pending total by its amount, and raises the Paid count by 1 and paid revenue by its amount |
| Billing.PayPaidBill | app.py:784-785 | paying an already Paid bill moves no aggregate |
| Billing.NoPaidBillsNoRevenue | app.py:285 | with no Paid row the paid total is 0 |
| Billing.PaidAndPendingCoverAll | app.py:285-286 | the Paid and Pending counts add up to the number of bills |
| Beds.AddIsFresh | app.py:942-943 | a new bed is Available with NULL patient and date and adds one available bed |
| Beds.AdmitTouchesOnlyThatBed | app.py:969-970 | admit sets Occupied, the patient and the date on that bed whatever its prior state, keeps number and ward, and touches no other bed; the invariant is kept |
| Beds.DischargeTouchesOnlyThatBed | app.py:979 | discharge makes that bed exactly a fresh bed of the same number and ward and touches no other bed |
| Beds.DischargeUndoesAdmit | app.py:969-979 | discharge after admit equals discharge alone |
| Beds.FreshBedRoundTrip | app.py:942-979 | admit then discharge on a newly added bed restores the table as it was after the add |
| Beds.AdmitCounts | app.py:969-970 | admitting to an Available bed moves one bed from the available to the occupied counter; to an Occupied bed, moves none |
| Beds.DischargeCounts | app.py:979 | discharging an Occupied bed moves one bed back to the available counter; an Available one moves none |
| Beds.CountersCoverAllBeds | app.py:287-288 | available plus occupied beds is the number of beds |
| Ambulances.AddIsAvailable | app.py:1137-1138 | a new ambulance is Available with patient, pickup, destination and request time all NULL, and adds one available ambulance |
| Ambulances.DispatchTouchesOnlyThatAmbulance | app.py:1165-1166 | dispatch sets On Duty and the four dispatch fields on that ambulance only; On Duty ambulances stay On Duty; "Available exactly when the dispatch fields are NULL" is kept |
| Ambulances.DispatchCounts | app.py:1148-1166 | dispatching an ambulance the form offers (an Available one) takes one off the available counter |
| LabTests.OrderIsScheduled | app.py:1020-1021 | an ordered test is the last row, Scheduled, with NULL result, and adds one pending test |
| LabTests.RecordTouchesOnlyThatTest | app.py:1047 | recording sets result and status on that test only |
| LabTests.RecordCounts | app.py:1029-1047 | on a test the form offers, recording Completed takes it off the pending counter, recording In Progress leaves the counter alone, and the status is never Scheduled afterwards |
| LabTests.PendingCountIsNotCompleted | app.py:289 | `pending_tests` is the number of tests whose status is not Completed; with the Completed ones it accounts for every test |
| Inventory.WithdrawUndoesRestock | app.py:886-907 | adding then removing the same amount restores every quantity; only the chosen item's date differs |
| Inventory.StockChangesOnlyThatItem | app.py:890-903 | add and remove change the chosen item's quantity by exactly the amount and touch no other item; a removal may leave a negative quantity |
| Inventory.LowStockIsItemsBelowThreshold | app.py:347 | the low-stock count is the number of items with quantity below 100 |
| Inventory.LowStockMonotone | app.py:886-907 | removing stock never lowers the low-stock count, and adding stock never raises it |
| Stats.RevenueIsPaidTotal | app.py:285 | the revenue counter is the sum of Paid amounts, so it is 0 when no bill is Paid |
| Stats.BedCountersPartition | app.py:287-288 | the two bed counters add up to the number of beds |
| Stats.StatsAfterPayment | app.py:284-286 | paying a Pending bill lowers `pending_bills` by 1, raises revenue by its amount, and moves no other counter |
| Stats.StatsAfterNewBill | app.py:285-286 | a new bill raises `pending_bills` by 1 and moves no other counter |
| Stats.StatsAfterNewPatient | app.py:280 | a new patient raises the patient counter by 1 and moves no other counter |
| Stats.StatsAfterBooking | app.py:282-283 | a booked (Scheduled) appointment raises the appointment and pending counters by 1 and moves no other counter |
| Router.ErrorReply | app.py:353-354 | every error reply starts with `"Error: "` |
| Router.FixedReply | app.py:319-356 | a failure's reply is its error reply; a fixed text exists exactly for the help, "nothing found" and failure answers |
| Router.FirstMatch | app.py:300-351 | the rule an ordered dispatch table picks is one of its rules, and its predicate holds |
| Router.ClassifyIsFirstMatch | app.py:300-351 | the `if/elif` chain equals first-match over the nine rules in source order |
| Router.FirstMatchIsEarliest | app.py:300-351 | in both directions: a rule that differs from every rule before it is picked exactly when its predicate holds and no earlier rule's does |
| Router.FirstMatchNone | app.py:350-351 | no rule is picked exactly when no predicate holds |
| Router.RouteTakesFirstMatchingRule | app.py:297-351 | `ai_query` answers with branch `k` when the lower-cased question satisfies rule `k` and no earlier rule |
| Router.ClassifiedRuleIsFirstMatching | app.py:300-349 | whenever a branch answers, its predicate holds and every earlier rule's predicate fails |
| Router.HelpExactlyWhenNothingMatches | app.py:350-351 | the answer is the help string exactly when none of the nine predicates holds |
| Router.HelpTextIsDistinct | app.py:350-351 | no other fixed reply equals the help string |
| Router.RunNeverHelps | app.py:300-349 | no branch answers with the help string |
| Router.HowManyPatientsWins | app.py:300-302 | a question containing "how many patient" gets the patient count, whatever else it mentions |
| Router.HowManyPatientPrefix | app.py:297-302 | a question starting with "How many patient" gets the patient count |
| Router.LowerHowManyPatient | app.py:297 | lower-casing "How many patient" gives "how many patient" |
| Router.CardiologyQuestionGetsPatientCount | app.py:297-319 | "How many patients are in cardiology" gets the patient count, never the cardiology branch |
| Router.PatientsButtonGetsPatientCount | app.py:477-478 | the chat page's "Patients" button question gets the patient count |
| Router.FailsExactly | app.py:304-356 | a branch raises exactly when: top doctor or average fee with no doctors, revenue with no Paid bill, pending bills with no Pending bill; the reply then starts with `"Error: "` |
| Router.TopDoctorRow | app.py:305-310 | the chosen doctor row's name group has the largest count among the rows considered |
| Router.TopDoctorIsMaximal | app.py:305-310 | with doctors on file, the top-doctor answer names an existing doctor's name; its count is that group's count and at least every group's count, including groups with no appointments |
| Router.GroupCountCoversDoctor | app.py:305-308 | a name group's count includes each appointment of each doctor of that name |
| Router.TopDoctorBoundsEveryDoctor | app.py:305-310 | the top count is at least every single doctor's appointment count |
| Router.NoAppointmentsCountZero | app.py:305-308 | with no appointments every group counts 0 (LEFT JOIN) |
| Router.TopDoctorWithoutAppointments | app.py:305-310 | with doctors but no appointments, the answer is a doctor with count 0, not an error |
| Router.CardiologyRowsAreJoined | app.py:312-319 | a row is listed exactly when some appointment joins a patient and a doctor whose specialization contains "Cardio" (any case), and the row is that patient's name, age and phone |
| Router.EmergencyRowsAreJoined | app.py:327-332 | the same for "Emergency", with the patient's name, the date and the reason |
| Router.CardiologyRowCount | app.py:312-318 | the cardiology listing has one row per joining appointment |
| Router.EmergencyRowCount | app.py:327-332 | the emergency listing has one row per joining appointment |
| Router.RouterAgreesWithDashboard | app.py:277-346 | the router's patient, staff, revenue and pending-bill counts are the dashboard's counters, except in two cases: with no Paid bill the router raises where the dashboard shows revenue 0, and with no Pending bill it raises where the dashboard shows `pending_bills` 0 |
| Seed.SeedGuard | app.py:174-175 | seeding happens exactly when `departments` is empty; existing rows keep their place and each table gains its seed rows after them |
| Seed.SeedIdempotent | app.py:174-175 | seeding a second time changes nothing |
| Seed.SeedRowsOk | app.py:176-263 | the seed rows satisfy the status invariants, and their foreign keys name ids 1..5 |
| Seed.SeedKeepsWellFormed | app.py:174-263 | seeding a well-formed store leaves it well formed |
| Seed.AppendKeepsResolving | app.py:174-263 | appending rows whose foreign key resolves keeps every key of the table resolving |
| Seed.SeedDashboard | app.py:176-263 | the dashboard of the seed rows: 5 patients, 5 doctors, 5 appointments, 2 pending, 3 staff, revenue 4500, 1 pending bill, 3 available and 2 occupied beds, 2 pending tests, 2 available ambulances |
| Seed.FirstStartSeedsEverything | app.py:174-263 | seeding the empty store gives exactly the seed rows, with revenue 4500 |
| Seed.SeededCounts | app.py:174-263 | seeding a store without departments adds the seed rows' contribution to each of the eleven counters, revenue 4500 and one pending bill included |
| Seed.SeededRevenue | app.py:213-218 | seeding adds 4500 to revenue and one pending bill |
| Hospital.Store.constructor | app.py:32-172 | a new database has ten empty tables and is well formed |
| Hospital.Store.InitDb | app.py:174-272 | the store becomes the seeded snapshot of the old one, and stays well formed |
| Hospital.Store.AddPatient | app.py:523-535 | with a name, appends the patient and returns its new id; without one, changes nothing and reports "Name is required!" |
| Hospital.Store.AddDoctor | app.py:565-577 | with name and specialization, appends the doctor; otherwise changes nothing and reports "Name and Specialization required!" |
| Hospital.Store.BookAppointment | app.py:612-621 | appends a Scheduled appointment without any check, returns its id, and raises the appointment and pending counters by 1 |
| Hospital.Store.CreateBill | app.py:755-764 | appends a Pending, undated bill, returns its id, and raises `pending_bills` by 1 |
| Hospital.Store.PayBill | app.py:782-789 | the bill table becomes `Billing.Pay` of the old one, nothing else changes, and paying a Pending bill lowers `pending_bills` by 1 and raises revenue by its amount |
| Hospital.Store.AddStaff | app.py:825-835 | with a name, appends the staff member; otherwise changes nothing and reports "Name is required!" |
| Hospital.Store.AddItem | app.py:863-873 | with an item name, appends the item; otherwise changes nothing and reports "Item name is required!" |
| Hospital.Store.Restock | app.py:886-895 | the inventory becomes `Inventory.Restock` of the old one; nothing else changes |
| Hospital.Store.Withdraw | app.py:898-907 | the inventory becomes `Inventory.Withdraw` of the old one; nothing else changes |
| Hospital.Store.AddBed | app.py:937-949 | with a bed number, appends a fresh bed; otherwise changes nothing and reports "Bed number is required!" |
| Hospital.Store.Admit | app.py:966-974 | the beds become `Beds.Admit` of the old ones; nothing else changes |
| Hospital.Store.Discharge | app.py:976-983 | the beds become `Beds.Discharge` of the old ones; nothing else changes |
| Hospital.Store.OrderTest | app.py:1017-1024 | appends a Scheduled test and returns its id |
| Hospital.Store.RecordResult | app.py:1044-1051 | the tests become `LabTests.Record` of the old ones; nothing else changes |
| Hospital.Store.AddAmbulance | app.py:1132-1144 | with vehicle number and driver, appends an Available ambulance; otherwise changes nothing and reports "All fields are required!" |
| Hospital.Store.Dispatch | app.py:1161-1172 | with pickup and destination, the ambulances become `Ambulances.Dispatch` of the old ones, and dispatching an Available ambulance lowers the available counter by 1; otherwise changes nothing and reports "All fields are required!" |

## Left out

- Streamlit widgets, tabs, `session_state`, plotly charts and the `to_string` table dumps are presentation. The router's listing answers are the row values, not their printed form.
- Router.FixedReply: gives no text for numeric answers. The `:.0f` and `:,.0f` formats, the average fee as a float, and the occupancy percentage (app.py:323, 336, 931) are floating-point formatting. `AverageFee` carries the fee total and the doctor count instead of the quotient.
- Router.TopDoctorRow: SQLite leaves the order among tied name groups unspecified. The model picks the earliest doctor row, and `Router.TopDoctorIsMaximal` states only maximality.
- Text.LowerChar: lower-cases ASCII letters only, and so does Text.Lower. Python's Unicode case mapping is not modelled. `LIKE` is modelled as ASCII case-insensitive substring search, which is SQLite's default.
- Router.CardiologyRows and Router.EmergencyRows list the joined rows in appointment order. The SQL has no `ORDER BY`, so SQLite does not fix that order; `Router.CardiologyRowsAreJoined` and `Router.EmergencyRowsAreJoined` state which rows are listed, and `Router.CardiologyRowCount` and `Router.EmergencyRowCount` how many, but not their order.
- `datetime.now()` is I/O. Every operation takes today's date, or the request time, as a parameter.
- SQLite connection handling and the delete-and-recreate path for a corrupt database file (app.py:20-30) are file I/O.
- The `medical_records`, `pharmacy` and `blood_bank` tables, their forms and seed rows, and the `timedelta(days=90)` expiry (app.py:1207) are outside the modelled core. So are the analytics and department reports (app.py:625-665).
- The search and status filters spliced into SQL text (app.py:508, 595, 729) are string building for display.
- The numeric ranges of the form widgets (such as age 1..120 and amount 0..100000) are not modelled. Entered amounts, fees and quantities are unbounded naturals; a stored quantity is an integer, which a withdrawal can make negative.
- `sidebar_footer.py` is static sidebar HTML and a clock.
