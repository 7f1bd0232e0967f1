# Inventory ledger analytics and admin registries, modelled in Dafny

The system records every inventory action (stock in and out, moves, item
creation and edits) as a block of a hash-chained ledger, and derives the
current inventory by replaying that ledger. This project models the business
logic of four backend route files that work on top of it:

- **Ledger analytics** (`bims-backend/routes/analytics.js`): the low-stock
  predictor, which sums the stock-outs of the last thirty days per SKU and
  reports the products of the current inventory that will be empty within
  seven days, most urgent first; and the anomaly scanner, which applies three
  business rules (unusual UTC hour, a MOVE performed by an Admin, a MOVE from
  Supplier straight to Retailer) to every block after the genesis block and
  reports the flagged blocks newest first.
- **User administration** (`bims-backend/routes/users.js`): the merge of the
  login history with the stored sessions (each login is matched with the
  session that expires closest after it), the employee identifier `EMP-0042`,
  and the handlers that change the users table: password change, role and
  e-mail change, user creation and deletion, with their required-field checks
  and the refusal to let an admin change or delete their own account.
- **Location and category registries** (`bims-backend/routes/locations.js`,
  `bims-backend/routes/categories.js`): tables of named rows that can be
  archived, with a role-filtered listing, create-or-un-archive, rename, and a
  "smart" delete that archives a row still referred to by the ledger and
  removes it otherwise. The two files are the same code line for line except
  for the ledger query that decides whether a row is still referred to, so
  one class `Registry.Table` models both, with a `kind` that selects the query.

Layout, one module per file:

| file | module | content |
|---|---|---|
| common.dfy | Common | `Option`, and `Outcome` (the HTTP answer of a handler) |
| decimal.dfy | Decimal | decimal text of ids, `padStart`, employee ids, the integer cast of an id given as text |
| sorting.dfy | Sorting | a stable insertion sort over any total preorder; code-point string order |
| seqs.dfy | Seqs | flat-map and reversal of sequences |
| ledger.dfy | Ledger | blocks, transactions, the UTC hour of a timestamp, the two history queries |
| low_stock.dfy | LowStock | the low-stock predictor |
| anomalies.dfy | Anomalies | the anomaly scanner |
| sessions.dfy | Sessions | the login/session merge |
| users.dfy | Users | class `UserStore` over the users table |
| registry.dfy | Registry | class `Table` over a locations or categories table |

Conventions of the model:

- Instants are integers, milliseconds since the Unix epoch. The UTC hour of
  an instant is `(t / 3600000) % 24`. With Dafny's Euclidean division this is
  what `getUTCHours` computes, negative instants included.
- "Now minus thirty days" is the parameter `cutoff`. A stock-out counts when
  its timestamp is strictly greater.
- `Math.floor(totalStock / (totalStockOut / 30))` is computed exactly as
  `(30 * totalStock) / totalStockOut`. The divisor is positive there, so
  Euclidean division is the floor. `DaysToEmpty` states the floor property.
- The inventory that the ledger replay produces is an input: a sequence of
  `(sku, product)` pairs in the map's insertion order. Each product carries
  its name and its per-location quantities.
- JavaScript's `Array.prototype.sort` is stable. The predictions are sorted
  by a stable insertion sort, proved sorted, a permutation, and stable.
- SQL `ORDER BY name` is modelled as code-point lexicographic order (the "C"
  collation).
- An empty string stands for a missing request field. JavaScript treats both
  as falsy.
- Password hashing is an oracle. `matches(password, hash)` is a parameter of
  the password change. The hash of a new password is an input.
- Route ids of the users handlers are text, as Express delivers them, and
  PostgreSQL casts them to an integer in the query (`Decimal.ParseId`). The
  users table's id is taken to be a `serial` column, so ids, the id sequence
  and the cast are bounded by `Decimal.MAX_ID` = 2147483647. The table
  definition is not part of this model.
- The anomaly time rule flags hours 0 to 5 and hour 23. Hour 22 is not
  flagged, although the comment above that rule speaks of 10 PM. The model
  follows the code.

## Model

| member | source | states |
|---|---|---|
| `LowStock.LowStockPredictions` | bims-backend/routes/analytics.js:42-91 | a chain of at most one block gives no predictions; otherwise the answer is the stable sort, by days to empty, of the predictions pushed in inventory order; the velocity loop's invariant ties the velocity map to the recent outflow of every SKU |
| `LowStock.RecentOutflowAppend` | bims-backend/routes/analytics.js:55-63 | a block adds its quantity to a SKU's outflow iff it is a `STOCK_OUT` of that SKU with timestamp strictly after the cutoff; any other block leaves every total unchanged |
| `LowStock.DaysToEmpty` | bims-backend/routes/analytics.js:76-77 | the result `d` is the floor of `stock / (outflow / 30)`: `d * outflow <= 30 * stock < (d + 1) * outflow` |
| `LowStock.CandidatesConcat` | bims-backend/routes/analytics.js:69-88 | predictions are pushed in inventory order: those of an earlier stretch of the inventory precede those of a later one |
| `LowStock.PredictionSound` | bims-backend/routes/analytics.js:69-87 | every prediction names an inventory product with positive recent outflow; its stock is the sum of the location quantities; its days to empty are `floor(30 * stock / outflow)` and at most 7 |
| `LowStock.NoOutflowNoPrediction` | bims-backend/routes/analytics.js:73-75 | a SKU with no positive recent outflow is never predicted, whatever its stock, so the division is never by zero |
| `LowStock.PredictedExactlyOnce` | bims-backend/routes/analytics.js:79-87 | with distinct SKUs, every inventory product with positive outflow and at most 7 days to empty appears exactly once, and every prediction for its SKU is that one |
| `LowStock.PredictionsSorted` | bims-backend/routes/analytics.js:91 | the answer is sorted by ascending days to empty |
| `LowStock.PredictionsPermuteStably` | bims-backend/routes/analytics.js:91 | the answer is a permutation of the pushed predictions, and predictions with equal days to empty keep their inventory order |
| `Sorting.SortStable` | bims-backend/routes/analytics.js:91 | the insertion sort keeps the relative order of elements with equal keys |
| `Sorting.SortSorts` | bims-backend/routes/analytics.js:91 | for a total preorder, the insertion sort's output is sorted |
| `Sorting.SortPermutes` | bims-backend/routes/analytics.js:91 | the insertion sort's output is a permutation of its input |
| `Anomalies.MessageInjective` | bims-backend/routes/analytics.js:134-146 | the three reason texts (the time text with its hour, the Admin-move text, the skipped-warehouse text) are pairwise distinct, and the time text determines its hour, so the returned strings determine the reasons |
| `Ledger.UtcHour` | bims-backend/routes/analytics.js:133 | the UTC hour of an instant is in 0..23 |
| `Anomalies.ScanAnomalies` | bims-backend/routes/analytics.js:123-157 | the scan loop returns exactly the reversed list of flags pushed in chain order, one per non-genesis block on which some rule fires |
| `Anomalies.ScanReportsExactlyFlaggedBlocks` | bims-backend/routes/analytics.js:126-153 | a block is reported iff it is not the genesis block (index 0) and has a non-empty reason list; a report carries exactly that block's reasons, 1 to 3 of them |
| `Anomalies.NewestFirst` | bims-backend/routes/analytics.js:157 | the flags of a later stretch of the chain come before the flags of an earlier one |
| `Anomalies.ReasonsInRuleOrder` | bims-backend/routes/analytics.js:130-147 | the reasons follow the rule order, each rule at most once, so a block has at most three |
| `Anomalies.TimeRule` | bims-backend/routes/analytics.js:133-136 | the time reason is present iff the UTC hour is below 6 or above 22 (hour 22 is not flagged), and it carries that hour |
| `Anomalies.NonMoveOnlyTime` | bims-backend/routes/analytics.js:138-147 | a block that is not a `MOVE` carries at most the time reason |
| `Anomalies.AllThreeRules` | bims-backend/routes/analytics.js:132-147 | a `MOVE` from Supplier to Retailer by an Admin at 23:00 UTC gets exactly the three reasons, in rule order |
| `Sessions.MatchSession` | bims-backend/routes/users.js:66-80 | a matched session expires strictly after the login; no session has a smaller positive difference; on a tie the first in input order wins; no match iff no session expires after the login |
| `Sessions.ClosestAfterUnique` | bims-backend/routes/users.js:69-80 | at most one session satisfies the matching condition, so the match is determined by the inputs |
| `Sessions.MergeSessions` | bims-backend/routes/users.js:63-99 | one entry per login, in login order; unmatched: Logged Out, no logout time, not current; matched: logout time is the session's expiry, Active iff that expiry is after `now`, current iff Active and the session is the caller's |
| `Decimal.NatToString` | bims-backend/routes/users.js:297 | `String(id)`: a non-empty digit string without a leading zero |
| `Decimal.ParseNatToString` | bims-backend/routes/users.js:297 | reading back the decimal text of an id gives the id |
| `Decimal.PadStart` | bims-backend/routes/users.js:297 | `padStart`: the result has the larger of the two lengths, ends with the input, and the rest is the pad character |
| `Decimal.EmployeeIdShape` | bims-backend/routes/users.js:297 | the employee id is `EMP-` followed by at least 4 digits that read back as the id; ids of 4 or more digits appear unpadded |
| `Decimal.EmployeeIdInjective` | bims-backend/routes/users.js:297 | distinct user ids get distinct employee ids |
| `Decimal.ParseId` | bims-backend/routes/users.js:223-226 | an id given as text is a number iff it is a non-empty digit string whose value is at most 2147483647, and that number is the digits' value; any other text fails the query |
| `Users.SelfGuardSound` | bims-backend/routes/users.js:217 | whatever the text comparison (`Users.SelfGuardAsWritten`) refuses does target the caller's own row, or, for a caller id beyond the column's range, is a text whose query fails anyway |
| `Users.SelfGuardBypass` | bims-backend/routes/users.js:217-226 | the text comparison lets `007` through for caller 7, though the query then touches row 7 |
| `Users.UserStore.ChangePassword` | bims-backend/routes/users.js:159-183 | 400 if either field is empty or the new password is shorter than 6; 400 if the current password does not match the stored hash; only on success does the caller's hash change, and nothing else changes |
| `Users.UserStore.ChangeRole` | bims-backend/routes/users.js:217-231 | with the corrected self-guard (`Users.TargetsSelf`), refused with 400 for any id text that casts to the caller's own id; 500 for an id text that is not a digit string or exceeds the `integer` range; 404 for an unknown id; the table is unchanged in all three cases; otherwise only the target's role changes; the caller's own row never changes |
| `Users.UserStore.ChangeEmail` | bims-backend/routes/users.js:248-271 | with the corrected self-guard (`Users.TargetsSelf`), the same 400, 500 and 404 cases as the role change, plus 409 when another user holds the e-mail; otherwise only the target's e-mail changes, and the target is then the only user with that e-mail; the caller's own row never changes |
| `Users.UserStore.AddUser` | bims-backend/routes/users.js:283-325 | 400 unless name, e-mail, role and password are all given, with the table and sequence unchanged; otherwise the sequence advances, a taken id or e-mail is a 409, and a success inserts one user whose employee id derives from the new id; an exhausted sequence (next id beyond 2147483647) is a 500 with the table and sequence unchanged |
| `Users.UserStore.Delete` | bims-backend/routes/users.js:342-356 | with the corrected self-guard (`Users.TargetsSelf`), refused with 400 for any id text that casts to the caller's own id; 500 for an id text that is not a digit string or exceeds the `integer` range; 404 for an unknown id; the table is unchanged in all three cases; otherwise exactly that user is removed |
| `Registry.Table.List` | bims-backend/routes/locations.js:16-26 | an Admin gets every row, active rows first, then by name; anyone else gets exactly the active rows, by name |
| `Registry.Table.Add` | bims-backend/routes/locations.js:29-77 | an empty name is a 400 with the table unchanged; an absent name adds one active row; an archived name un-archives only that row; an active name is a 409 with the table unchanged; after a success the name's row is active |
| `Registry.Table.Rename` | bims-backend/routes/locations.js:80-89 | renames only the target row; a name held by another row is a 409 with the table unchanged; an unknown id changes nothing and returns no row |
| `Registry.Table.Delete` | bims-backend/routes/locations.js:92-141 | an unknown id fails (500) with the table unchanged; otherwise the row is kept and archived iff the ledger refers to it, and removed otherwise |
| `Ledger.LocationHistoryIgnoresOtherTypes` | bims-backend/routes/locations.js:110-119 | only `STOCK_IN`, `STOCK_OUT` and `MOVE` blocks count as location history; `CREATE_ITEM` and other blocks never make a location referenced |
| `Ledger.CategoryHistoryIgnoresOtherTypes` | bims-backend/routes/categories.js:108-116 | only `CREATE_ITEM` and `ADMIN_EDIT_ITEM` blocks count as category history; stock movements never make a category referenced |
| `Registry.FirstWhere` | bims-backend/routes/categories.js:39-40 | a single-row lookup (by name in `IndexOfName`, lines 39-40; by id in `IndexOfId`, lines 99-103) returns the first row that matches, or reports that no row matches |
| `Registry.Active` | bims-backend/routes/categories.js:20-22 | the non-admin listing keeps exactly the non-archived rows, with their multiplicities |
| `Registry.AdminOrderIsPreorder` | bims-backend/routes/categories.js:21 | `is_archived ASC, name ASC` is a total preorder |
| `Registry.NameOrderIsPreorder` | bims-backend/routes/categories.js:22 | `name` order is a total preorder |

## Left out

- Express routing, the `isAuthenticated` and `isAdmin` middleware, and the Admin or Auditor check of the anomaly route: the handlers are modelled as if the caller passed them. Session saving and HTTP response plumbing are left out too.
- The replay of the ledger into an inventory (`rebuildStateAt`), block hashes and chain verification: chain-utils is not part of this model, so the inventory is an input.
- Reading the clock, `setDate(getDate() - 30)` in local time, and parsing stored timestamps: instants are integers and the cutoff is a parameter.
- LowStock.DaysToEmpty: computes the exact floor of `30 * stock / outflow`, not the IEEE double arithmetic of the source; the two can differ when rounding puts the quotient just below an integer.
- Quantities in ledger transactions are assumed to be numbers; a quantity stored as text would make JavaScript concatenate strings.
- The sort of the predictions and the reversal of the anomaly list are modelled on values, not in place on a JavaScript array.
- Password hashing and comparison (bcrypt) are opaque: the comparison is a parameter and new hashes are inputs.
- Decimal.ParseId: accepts only plain digit strings within the `integer` range; PostgreSQL also accepts surrounding blanks and a sign, and from version 16 on `0x`, `0o` and `0b` prefixes and `_` digit separators, all of which the model treats as a failing query.
- `Users.UserStore` leaves out `PUT /me/profile`, the user listing `GET /`, the session refresh after an update, and the ledger-history query of the profile page (`/me/profile-data`). The login rows (the ten most recent) and the session rows reach the merge as inputs.
- Password lengths count Unicode code points; JavaScript counts UTF-16 code units, which differ for characters outside the Basic Multilingual Plane.
- The race on the unique name or e-mail constraint between two concurrent requests (error code 23505 on insert) is not modelled; conflicts are decided on the table as it stands.
- Registry ids are taken as numbers; an id text that PostgreSQL cannot cast (a 500) is not modelled for the registries.
- SQL NULLs: a missing name or role in an update is taken as a string, not as a NULL that a NOT NULL constraint would refuse.
- The database collation: names are ordered by code point.

## Findings

| source | as written | input that shows it | evidently intended | confidence | as-written member | corrected member |
|---|---|---|---|---|---|---|
| bims-backend/routes/users.js:217-220 | the self-target guard compares `String(id)` with `String(req.session.user.id)` as text, while the query casts the id to an integer; the same guard is at lines 248-251 and 342-345; modelled as `Users.SelfGuardAsWritten` | caller id 7, route `/api/users/007/role` (or `/email`, or `DELETE /api/users/007`): the texts `007` and `7` differ, the guard passes, and the query updates or deletes row 7 (`Users.SelfGuardBypass`) | refuse any id that denotes the caller's own row; the corrected handlers compare the parsed id (`Users.TargetsSelf`) and prove that the caller's own row never changes | medium, not executed | `Users.SelfGuardBypass` | `Users.UserStore.ChangeRole`, `Users.UserStore.ChangeEmail`, `Users.UserStore.Delete` |
