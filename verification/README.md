# Organ and blood inventory: ledger, submit validation and auth state

This project models, in Dafny, the decision logic of a blood/organ donation
dashboard's web client. Four pieces are covered:

- the organ inventory page. It keeps a ledger of organ records
  `(organType, bloodGroup, inOrOut, quantity)`. From it the page derives the
  available stock of each `(organType, bloodGroup)` key with a signed fold, a
  per-key summary of IN and OUT totals, a clamped "available" figure, and
  global IN/OUT totals. Its submit handler checks, in order, the
  counterparty for the chosen direction, a positive quantity and, for OUT,
  that stock is sufficient. An accepted record is always appended, never
  updated.
- the "Add Organ" modal. It checks required fields in a fixed order, then
  both documents. It then builds a payload naming the signed-in user as the
  donor of an "in" record or as the hospital of any other.
- the "Manage Blood Record" modal. It checks that three inputs are present
  and builds the create-inventory payload. `donar` or `hospital` is chosen by
  the inventory type.
- the auth slice reducer. It is a state machine over
  `{loading, user, token, error}`, driven by the pending, fulfilled and
  rejected actions of login, register and current-user.

Modules: `Common` holds options, results, JavaScript truthiness and form
entries. `Numbers` holds `parseInt`. `OrganLedger` holds the fold, filters
and totals. `OrganSummary` holds the summary rows. `OrganInventoryPage`,
`OrganModal`, `BloodModal` and `AuthSlice` model one source file each.

The HTTP calls are modelled as parameters. The add-organ reply is an
`Accepted | Refused(message)` value; on acceptance the reloaded ledger is
the old one with the new record appended. The signed-in user is an input.
The token left in browser storage by an earlier login is an input to the
initial auth state.

The checks deliberately follow the code, not an idealised version of them:

- On the inventory page a direction other than `"in"` or `"out"` is not
  checked at all. That includes the empty placeholder of the form's select.
  The fold and the summary still count such a record as outgoing. So only
  submissions whose direction is `"in"` or `"out"` are shown never to drive
  a key negative. `UnsetDirectionBypassesStockCheck` exhibits a record that
  leaves a key at -1. Only the select's HTML `required` attribute stands in
  the way of that input.
- The organ modal tests JavaScript truthiness. The number 0 and the empty
  string are missing, but the string `"0"` is a filled field.
- The blood modal checks presence only. `"0"`, `"-3"` and `"abc"` all pass;
  `"abc"` gives a NaN quantity.

## Model

| member | source | states |
|---|---|---|
| OrganLedger.AvailableIsInMinusOther | src/pages/OrganInventoryPage.jsx:87-94 | the available quantity of a key equals the sum of its "in" quantities minus the sum of the quantities of every other record of that key; records of other keys contribute nothing |
| OrganLedger.AvailableAppend | src/pages/OrganInventoryPage.jsx:88-94 | appending a record moves its own key's balance by its signed quantity (plus for "in", minus for anything else) and leaves every other key's balance unchanged |
| OrganLedger.AvailableOfAbsentKey | src/pages/OrganInventoryPage.jsx:88-94 | a key no record mentions has available quantity 0 (the reduce's initial value) |
| OrganLedger.GlobalTotalsAppend | src/pages/OrganInventoryPage.jsx:138-139 | Total IN grows only with "in" records and Total OUT only with "out" records; records with any other direction leave both alone |
| Common.KeepTruthy | src/pages/OrganInventoryPage.jsx:101 | the payload keeps every truthy form value and nothing else, and keeps everything when all values are truthy |
| Common.KeepTruthyAppend | src/pages/OrganInventoryPage.jsx:101 | the filter keeps the entries in their original order: filtering a concatenation concatenates the filtered parts |
| OrganSummary.Tally | src/pages/OrganInventoryPage.jsx:147-151 | one record raises a row's IN - OUT by its signed quantity and its IN + OUT by its quantity, whatever its direction string |
| OrganSummary.SummarizeFaithful | src/pages/OrganInventoryPage.jsx:142-153 | the summary has exactly one row per key that some record mentions, with no duplicate keys, and each row's IN and OUT are that key's "in" sum and the sum of its other records |
| OrganSummary.SummaryAgreesWithFold | src/pages/OrganInventoryPage.jsx:142-153 | for every key, summary IN minus summary OUT equals the available quantity the submit handler computes, and a key has a row exactly when the ledger mentions it |
| OrganSummary.ShownAvailable | src/pages/OrganInventoryPage.jsx:170 | the displayed "Available" is never negative, is at least IN - OUT, and equals IN - OUT whenever that is not negative |
| OrganSummary.ShownAvailableMatchesFold | src/pages/OrganInventoryPage.jsx:290-292 | the figure shown for a key is the available quantity when that is not negative and 0 otherwise |
| OrganSummary.Cards | src/pages/OrganInventoryPage.jsx:168-176 | one summary line per row in row order, with the row's organ, blood group, IN and OUT, and an available figure equal to IN - OUT when that is not negative and 0 otherwise |
| OrganSummary.RowTotalsMatchHeader | src/pages/OrganInventoryPage.jsx:137-153 | summed over rows, IN equals the header's Total IN, and OUT equals the header's Total OUT plus the quantities of records that are neither "in" nor "out" |
| OrganSummary.RowOutBoundsHeader | src/pages/OrganInventoryPage.jsx:138-153 | with non-negative quantities the rows' OUT sum is at least Total OUT, with equality when every record is "in" or "out"; the rows' IN sum always equals Total IN |
| OrganInventoryPage.Validate | src/pages/OrganInventoryPage.jsx:76-98 | an "in" without donor and an "out" without hospital are refused before the quantity is looked at; a quantity of 0 or less is refused next; an "out" above the key's available quantity is refused and reports that quantity; an "in" is never stock-checked; exactly the remaining forms pass, yielding the form's record |
| OrganInventoryPage.FormData | src/pages/OrganInventoryPage.jsx:100-103 | the posted body holds only form fields under their own names and the documents; each form field is sent exactly when it is filled in (an empty quantity field is not sent), and each document exactly when it was chosen |
| OrganInventoryPage.HandleSubmit | src/pages/OrganInventoryPage.jsx:72-117 | a refused form, or one the server refuses, only sets the error and keeps the form, both documents and the ledger; the ledger grows by exactly the submitted record if and only if validation passes and the server accepts; a server refusal shows its message or "Submission failed."; success clears the form and both documents |
| OrganInventoryPage.AcceptedOutDebitsOwnKey | src/pages/OrganInventoryPage.jsx:96-106 | after an accepted "out" the key's available quantity is the old one minus the quantity, hence not negative, and every other key is unchanged |
| OrganInventoryPage.AcceptedInCreditsOwnKey | src/pages/OrganInventoryPage.jsx:83-106 | after an accepted "in" the key's available quantity strictly increases by the quantity, and every other key is unchanged |
| OrganInventoryPage.HandleSubmitKeepsStock | src/pages/OrganInventoryPage.jsx:76-106 | a submission whose direction is "in" or "out" never leaves any key with a negative balance |
| OrganInventoryPage.SessionKeepsStock | src/pages/OrganInventoryPage.jsx:72-117 | over any sequence of submissions and server replies, each with direction "in" or "out", no key's balance ever becomes negative |
| OrganInventoryPage.UnsetDirectionBypassesStockCheck | src/pages/OrganInventoryPage.jsx:76-98 | a form whose direction is the empty placeholder passes every check on an empty ledger and leaves its key at -1 |
| OrganInventoryPage.FormatType | src/pages/OrganInventoryPage.jsx:156 | a non-string direction shows as "N/A"; a string shows with each character upper-cased in place, so its length is kept |
| OrganInventoryPage.FormatTypeProperties | src/pages/OrganInventoryPage.jsx:156 | formatting is idempotent, and "in" and "out" show as "IN" and "OUT" |
| OrganModal.Fields | src/components/shared/modal/OrganModal.js:40-43 | the required-field list names every form field, in the form's own key order |
| OrganModal.Counterparty | src/components/shared/modal/OrganModal.js:64-68 | the user's id is sent as donor exactly when the direction is "in", and as hospital otherwise |
| OrganModal.Payload | src/components/shared/modal/OrganModal.js:58-71 | the body is every form field unchanged and in order, then exactly one of donor/hospital, then the medical document and the identity proof |
| OrganModal.HandleSubmit | src/components/shared/modal/OrganModal.js:36-71 | a form with a falsy required field is refused, naming the first such field in the fixed order; only a fully filled form is refused for a missing document; exactly fully filled forms with both documents yield the payload |
| OrganModal.QuantityChecks | src/components/shared/modal/OrganModal.js:14-49 | the modal opens on direction "in" and quantity 1, with organType reported missing first; a quantity of 0 or "" is the first missing field once organ and blood group are set, and "0" is not |
| BloodModal.Submit | src/components/shared/modal/Modal.js:17-38 | refused exactly when email, blood group or quantity is empty; otherwise the payload carries the inputs, the parsed quantity and the signed-in user's id as organisation, with donar set exactly for "in", hospital exactly for "out", never both |
| BloodModal.PresenceOnly | src/components/shared/modal/Modal.js:20-30 | a filled form passes whatever digits its quantity holds, "0" included, and sends their value; a negative quantity with a fraction also passes and is sent as the negated whole part |
| BloodModal.InitialFormIsIncomingAndRefused | src/components/shared/modal/Modal.js:7-22 | the default inventory type is "in", and the untouched form is refused |
| Numbers.ParseIntReadsDecimal | src/components/shared/modal/Modal.js:30 | `parseInt`, read with exact integers, gives back any natural number from its decimal spelling and ignores whatever non-digit text follows it |
| Numbers.ParseIntNegative | src/components/shared/modal/Modal.js:30 | `parseInt` reads a minus sign followed by digits as the value of those digits negated, ignoring whatever non-digit text follows |
| Numbers.ParseIntNaN | src/components/shared/modal/Modal.js:30 | a string without digits, the empty one included, parses to NaN |
| AuthSlice.InitialState | src/redux/features/auth/authSlice.js:4-11 | the initial state is idle, with no user and no error; the token is the stored one when that is non-empty and null otherwise |
| AuthSlice.Reduce | src/redux/features/auth/authSlice.js:17-59 | pending sets loading and clears the error, keeping user and token; every fulfilled action stops loading, replaces the user and keeps the error, and only login replaces the token; every rejection stops loading, keeps user and token and records the message or the request's default |
| AuthSlice.PendingThenFulfilledClearsError | src/redux/features/auth/authSlice.js:19-27 | a pending action followed by a fulfilled one leaves no error and loading off |
| AuthSlice.LoadingTracksLastAction | src/redux/features/auth/authSlice.js:19-59 | after any non-empty sequence of actions, loading is on exactly when the last action was a pending one |
| AuthSlice.TokenOnlyChangedByLogin | src/redux/features/auth/authSlice.js:23-55 | a sequence of actions with no fulfilled login leaves the token as it was |
| AuthSlice.UserOnlyChangedByFulfilment | src/redux/features/auth/authSlice.js:19-59 | a sequence of pending and rejected actions leaves the user as it was |
| AuthSlice.ErrorClearedOnlyByPending | src/redux/features/auth/authSlice.js:28-59 | once an error is set, only a pending action clears it |

## Left out

- HTTP calls are left out: fetching organs and donors, posting the forms, and the auth requests. They are replaced by reply parameters and a signed-in user input. The server itself is not part of this model; it is assumed to append an accepted record.
- Browser side effects are left out: alerts, `window.location` reloads, `localStorage` writes, `console` logging, closing the modal, and clearing the file inputs' DOM values.
- Rendering is left out, including colours and `moment` relative dates. The "Last updated" line and the donor name lookup are not modelled.
- The text of the page's error messages is left out. Errors are a datatype; for `InsufficientStock` the available amount is kept but not formatted into text.
- Files are modelled as presence flags. Their contents are not.
- On the inventory page the quantity is an integer, as the page compares it after `Number(...)`. NaN, fractions and the conversion of text are not modelled. The empty quantity field and a typed "0" both read as 0. In the source a typed "0" is a truthy string and would be posted, but the quantity check refuses it before the body is built.
- Numbers.ParseIntReadsDecimal, Numbers.ParseIntNegative and Numbers.ParseIntNaN model `parseInt` for decimal digits only. The `0x` hexadecimal prefix, non-ASCII white space and `-0` are not modelled. The model's integers are exact, whereas JavaScript returns a double: above 2^53 the source rounds (`parseInt("9007199254740993")` is 9007199254740992), and the model does not.
- The `"organType|bloodGroup"` string key is modelled as a pair. Catalog membership of organ and blood-group strings is not modelled, since only the HTML `<select>` and `required` attributes enforce it.
- OrganInventoryPage.FormData: states which entries the posted body holds, not their order. The order of the kept fields is what Common.KeepTruthyAppend states.
- OrganInventoryPage.SessionKeepsStock: the reloaded ledger is assumed to be the old one plus this page's accepted record, holding no other client's records. The Add Organ modal posts to the same endpoint with no stock check, so on a real reload an already overdrawn key can appear. The property therefore covers only this page's own submissions.
- BloodModal.PresenceOnly: the quantity sent is the exact value of the digits; the source sends the nearest double, which differs above 2^53.
- OrganInventoryPage.FormatType upper-cases ASCII letters only. JavaScript `toUpperCase` also maps other letters, some of them to two characters.
- The modal's `user` is modelled as an id string. A missing user, which would make `user._id` throw, is not modelled.
- The stored records' quantities are read as plain integers. Display-only pages, routing, the protected route, the mock auth context and the admin home page are not part of this model.
