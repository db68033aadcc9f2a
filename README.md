# Resort membership front end — a verified model

This is a model, in Dafny, of the logic inside a mock-data React front end for a
resort-membership business. The application shows resorts and products, a map of
locations, a contract wizard, a contract list, a customer and a staff view of one
contract, and a membership card. The model covers:

- the shared contract-progress store: a status and four progress flags,
  `setStatus`, a merging `setProgress` and `reset`;
- the contract wizard: the resident-number and phone-number input masks, the
  four-step `handleNextStep` / `handlePreviousStep` machine with its validation
  guards, and the payment-schedule editor (add, remove by id, update one field);
- the customer detail view's signature, upload and payment handlers, including
  the automatic promotion to *completed*. It also covers the buttons those
  handlers disable, the progress tiles and the membership button;
- the staff detail view's status selector, flag toggles, tiles and membership
  button;
- the membership lookup by route parameter;
- the product image carousel;
- the search and region/location/status filters of the map view, the all-products
  page, the home page and the contract list.

Each React component becomes a module. The zustand store is a class `Store` whose
methods change its fields. The wizard's `useState` hooks are the fields of a class
`Wizard`. The carousel's index is the field of a class `Carousel`. The handlers
that call the store are methods proved against pure functions (`Sign`, `Pay`,
`Toggle`, …), and the lemmas are stated over those functions. Filters are pure
functions over the mock data, which is transcribed as constants (without images
or coordinates). The JavaScript primitives used are modelled in the `Text` and
`Seqs` modules:

- `replace(/[^\d]/g, '')`;
- `trim()`, using the full ECMAScript white-space and line-terminator set;
- `toLowerCase()`, restricted to ASCII;
- `includes`;
- `Array.prototype.filter`.

Behaviours of the code that the model makes explicit:

- The phone mask never produces a 3-3-4 string such as `010-123-4567`: seven
  digits format as `010-1234`. The wizard's guard only checks
  `phoneNumber.length < 12`, so such a string passes
  (`ContractWizard.BasicInfoExamples`).
- `removePaymentSchedule` filters by id, and `addPaymentSchedule` derives the
  new id from the list length. From a list whose ids are still its positions
  1..n, removing a row other than the last and then adding reuses an id
  (`ContractWizard.RemoveThenAddCollides`). One such sequence (add, add, remove
  "2", add) leaves two rows with id "3", whose remove button then deletes both
  (`ContractWizard.IdReuseAfterRemove`). With unique ids, a removal deletes
  exactly one row (`ContractWizard.RemoveUniqueDeletesOne`).
- `handlePreviousStep` moves back exactly one step and does nothing on the first.
- The map search matches name and address only, not the description. The
  contract-list search is case-sensitive and uses no lowercasing.
- The customer view and the staff view disagree on the payment tile's pending
  text (`대기중` and `진행중`). They also disagree on promotion: paying last in the
  customer view completes the contract, but ticking the payment box last in the
  staff view does not (`ContractLifecycle.ViewsDisagreeOnPromotion`).

## Model

| member | source | states |
|---|---|---|
| ContractStore.Only | src/lib/contractStore.ts:14 | a one-key partial progress sets exactly that flag and leaves the other three absent |
| ContractStore.Merge | src/lib/contractStore.ts:31-34 | the spread merge: every flag present in the patch takes the patch's value, every absent flag keeps the old value |
| ContractStore.ProgressExtensionality | src/lib/contractStore.ts:3-8 | a progress record is determined by its four flags |
| ContractStore.MergeIdempotent | src/lib/contractStore.ts:31-34 | applying the same patch twice is the same as applying it once |
| ContractStore.MergeNothing | src/lib/contractStore.ts:31-34 | an empty patch leaves the progress unchanged |
| ContractStore.MergeOnly | src/lib/contractStore.ts:31-34 | a one-key patch sets that flag and leaves the other three as they were |
| ContractStore.InitialStateHasNoFlags | src/lib/contractStore.ts:18-26 | the initial state is in progress with all four flags unset |
| ContractStore.Store.constructor | src/lib/contractStore.ts:28-29 | a new store holds the initial state |
| ContractStore.Store.SetStatus | src/lib/contractStore.ts:30 | the status becomes the argument and the progress is unchanged |
| ContractStore.Store.SetProgress | src/lib/contractStore.ts:31-34 | the progress becomes the merge of the old progress with the patch; the status is unchanged |
| ContractStore.Store.Reset | src/lib/contractStore.ts:35 | the store returns to the initial state from any state |
| ContractStore.ResetTwice | src/lib/contractStore.ts:35 | reset is idempotent: two resets leave the initial state |
| ContractStore.CompletedWithoutFlags | src/lib/contractStore.ts:30 | the store enforces no tie between status and flags: a completed contract with unset flags is reachable |
| StatusDisplay.StatusLabel | src/pages/CustomerContractDetail.tsx:85-90 | every status has a non-empty label, and `계약최종완료` labels exactly the completed status |
| StatusDisplay.StatusColor | src/pages/CustomerContractDetail.tsx:78-83 | every status has non-empty classes, and the green badge marks exactly the completed status |
| StatusDisplay.BadgeDistinguishesStatus | src/pages/CustomerContractDetail.tsx:78-90 | every status has a non-empty label and colour, and distinct statuses get distinct labels and distinct colours |
| CustomerContractDetail.AllCompletedAfterPaymentIff | src/pages/CustomerContractDetail.tsx:127-130 | the four-flag test after forcing payment on holds exactly when signature, submission and verification were already set |
| CustomerContractDetail.Sign | src/pages/CustomerContractDetail.tsx:103-110 | signing sets the signature flag and changes no other flag and not the status |
| CustomerContractDetail.Upload | src/pages/CustomerContractDetail.tsx:112-122 | with a file, the submission flag is set and nothing else changes; without a file, the state is unchanged |
| CustomerContractDetail.Pay | src/pages/CustomerContractDetail.tsx:124-140 | paying sets the payment flag and changes no other flag; it completes the contract exactly when the other three flags were set, else the status stays |
| CustomerContractDetail.PayOnlyAdvances | src/pages/CustomerContractDetail.tsx:124-140 | paying clears no flag; the status either stays or becomes completed; a full checklist after paying means completed |
| CustomerContractDetail.RepeatedActionsAreHarmless | src/pages/CustomerContractDetail.tsx:103-140 | signing when signed, or uploading when uploaded, leaves the state as it was; paying when paid leaves the flags as they were |
| CustomerContractDetail.ActionsDisableTheirButtons | src/pages/CustomerContractDetail.tsx:346-372 | a button is disabled exactly when its flag is set; each handler disables its own button and leaves the others' disabled state alone |
| CustomerContractDetail.MembershipButtonAfterPay | src/pages/CustomerContractDetail.tsx:332-340 | after paying, the membership button shows exactly when the contract was completed or the other three flags were set |
| CustomerContractDetail.TileText | src/pages/CustomerContractDetail.tsx:210-245 | a tile reads `완료` exactly when its flag is set and `대기중` otherwise |
| CustomerContractDetail.HandleSignatureComplete | src/pages/CustomerContractDetail.tsx:103-110 | the store's new state is `Sign` of its old state |
| CustomerContractDetail.HandleFileUpload | src/pages/CustomerContractDetail.tsx:112-122 | the store's new state is `Upload` of its old state |
| CustomerContractDetail.HandlePaymentComplete | src/pages/CustomerContractDetail.tsx:124-140 | the store's new state is `Pay` of its old state, with the all-completed test taken on the snapshot before the call |
| ContractDetail.Toggle | src/pages/ContractDetail.tsx:150-152 | toggling flips exactly the chosen flag and leaves the other flags and the status alone |
| ContractDetail.ToggleTwice | src/pages/ContractDetail.tsx:150-152 | toggling a flag twice restores the state |
| ContractDetail.ToggleNeverPromotes | src/pages/ContractDetail.tsx:150-152 | toggling the last missing flag completes the checklist but does not complete the contract |
| ContractDetail.ChangeStatus | src/pages/ContractDetail.tsx:141-148 | choosing a status sets it and leaves the flags alone |
| ContractDetail.CompletedWithoutAnyFlag | src/pages/ContractDetail.tsx:263-276 | from the initial state, staff can mark a contract completed with no flag set |
| ContractDetail.TileText | src/pages/ContractDetail.tsx:324-357 | a tile reads `완료` exactly when its flag is set; an unset payment tile reads `진행중`, the other unset tiles `대기중` |
| ContractDetail.MembershipButtonFollowsStatus | src/pages/ContractDetail.tsx:538-546 | the membership button depends on the status alone: a toggle never changes it, and choosing a status shows it exactly for completed |
| ContractDetail.HandleStatusChange | src/pages/ContractDetail.tsx:141-148 | the store's new state is `ChangeStatus` of its old state |
| ContractDetail.HandleProgressChange | src/pages/ContractDetail.tsx:150-152 | the store's new state is `Toggle` of its old state |
| ContractLifecycle.CustomerCannotVerify | src/pages/CustomerContractDetail.tsx:103-140 | no sequence of customer actions sets the verification flag, or completes a contract that is neither verified nor completed |
| ContractLifecycle.CustomerAloneNeverCompletes | src/pages/CustomerContractDetail.tsx:124-140 | from the initial state, customer actions alone never complete the contract |
| ContractLifecycle.SignUploadVerifyPayCompletes | src/pages/CustomerContractDetail.tsx:103-140 | sign, upload, staff verification, then pay: completed, every flag set, membership button shown in both views |
| ContractLifecycle.SignUploadVerifyPay | src/pages/ContractDetail.tsx:150-152 | the same flow through the handlers on one store ends completed with every flag set |
| ContractLifecycle.ViewsDisagreeOnPromotion | src/pages/ContractDetail.tsx:150-152 | from the same three flags, paying in the customer view completes the contract, while ticking payment in the staff view gives the same flags and no promotion |
| ContractLifecycle.TilesAgreeExceptUnpaidPayment | src/pages/ContractDetail.tsx:324-357 | the customer and staff tiles show the same text exactly when the flag is set or the tile is not the payment tile |
| Formatters.FormatResidentNumber | src/pages/Contract.tsx:65-69 | output is at most 14 characters: digits with a hyphen at position 6 once longer than six; its digits are the input's first 13 digits; up to six digits it is just the digits |
| Formatters.ResidentNumberIdempotent | src/pages/Contract.tsx:65-69 | masking masked text changes nothing |
| Formatters.ResidentNumberComplete | src/pages/Contract.tsx:112 | the masked text reaches 14 characters exactly when the input has at least 13 digits, and then holds exactly 13 |
| Formatters.FormatPhoneNumber | src/pages/Contract.tsx:71-76 | at most 13 characters; the plain, two-part and three-part shapes occur exactly for up to 3, 4 to 7, and 8 or more digits; its digits are the input's first 11 |
| Formatters.PhoneNumberIdempotent | src/pages/Contract.tsx:71-76 | masking masked text changes nothing |
| Formatters.PhoneNumberComplete | src/pages/Contract.tsx:120 | the masked text reaches 12 characters exactly when the input has at least 10 digits |
| ContractWizard.NextStep | src/pages/Contract.tsx:102-144 | the step moves exactly when the outcome is an advance, and then to the next step; the exit happens exactly on the signature step, to `/contract/1`; rejections happen only on the first and terms steps |
| ContractWizard.PreviousStep | src/pages/Contract.tsx:146-158 | going back moves one step down, and stays on the first step |
| ContractWizard.BasicInfoGuard | src/pages/Contract.tsx:103-128 | the first step is left exactly when the name has a non-blank character, the resident number has 14 characters or more and the phone has 12 or more; otherwise the first failing check, in the order name, resident number, phone, is the rejection reported |
| ContractWizard.BasicInfoGuardOnTypedInput | src/pages/Contract.tsx:252-261 | with the masks applied to what was typed, the first step is left exactly when the trimmed name is non-empty, 13 resident-number digits and at least 10 phone digits were typed |
| ContractWizard.BasicInfoExamples | src/pages/Contract.tsx:103-128 | a blank or empty name is rejected; `010-123-4567` passes the phone check; a 13-character resident number is rejected |
| ContractWizard.LaterStepGuards | src/pages/Contract.tsx:129-143 | payment always advances to terms; terms advances exactly when accepted; signature exits to the detail page and keeps its step |
| ContractWizard.PreviousUndoesNext | src/pages/Contract.tsx:102-158 | going back after an advance returns to the step before it; going back on the first step stays there |
| ContractWizard.ApplyUpdate | src/pages/Contract.tsx:97 | updating one field replaces exactly that field of the entry |
| ContractWizard.NatToString | src/pages/Contract.tsx:79 | `String(n)` is the canonical decimal numeral of `n`: digits only, decimal value `n`, no leading zero |
| ContractWizard.CanonicalNumeral | src/pages/Contract.tsx:79 | every digit string without a leading zero is `String` of its own value |
| ContractWizard.NatToStringInjective | src/pages/Contract.tsx:79 | distinct numbers give distinct ids |
| ContractWizard.NatToStringIsOne | src/pages/Contract.tsx:79 | the generated id is "1" exactly for n = 1, so added rows never take the first entry's id |
| ContractWizard.AddSchedule | src/pages/Contract.tsx:78-84 | adding appends one row and keeps the others; the new row has id `String(length + 1)`, type `중도금`, amount 0 and no due date |
| ContractWizard.RemoveSchedule | src/pages/Contract.tsx:86-88 | removal keeps, in order, exactly the rows whose id differs from the given one, with every copy of each, and no row with the given id |
| ContractWizard.UpdateSchedule | src/pages/Contract.tsx:90-100 | the length is unchanged; rows with the given id get the update and every other row stays |
| ContractWizard.RemoveUniqueDeletesOne | src/pages/Contract.tsx:86-88 | with unique ids, removing a row's id deletes that row alone and shrinks the list by one |
| ContractWizard.InitialSchedulesKeepFirst | src/pages/Contract.tsx:58-60 | the seeded schedule has its first entry with id "1" and unique ids |
| ContractWizard.AddKeepsFirst | src/pages/Contract.tsx:78-84 | adding keeps the first entry and the invariant that no later row has id "1" |
| ContractWizard.RemoveLaterKeepsFirst | src/pages/Contract.tsx:392-397 | removing any row but the first (the only rows with a remove button) keeps the first entry |
| ContractWizard.UpdateKeepsFirst | src/pages/Contract.tsx:405-443 | the type, amount and date inputs keep the first entry's id and the invariant |
| ContractWizard.PositionIdsAreUnique | src/pages/Contract.tsx:78-84 | rows whose ids are their positions plus one have unique ids |
| ContractWizard.AddKeepsPositions | src/pages/Contract.tsx:78-84 | adding to such a list keeps ids equal to positions |
| ContractWizard.RemoveThenAddCollides | src/pages/Contract.tsx:78-88 | from such a list, removing any row but the last and then adding gives two rows with the same id |
| ContractWizard.RemoveLastThenAddUnique | src/pages/Contract.tsx:78-88 | removing the last row and then adding keeps ids equal to positions and unique |
| ContractWizard.IdReuseAfterRemove | src/pages/Contract.tsx:78-88 | add, add, remove id "2", add: two rows share id "3", and removing "3" deletes both |
| ContractWizard.Wizard.constructor | src/pages/Contract.tsx:49-61 | the wizard starts on the first step with empty fields, terms unaccepted and the seeded schedule |
| ContractWizard.Wizard.EnterCustomerName | src/pages/Contract.tsx:244 | the name field takes the typed text and the masked fields stay masked |
| ContractWizard.Wizard.EnterResidentNumber | src/pages/Contract.tsx:252 | the field holds the mask of the typed text, so it stays a mask fixed point |
| ContractWizard.Wizard.EnterPhoneNumber | src/pages/Contract.tsx:261 | the field holds the mask of the typed text, so it stays a mask fixed point |
| ContractWizard.Wizard.SetTermsAccepted | src/pages/Contract.tsx:491 | the terms flag takes the checkbox value |
| ContractWizard.Wizard.AddPaymentSchedule | src/pages/Contract.tsx:78-84 | the schedule becomes `AddSchedule` of the old one and keeps its first entry |
| ContractWizard.Wizard.RemovePaymentScheduleRow | src/pages/Contract.tsx:392-397 | the remove button of a later row removes that row's id and keeps the first entry |
| ContractWizard.Wizard.RemovePaymentSchedule | src/pages/Contract.tsx:86-88 | the schedule becomes `RemoveSchedule` of the old one |
| ContractWizard.Wizard.UpdatePaymentSchedule | src/pages/Contract.tsx:90-100 | the schedule becomes `UpdateSchedule` of the old one; an update other than the id keeps the first entry |
| ContractWizard.Wizard.HandleNextStep | src/pages/Contract.tsx:102-144 | only the step changes, to what `NextStep` determines from the current fields, and the outcome is returned; from the first step it moves on exactly when the trimmed name is non-empty, the resident number holds 13 digits and the phone at least 10 |
| ContractWizard.Wizard.HandlePreviousStep | src/pages/Contract.tsx:146-158 | the step becomes `PreviousStep` of the old step |
| ProductDetail.NextIndex | src/pages/ProductDetail.tsx:54-58 | from a valid index, the result is a valid index, the successor modulo the image count |
| ProductDetail.PrevIndex | src/pages/ProductDetail.tsx:60-64 | from a valid index, the result is a valid index, the predecessor modulo the image count |
| ProductDetail.NextPrevInverse | src/pages/ProductDetail.tsx:54-64 | previous undoes next and next undoes previous |
| ProductDetail.NextTimesWraps | src/pages/ProductDetail.tsx:54-58 | k presses of next, up to the image count, move k places with one wrap past the end |
| ProductDetail.FullCycleReturns | src/pages/ProductDetail.tsx:54-58 | pressing next as many times as there are images returns to the start |
| ProductDetail.Carousel.constructor | src/pages/ProductDetail.tsx:52 | the carousel starts on the first image |
| ProductDetail.Carousel.NextImage | src/pages/ProductDetail.tsx:54-58 | the index becomes `NextIndex` of the old index and stays in range |
| ProductDetail.Carousel.PrevImage | src/pages/ProductDetail.tsx:60-64 | the index becomes `PrevIndex` of the old index and stays in range |
| ProductDetail.Carousel.Counter | src/pages/ProductDetail.tsx:110 | the counter shown is between 1 and the image count, one more than the index |
| Membership.RecordsFiledUnderTheirIds | src/pages/Membership.tsx:25-106 | the mock data holds the keys `M1234567` and `1`, each filed under its own record's id |
| Membership.RouteKey | src/pages/Membership.tsx:115 | defaulting the parameter to `''` gives the empty key exactly for a missing or empty parameter, and the parameter otherwise |
| Membership.Lookup | src/pages/Membership.tsx:115-118 | a record is found exactly when the key is in the data, and then the record's id is the key |
| Membership.LookupExamples | src/pages/Membership.tsx:115-118 | both mock ids are found; an unknown, empty or missing id gives the not-found page |
| MapView.FilteredLocations | src/pages/MapView.tsx:22-27 | the result is an order-preserving sub-list holding exactly the matching locations, all in the chosen region unless the region is `all`; for a list without repeated entries, such as the mock list, this fixes the result, and `Seqs.FilterCounts` counts copies in general |
| MapView.EverythingByDefault | src/pages/MapView.tsx:18-27 | region `all` with an empty query shows every location |
| MapView.SearchIgnoresDescription | src/pages/MapView.tsx:25-26 | a location's description never affects whether it matches |
| MapView.HighlightIsTheSelection | src/pages/MapView.tsx:86-112 | among the mock locations, whose ids are distinct, exactly the selected one is highlighted, and none without a selection |
| Home.FilteredResorts | src/pages/Home.tsx:52-55 | the result is an order-preserving sub-list that holds exactly the resorts whose name or location contains the query, ignoring ASCII case; for a list without repeated entries, such as the mock list, this fixes the result, and `Seqs.FilterCounts` counts copies in general |
| Home.EverythingByDefault | src/pages/Home.tsx:9-55 | the empty query shows all six resorts |
| Home.NarrowerQueryNarrowsResults | src/pages/Home.tsx:52-55 | a query containing another query gives a sub-list of the other's results |
| Home.TypingMoreNarrows | src/pages/Home.tsx:52-55 | extending the query can only drop resorts from the list |
| AllProducts.FilteredProducts | src/pages/AllProducts.tsx:67-72 | the result is an order-preserving sub-list holding exactly the matching products, all at the chosen location unless it is `all`; for a list without repeated entries, such as the mock list, this fixes the result, and `Seqs.FilterCounts` counts copies in general |
| AllProducts.EverythingByDefault | src/pages/AllProducts.tsx:15-72 | location `all` with an empty query shows all four products |
| AllProducts.SearchReadsNameAndTypeOnly | src/pages/AllProducts.tsx:70-71 | price, share type, duration, capacity and location never decide a match of the query |
| Contracts.CurrentStatus | src/pages/Contracts.tsx:87 | a missing or empty status parameter means `all`; any other value is used as given |
| Contracts.FilteredContracts | src/pages/Contracts.tsx:90-94 | the result is an order-preserving sub-list holding exactly the matching contracts, all with the chosen status unless it is `all`; for a list without repeated entries, such as the mock list, this fixes the result, and `Seqs.FilterCounts` counts copies in general |
| Contracts.EverythingByDefault | src/pages/Contracts.tsx:26-94 | with no status parameter and an empty query, all four contracts show |
| Contracts.UnknownStatusShowsNothing | src/pages/Contracts.tsx:90-94 | a status parameter that is not `all` and not one of the four statuses shows an empty list |
| Contracts.SearchIsCaseSensitive | src/pages/Contracts.tsx:92-93 | `Premium` finds the first contract and `premium` does not |
| Contracts.EveryShownStatusHasBadge | src/pages/Contracts.tsx:61-82 | every contract the list shows has a status with an entry in the badge table (line 146 indexes it) |
| Seqs.Filter | src/pages/Home.tsx:52 | `Array.prototype.filter` returns an order-preserving sub-list holding exactly the elements the predicate keeps (the copies are counted by `Seqs.FilterCounts`) |
| Seqs.FilterCounts | src/pages/Home.tsx:52 | the filter keeps every copy of a kept element and no copy of a dropped one |
| Seqs.FilterMonotone | src/pages/Home.tsx:52-55 | a stronger predicate gives a sub-list of a weaker one's result |
| Text.Digits | src/pages/Contract.tsx:66 | `replace(/[^\d]/g, '')` returns only ASCII digits and never lengthens the input (fully characterised by `Text.DigitsIsFilter`) |
| Text.DigitsIsFilter | src/pages/Contract.tsx:66 | `replace(/[^\d]/g, '')` is the filter keeping ASCII digits: every digit of the input, in order, and nothing else |
| Text.DigitsAppend | src/pages/Contract.tsx:66 | stripping non-digits distributes over concatenation |
| Text.ToLower | src/pages/Home.tsx:53 | lowercasing keeps the length and maps each ASCII capital to its small letter |
| Text.Trim | src/pages/Contract.tsx:104 | `trim()` returns a piece of the input, no longer than it, that neither starts nor ends with white space |
| Text.TrimEmptyIff | src/pages/Contract.tsx:104 | `trim()` is empty exactly when every character is white space |
| Text.Contains | src/pages/Home.tsx:53-54 | `includes` finds nothing longer than the string and always finds the empty string |
| Text.ContainsTransitive | src/pages/Home.tsx:53-54 | `includes` is transitive |
| Text.ContainsLower | src/pages/Home.tsx:53-54 | containment survives lowercasing both sides |

## Left out

- Rendering, styling, icons, dialogs and toasts are left out. A validation toast
  is modelled as a `Rejected` outcome that leaves the state unchanged.
- Navigation is left out: `navigate`, "Back" buttons, `window.open`, the quick
  menu and routing. The wizard's last step returns `ExitTo("/contract/1")`. The
  membership page's route parameter is an `Option` argument.
- The file input is reduced to "a file was chosen or not". File names and
  contents are not modelled.
- zustand's subscription and re-rendering are not modelled. A store method
  changes the state at once. The payment handler's `progress` is taken as the
  state before the call: that is the closure's value during one event.
- An explicitly `undefined` value inside a partial progress patch is not
  modelled. Each flag of a patch is either absent or a boolean.
- The staff status selector's `newStatus as any` is not modelled. Values outside
  the four statuses cannot reach the store in the model, and the select offers
  only those four.
- `updatePaymentSchedule` accepts `string | number` for any key. The model types
  each field. `parseInt` of an empty or non-numeric amount (`NaN`) is not
  modelled: amounts are integers.
- The wizard's contract type, membership type, share type, share ratio, special
  terms and the signature dialog are left out. They are plain `useState` fields
  with no logic. The wizard's `handleSignatureComplete` is left out: it only
  closes the dialog, shows a toast and navigates.
- The inputs' `maxLength={14}` and `maxLength={13}` (Contract.tsx:253, 262) are not
  modelled. The `Enter*` methods accept any string, so the lemmas cover every
  input that could reach the masks.
- The step indicator's highlighting (Contract.tsx:189-198) is left out.
- The staff view's `handleFileUpload` and `handlePaymentMessage` are left out:
  they only show toasts.
- `Text.ToLower` lowercases ASCII capitals only. The Korean mock data has no
  case. JavaScript's full Unicode case mapping is not modelled.
- Membership.Lookup does not model keys inherited from `Object.prototype` (such
  as `constructor`), which a JavaScript object lookup would find.
- Marker positions, coordinates, image URLs and currency formatting
  (`toLocaleString`) are left out.
- The carousel class fixes the image count at the product's four images. The
  index functions are stated for any length.
- The resort detail, product list, onboarding, notifications and app shell files
  hold no modelled logic and are not part of this model.
