# MediStock core in Dafny

MediStock is an iOS app for a pharmacy's stock. Its staff sign in and list the medicines, aisle by aisle. They search and sort the list, add and delete medicines, and raise or lower a stock. Every change leaves an entry in a per-medicine history. The app stores everything in a cloud document store, and a hosted authentication service handles the accounts.

This project models the app's two view models.

- `MedicineStockViewModel` keeps in-memory mirrors of two store collections: `medicines` and `history`. It also holds:
  - the aisle list derived from the medicines;
  - one error slot;
  - the loading flags;
  - the history paging cursor.

  The filtered and sorted list is computed from the mirror.
- `SessionStore` holds the signed-in user and an error slot. It validates e-mails and passwords before it calls the authentication service.

Both view models are classes whose methods assign their fields. In the model they are Dafny classes whose methods frame what they change. The pure computations they rely on are functions with lemmas:

- the form guards;
- the `Int(String)` parse;
- finding the mirror entry to rewrite;
- decoding and paging;
- the aisle list;
- the search filter and the sorts;
- the password policy.

Every call to the store or to the authentication service becomes a parameter holding its outcome:

- a `bool` for a write that may throw;
- a `FetchResult` for a query, meaning its documents or a failure;
- an `AuthOutcome` for the authentication service.

Decoding a document can fail. A document that does not decode is carried as `decoded == None` and is dropped, as `compactMap { try? ... }` drops it. Some values come from the environment; they become parameters too:

- the generated UUID;
- the current time;
- `Auth.auth().currentUser`.

Two ghost logs stand in for what the emulator tests observe:

- `storeWrites` lists the writes the store accepted, in order;
- `authCalls` lists the calls made to the authentication service.

Files:

- `wrappers.dfy`: the `Option` and `Result` datatypes.
- `medic_model.dfy`: the error cases, the sort and loading options, the `Medicine` and `HistoryEntry` records, and the configuration.
- `int_text.dfy`: Swift's `Int(String)` and `"\(n)"` for 64-bit integers.
- `string_order.dfy`: `String` `<` as the code-point order, and `Array(Set(xs)).sorted()`.
- `text_search.dfy`: `lowercased()` and `contains(_:)`.
- `stock_logic.dfy`: the pure parts of the medicine view model.
- `medicine_stock_view_model.dfy`: the `MedicineStockViewModel` class.
- `session_store.dfy`: the password policy, the provider's error codes and the `SessionStore` class.
- `scenarios.dfy`: the view models' emulator tests, replayed on the model.

The file that declares the `Medicine` record is not part of this model. Its fields (`id: String?`, `name`, `stock: Int`, `aisle`) are read off their uses.

## Model

| member | source | states |
|---|---|---|
| MedicModel.ErrorDescription | MediStock/Model/MedicError.swift:39-82 | every error case has a non-empty user-facing message (the texts are the app's own) |
| IntText.ParseInt | MediStock/ViewModel/MedicineStockViewModel.swift:93 | `Int(String)`: a result lies in the 64-bit range, the text was an optional sign followed by one or more decimal digits, and the result is the number those digits spell, negated after a '-' |
| IntText.ParseSignedDigits | MediStock/ViewModel/MedicineStockViewModel.swift:93 | conversely, every run of digits, bare, after '+' or after '-', parses to the number it spells exactly when that number is in the 64-bit range (so "007", "+7" and "-0" parse) |
| IntText.FormatInt | MediStock/ViewModel/MedicineStockViewModel.swift:140-142 | the decimal text interpolated into the history texts; negative numbers get a leading '-' |
| IntText.NatDigitsValue | MediStock/ViewModel/MedicineStockViewModel.swift:140-142 | the digits written for a natural number read back as that number |
| IntText.ParseFormatRoundTrip | MediStock/ViewModel/MedicineStockViewModel.swift:93 | every 64-bit integer written in decimal parses back to itself |
| IntText.ParseExamples | MediStockTests/MedicineStockViewModelTests.swift:34-36 | "10" gives 10, "-1" gives -1, "007" gives 7 and "-0" gives 0; empty, sign-only, non-digit and space-prefixed texts give nil |
| StringOrder.StrLt | MediStock/ViewModel/MedicineStockViewModel.swift:269 | `String` `<` on code points: a prefix sorts before a longer string and never after it |
| StringOrder.StrLtIrreflexive | MediStock/ViewModel/MedicineStockViewModel.swift:269 | no string sorts before itself |
| StringOrder.StrLtTransitive | MediStock/ViewModel/MedicineStockViewModel.swift:269 | string `<` is transitive |
| StringOrder.StrLtTotal | MediStock/ViewModel/MedicineStockViewModel.swift:269 | of two different strings one sorts before the other |
| StringOrder.StrLtAsymmetric | MediStock/ViewModel/MedicineStockViewModel.swift:283 | two strings never sort before each other |
| StringOrder.StrLeTransitive | MediStock/ViewModel/MedicineStockViewModel.swift:283 | "not after" is transitive, which is what a sort by `<` needs |
| StringOrder.InsertDistinct | MediStock/ViewModel/MedicineStockViewModel.swift:269 | adding a string to a strictly ascending list keeps it strictly ascending, and its members are the old ones plus the new one |
| StringOrder.SortedDistinct | MediStock/ViewModel/MedicineStockViewModel.swift:269 | `Array(Set(xs)).sorted()`: strictly ascending (sorted, no duplicates), with exactly the members of `xs` |
| StringOrder.AscendingUnique | MediStock/ViewModel/MedicineStockViewModel.swift:269 | two strictly ascending lists with the same members are equal |
| StringOrder.SortedDistinctIsTheSortedSet | MediStock/ViewModel/MedicineStockViewModel.swift:269 | any strictly ascending list of exactly the members of `xs` is `SortedDistinct(xs)`, so the result depends only on the set |
| TextSearch.LowerChar | MediStock/ViewModel/MedicineStockViewModel.swift:277 | 'A'..'Z' map to 'a'..'z'; every character outside the upper-case ranges is left alone |
| TextSearch.Lowercased | MediStock/ViewModel/MedicineStockViewModel.swift:277 | `lowercased()` keeps the length and leaves no ASCII capital |
| TextSearch.LowercasedIdempotent | MediStock/ViewModel/MedicineStockViewModel.swift:277 | lower-casing twice is lower-casing once |
| TextSearch.Contains | MediStock/ViewModel/MedicineStockViewModel.swift:277 | `contains(_:)`: a contained text is no longer than the text containing it; `ContainsAt` gives its meaning |
| TextSearch.ContainsAt | MediStock/ViewModel/MedicineStockViewModel.swift:277 | `contains` holds exactly when the needle occurs at some position of the haystack |
| StockLogic.ValidateNewMedicine | MediStock/ViewModel/MedicineStockViewModel.swift:88-101 | the guards in their order: `invalidMedicineName` iff the name is empty; `invalidStock` iff the name is set and the stock text is not an `Int` ≥ 0; `invalidAisle` iff those pass and the aisle is empty; success iff all pass, carrying the parsed stock |
| StockLogic.ValidFormAccepted | MediStock/ViewModel/MedicineStockViewModel.swift:87-101 | a named medicine with an aisle and any non-negative `Int` typed in decimal passes, with that stock |
| StockLogic.InvalidFormsRejected | MediStockTests/MedicineStockViewModelTests.swift:34-36 | the three invalid test forms meet `invalidMedicineName`, `invalidStock` and `invalidAisle` |
| StockLogic.FirstIndexWithId | MediStock/ViewModel/MedicineStockViewModel.swift:130 | `firstIndex(where:)`: the index found holds the id and no earlier entry does; none means no entry holds it |
| StockLogic.FirstIndexFollowsIds | MediStock/ViewModel/MedicineStockViewModel.swift:148 | lists with the same ids, entry by entry, find the same index, so the rollback finds the entry the optimistic write changed |
| StockLogic.WithStock | MediStock/ViewModel/MedicineStockViewModel.swift:130-132 | only the first entry with the id gets the new stock; every other entry, and every id, is unchanged; no entry with the id means no change |
| StockLogic.WithStockOverwrites | MediStock/ViewModel/MedicineStockViewModel.swift:148-150 | a second stock write to the same entry replaces the first |
| StockLogic.WithStockSameValue | MediStock/ViewModel/MedicineStockViewModel.swift:148-150 | writing back the stock an entry already has leaves the mirror as it was |
| StockLogic.OptimisticWriteRolledBack | MediStock/ViewModel/MedicineStockViewModel.swift:129-151 | the optimistic write followed by the rollback to the entry's own stock gives back the original mirror |
| StockLogic.Decoded | MediStock/ViewModel/MedicineStockViewModel.swift:259-261 | `compactMap { try? data(as:) }`: at most as many records as documents, all of them when every document decodes, and exactly the decoded records |
| StockLogic.DecodedAppend | MediStock/ViewModel/MedicineStockViewModel.swift:246-247 | decoding two batches one after the other decodes their concatenation |
| StockLogic.PageOf | MediStock/ViewModel/MedicineStockViewModel.swift:242 | `prefix(pageSize)`: a prefix of at most `pageSize` documents, all of them when there are no more |
| StockLogic.PageCursor | MediStock/ViewModel/MedicineStockViewModel.swift:218 | a cursor exists iff more than `pageSize` documents came back, and it is the last document kept |
| StockLogic.NextHistory | MediStock/ViewModel/MedicineStockViewModel.swift:236-251 | `loadMore` keeps the old history as a prefix and appends the decoded page; otherwise the page replaces it; the page is at most `pageSize` entries |
| StockLogic.TwoPages | MediStock/ViewModel/MedicineStockViewModel.swift:193-251 | a full first page followed by a `loadMore` page gives the decoded entries of the first page's kept documents followed by the second page's |
| StockLogic.MedicinesAfterFetch | MediStock/ViewModel/MedicineStockViewModel.swift:28-85 | the eager load replaces the mirror; the paged load replaces it, or appends on `loadMore`; a failure keeps the mirror, except that a first paged load that fails leaves it empty |
| StockLogic.HistoryAfterFetch | MediStock/ViewModel/MedicineStockViewModel.swift:193-234 | a fresh load is at most one page; `loadMore` extends the old history; a failed fresh load leaves it empty and a failed `loadMore` leaves it unchanged |
| StockLogic.CursorAfterFetch | MediStock/ViewModel/MedicineStockViewModel.swift:199-218 | after a fetch the cursor is set iff more than `pageSize` documents came back; a failed fresh load clears it |
| StockLogic.FreshHistoryLoadForgets | MediStock/ViewModel/MedicineStockViewModel.swift:199-202 | a fresh history load gives the same history and cursor whatever they held before |
| StockLogic.AisleOf | MediStock/ViewModel/MedicineStockViewModel.swift:269 | `map { $0.aisle }`: one aisle per medicine, in order |
| StockLogic.SortedAisles | MediStock/ViewModel/MedicineStockViewModel.swift:269 | the aisle list is strictly ascending and holds exactly the aisles of the mirror's medicines |
| StockLogic.SortedAislesUnique | MediStock/ViewModel/MedicineStockViewModel.swift:269 | any strictly ascending list of exactly the mirror's aisles is the aisle list |
| StockLogic.SortedAislesFollowsAisles | MediStock/ViewModel/MedicineStockViewModel.swift:269 | lists that agree on every entry's aisle have the same aisle list |
| StockLogic.WithStockKeepsAisles | MediStock/ViewModel/MedicineStockViewModel.swift:130-132 | a stock change leaves the aisle list as it was |
| StockLogic.FilterBySearch | MediStock/ViewModel/MedicineStockViewModel.swift:275-279 | the filter keeps every matching medicine as many times as the mirror holds it, drops every other one, and keeps the mirror's order |
| StockLogic.BeforeAsymmetric | MediStock/ViewModel/MedicineStockViewModel.swift:281-288 | no two medicines sort before each other under either sort |
| StockLogic.NotBeforeTransitive | MediStock/ViewModel/MedicineStockViewModel.swift:281-288 | "not before" is transitive under each sort |
| StockLogic.InsertSorted | MediStock/ViewModel/MedicineStockViewModel.swift:281-288 | inserting into a sorted list keeps it sorted and adds exactly the new entry |
| StockLogic.SortByOption | MediStock/ViewModel/MedicineStockViewModel.swift:283-285 | `sort(by:)`: the result is sorted under the option and is a permutation of the input |
| StockLogic.ApplySort | MediStock/ViewModel/MedicineStockViewModel.swift:281-288 | the chosen sort; `.none` leaves the list exactly as it was |
| StockLogic.FilteredAndSorted | MediStock/ViewModel/MedicineStockViewModel.swift:272-291 | an empty search shows every medicine and a non-empty one exactly the matching ones, each with its multiplicity; the result is sorted under the option; with `.none` it keeps the mirror's order, and with `.none` and no search it is the mirror itself |
| StockLogic.NameSortOrdersNames | MediStock/ViewModel/MedicineStockViewModel.swift:283 | under `.name` the lower-cased names are in non-decreasing order |
| StockLogic.StockSortOrdersStocks | MediStock/ViewModel/MedicineStockViewModel.swift:285 | under `.stock` the stocks are in non-decreasing order |
| StockViewModel.NewHistoryEntry | MediStock/ViewModel/MedicineStockViewModel.swift:178-184 | the entry has no id yet, the medicine id, the signed-in user's uid and email, the given action and details, and the current time |
| StockViewModel.HistoryWrites | MediStock/ViewModel/MedicineStockViewModel.swift:174-191 | `addHistory` writes one entry iff there is a user with an email and the write succeeds, otherwise nothing; the entry has no id, the medicine id, the user's uid and email, the action, the details and the current time |
| StockViewModel.ErrorAfterHistory | MediStock/ViewModel/MedicineStockViewModel.swift:176-190 | a signed-in user's failed write sets `addHistoryError`; in every other case the error slot is left as it was |
| StockViewModel.StockChangeAction | MediStock/ViewModel/MedicineStockViewModel.swift:140 | the action text starts with "Increased" for a positive amount and "Decreased" otherwise, and ends with the amount in decimal |
| StockViewModel.StockChangeDetails | MediStock/ViewModel/MedicineStockViewModel.swift:142 | the details text starts with "Stock changed from ", then the old stock in decimal, and ends with the new stock in decimal |
| StockViewModel.StockChangeTextsReadBack | MediStock/ViewModel/MedicineStockViewModel.swift:140-142 | the amount and both stocks parse back from the texts of a stock change |
| StockViewModel.StockIncreaseAction | MediStock/ViewModel/MedicineStockViewModel.swift:140 | raising a stock by 1 logs "Increased stock of Aspirine by 1" |
| StockViewModel.StockIncreaseDetails | MediStock/ViewModel/MedicineStockViewModel.swift:142 | raising stock 10 to 11 logs "Stock changed from 10 to 11" |
| StockViewModel.StockDecreaseText | MediStock/ViewModel/MedicineStockViewModel.swift:140 | a negative amount keeps its sign: "Decreased stock of Test Stock by -3" |
| StockViewModel.MedicineStockViewModel.constructor | MediStock/ViewModel/MedicineStockViewModel.swift:8-24 | empty mirrors, no error, no flags, no search, `.none` sort, no cursors |
| StockViewModel.MedicineStockViewModel.HasMoreHistoryToLoad | MediStock/ViewModel/MedicineStockViewModel.swift:18-20 | true exactly when a history cursor is held; `FetchHistory` ties this to the last page having come back with the over-fetched document |
| StockViewModel.MedicineStockViewModel.HasMoreMedicines | MediStock/ViewModel/MedicineStockViewModel.swift:21-24 | always false, since no method sets the medicine cursor |
| StockViewModel.MedicineStockViewModel.FetchMedicines | MediStock/ViewModel/MedicineStockViewModel.swift:28-35 | the configured strategy decides the new mirror; a fetch derives the aisles from it, a failure sets `fetchDataError`; the aisle list stays strictly ascending |
| StockViewModel.MedicineStockViewModel.FetchMedicinesAndAisles | MediStock/ViewModel/MedicineStockViewModel.swift:37-47 | the eager load: the mirror is the decoded collection, or unchanged with `fetchDataError`; loading ends false |
| StockViewModel.MedicineStockViewModel.FetchMedicinesPaged | MediStock/ViewModel/MedicineStockViewModel.swift:49-85 | the paged load: the mirror is emptied unless `loadMore`, then the page is appended; a failure sets `fetchDataError`; the flags end as the code leaves them |
| StockViewModel.MedicineStockViewModel.ProcessMedicinesSnapshot | MediStock/ViewModel/MedicineStockViewModel.swift:253-270 | append or replace with the decoded documents, then the aisle list of the whole mirror |
| StockViewModel.MedicineStockViewModel.AddMedicine | MediStock/ViewModel/MedicineStockViewModel.swift:87-118 | a failed guard sets its error and writes nothing; a failed write sets `addMedicineError`; otherwise the new document (no id, parsed stock) is written, then its "Added" history entry, and the new id is returned |
| StockViewModel.MedicineStockViewModel.UpdateStock | MediStock/ViewModel/MedicineStockViewModel.swift:120-153 | no id: `invalidMedicineId`; a result below 0: nothing changes; otherwise the mirror entry gets the new stock; a successful write is followed by its history entry and a fresh history load; a failed write restores the argument's stock with `updateStockError`, which is the mirror as it was when the argument carries the mirror's stock; the aisle list stays correct |
| StockViewModel.MedicineStockViewModel.DeleteMedicine | MediStock/ViewModel/MedicineStockViewModel.swift:155-172 | no id: `invalidMedicineId`; a failed delete: `deleteMedicineError` and no write; otherwise the delete and its "Deleted" history entry; the mirror is not pruned |
| StockViewModel.MedicineStockViewModel.AddHistory | MediStock/ViewModel/MedicineStockViewModel.swift:174-191 | the store gains exactly `HistoryWrites` and the error slot becomes `ErrorAfterHistory` |
| StockViewModel.MedicineStockViewModel.FetchHistory | MediStock/ViewModel/MedicineStockViewModel.swift:193-234 | no id: `invalidMedicineId` and nothing else changes; otherwise history and cursor as `HistoryAfterFetch` and `CursorAfterFetch`, `fetchHistoryError` on failure, and loading ends false; after a fetch there is more to load iff more than `pageSize` documents came back |
| StockViewModel.MedicineStockViewModel.ProcessHistorySnapshot | MediStock/ViewModel/MedicineStockViewModel.swift:236-251 | the history becomes `NextHistory` of the page |
| StockViewModel.MedicineStockViewModel.FilteredAndSortedMedicines | MediStock/ViewModel/MedicineStockViewModel.swift:272-291 | the view's list has the multiset, order and subsequence properties of `FilteredAndSorted` over the current mirror, search text and sort option |
| Session.IsPasswordValid | MediStock/ViewModel/SessionStore.swift:38-43 | `isPasswordValid` accepts a password iff it has at least 10 characters, all from the admitted set, with an upper-case letter, a lower-case letter, a digit and a symbol |
| Session.MatchFrom | MediStock/ViewModel/SessionStore.swift:39-41 | the one-pass scan from a position accepts iff the rest completes the look-aheads seen so far, within the admitted characters and the length bound |
| Session.PasswordExamples | MediStockTests/SessionStoreTests.swift:19-31 | "Test123456!" passes the policy and "weak" does not |
| Session.SignUpError | MediStock/ViewModel/SessionStore.swift:26-35 | code 17007 gives `emailAlreadyInUse`, code 17008 gives `invalidEmail`, every other code `signUpFailed` |
| Session.SessionStore.constructor | MediStock/ViewModel/SessionStore.swift:8-9 | no session and no error |
| Session.SessionStore.SignUp | MediStock/ViewModel/SessionStore.swift:12-36 | an empty email gives `invalidEmail` and a password outside the policy gives `weakPassword`, neither calling the provider; otherwise one `createUser` call; success sets the session and clears the error; failure sets the mapped error and keeps the session |
| Session.SessionStore.SignIn | MediStock/ViewModel/SessionStore.swift:45-62 | an empty email gives `invalidEmail` and an empty password `invalidPassword`, neither calling the provider; otherwise one sign-in call; success sets the session and clears the error; failure gives `signInFailed` |
| Session.SessionStore.SignOut | MediStock/ViewModel/SessionStore.swift:64-72 | success clears session and error; failure keeps the session and sets `signOutFailed` |
| Scenarios.SearchAspKeepsAspirine | MediStockTests/MedicineStockViewModelTests.swift:134-148 | searching "asp" among Aspirine, Paracétamol and Ibuprofène keeps only Aspirine |
| Scenarios.SortedByStockStartsAtMinimum | MediStock/ViewModel/MedicineStockViewModel.swift:285 | the first entry of the stock-sorted list has a stock no greater than any medicine's |
| Scenarios.StockSortStartsWithAspirine | MediStockTests/MedicineStockViewModelTests.swift:154-155 | in whatever order the store returns the three test medicines, the stock sort starts with stock 10 |
| Scenarios.SortedByNameStartsAtMinimum | MediStock/ViewModel/MedicineStockViewModel.swift:283 | no medicine's name sorts before the first entry's in the name-sorted list |
| Scenarios.NameSortStartsWithAspirine | MediStockTests/MedicineStockViewModelTests.swift:150-152 | in whatever order they are returned, the name sort starts with Aspirine |
| Scenarios.InvalidMedicinesRefused | MediStockTests/MedicineStockViewModelTests.swift:158-188 | the three invalid forms return nil with their own errors, in order, and nothing is written |
| Scenarios.AddTestStock | MediStockTests/MedicineStockViewModelTests.swift:102-108 | adding "Test Stock" with stock "10" leaves the store with exactly the new document (no id, stock 10, aisle "A1") followed by its "Added" history entry |
| Scenarios.AddAndLoad | MediStockTests/MedicineStockViewModelTests.swift:101-110 | after adding "Test Stock" and loading, the mirror holds the stored medicine, and the store holds exactly the new document (no id, stock 10, aisle "A1") and its "Added" history entry |
| Scenarios.IncreaseAndReload | MediStockTests/MedicineStockViewModelTests.swift:117-119 | +5 then a reload: the mirror shows 15, and the store gains the stock write and the "Increased" entry |
| Scenarios.DecreaseAndReload | MediStockTests/MedicineStockViewModelTests.swift:126-128 | -3 then a reload: the mirror shows 12, and the store gains the stock write and the "Decreased" entry |
| Scenarios.AllHistoryDecoded | MediStockTests/MedicineStockViewModelTests.swift:130-131 | the first history page over the three stored entries of "Test Stock" decodes to those entries with their document ids, newest first |
| Scenarios.StockUpdates | MediStockTests/MedicineStockViewModelTests.swift:101-132 | +5 then -3 on stock 10, each followed by a reload, shows 15, then 12; the store holds exactly the document, the two stock writes and the three history entries; fetching the medicine's history from those entries gives exactly three, newest first |
| Scenarios.DecreaseBelowZero | MediStockTests/MediStockTests.swift:209-241 | the commented-out below-zero test: "Low Stock Test" with stock 2, lowered by 3, writes nothing more, keeps stock 2 and sets no error |
| Scenarios.FailedWriteRolledBack | MediStock/ViewModel/MedicineStockViewModel.swift:147-152 | a failed write of the mirror's own entry leaves its stock as it was, with `updateStockError` and no write |
| Scenarios.HistoryPaging | MediStock/ViewModel/MedicineStockViewModel.swift:193-251 | with pages of 2 over three history documents, the first page shows two entries and more to load, and the next adds the third and ends |
| Scenarios.SignOutPasswordValid | MediStockTests/SessionStoreTests.swift:21 | the sign-out test's password "Test345678!" meets the policy |
| Scenarios.SessionFlows | MediStockTests/SessionStoreTests.swift:83-112 | an empty email and a weak password give their errors without a provider call; sign-up then sign-out ends with no session and no error |

## Where the code and the documented behaviour differ

The model follows the code in every case below.

- A first paged medicines load (`loadMore` false) empties the mirror before the query. If the query then fails, the mirror stays empty rather than unchanged.
- After such a failure `aisles` keeps the old list, because only a processed snapshot derives it. The aisle list then names aisles that the empty mirror no longer holds.
- A fresh history load empties the history and clears the cursor. A failed query leaves them that way.
- A paged medicines load appends the whole returned batch, including the one over-fetched document. Only history pages are cut to `pageSize`.
- `lastMedicineDocument` is never assigned, so `hasMoreMedicines` is always false.
- With `useFirebaseFiltering` on, the paged query also filters and orders on the server. The mirror then holds that query's result, and the view still filters and sorts it on the client.
- When the stock write fails, `updateStock` restores the stock of the medicine it was given, not the mirror's previous value. The two agree when the caller passes the mirror's own entry, as the detail screen does. `UpdateStock` proves the mirror is restored in that case.
- The view model never clears its error slot. A later success leaves an earlier error in place.
- The `user` parameter of `addMedicine`, `updateStock` and `deleteMedicine` is unused. History entries take the uid and email of the signed-in user, and nothing is recorded without one.
- `loadingHistoryStrategy` is never read, and history is always paged.
- `fetchHistory` sets `lastHistoryDocument` from the raw batch before it processes the page.

## Left out

- Queries are not built. That covers the collection names, `whereField`, `order(by:)`, `limit(to: pageSize + 1)`, `start(afterDocument:)` and the `\u{f8ff}` prefix range. Each query's result is a parameter, so the model does not check that the cursor selects the next page.
- The `error:` argument of `processMedicinesSnapshot` and `processHistorySnapshot` is always nil at its call sites, so its guard is not modelled.
- Concurrency is left out: `async`/`await`, `@MainActor`, and interleaving between overlapping calls. Each method runs to completion.
- `@Published` change notifications, SwiftUI and the views are left out.
- Firebase configuration and emulator wiring are left out. `useEmulatorFirebase` is carried in the configuration and never read by the view models; only the login screen reads it.
- The UUID, the current date and `Auth.auth().currentUser` are parameters, not computed.
- `MedicError.id` is `localizedDescription` and is used only for alerts. It is not modelled.
- Document ids filled in by `@DocumentID` come with the decoded record, so decoding itself is not modelled.
- MedicModel.ErrorDescription: distinct cases are not proved to have distinct texts (which alerts rely on as ids), because comparing twenty literals pairwise is too costly for the verifier at this size.
- StockViewModel.MedicineStockViewModel.UpdateStock: Swift traps when `stock + amount` overflows 64 bits. That trap is not modelled, and the sum is computed without bound.
- StockLogic.SortByOption: the contract states sorted and a permutation but not an order among equal keys, since Swift's `sort` is not documented as stable.
- TextSearch.LowerChar: lower-casing covers ASCII and the Latin-1 capitals only. Full Unicode case mapping and normalisation are left out, so `contains` compares code points.
- StringOrder.StrLt: `String` `<` is taken as code-point order. Swift compares canonically equivalent strings as equal, and that is not modelled.
- Session.IsPasswordValid: `\d` is taken as the ASCII digits, whereas the ICU regex engine also accepts other Unicode decimal digits.
- PageSize is at least 1, because `pageSize - 1` indexes the batch.
