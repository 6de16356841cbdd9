/**
 * `MedicineStockViewModel`: the in-memory mirrors of the `medicines` and
 * `history` collections, the derived aisle list, one error slot, the loading
 * flags and the history cursor. Every remote call is a parameter holding its
 * outcome; `storeWrites` records, in order, the writes the store accepted.
 */
module StockViewModel {
  import opened Wrappers
  import opened MedicModel
  import opened StringOrder
  import opened IntText
  import opened StockLogic

  /** `Auth.auth().currentUser`, as far as `addHistory` reads it. */
  datatype AuthUser = AuthUser(uid: string, email: Option<string>)

  /** A write the store accepted. */
  datatype StoreWrite =
    | SetMedicine(documentId: string, medicine: Medicine)
    | UpdateStockField(documentId: string, stock: int)
    | DeleteMedicineDocument(documentId: string)
    | AddHistoryDocument(entry: HistoryEntry)

  /** `addHistory` writes only for a signed-in user with an email. */
  predicate CanRecordHistory(currentUser: Option<AuthUser>)
  {
    currentUser.Some? && currentUser.value.email.Some?
  }

  /** The entry `addHistory` builds: no id yet, the user's uid and email, the given texts and time. */
  function NewHistoryEntry(currentUser: Option<AuthUser>, medicineId: string, action: string,
                           details: string, now: Timestamp): (e: HistoryEntry)
    requires CanRecordHistory(currentUser)
    ensures e.id.None? && e.medicineId == medicineId
    ensures e.userId == currentUser.value.uid && e.user == currentUser.value.email.value
    ensures e.action == action && e.details == details && e.timestamp == now
  {
    HistoryEntry(None, medicineId, currentUser.value.uid, currentUser.value.email.value, action, details, now)
  }

  /** What `addHistory` adds to the store: its entry, when there is a user and the write goes through. */
  function HistoryWrites(currentUser: Option<AuthUser>, medicineId: string, action: string,
                         details: string, now: Timestamp, ok: bool): (w: seq<StoreWrite>)
    ensures |w| <= 1
    ensures |w| == 1 <==> CanRecordHistory(currentUser) && ok
    ensures |w| == 1 ==>
      (w[0].AddHistoryDocument? && w[0].entry.id.None? && w[0].entry.medicineId == medicineId &&
       w[0].entry.userId == currentUser.value.uid && w[0].entry.user == currentUser.value.email.value &&
       w[0].entry.action == action && w[0].entry.details == details && w[0].entry.timestamp == now)
  {
    if CanRecordHistory(currentUser) && ok then
      [AddHistoryDocument(NewHistoryEntry(currentUser, medicineId, action, details, now))]
    else []
  }

  /** The error slot after `addHistory`: only a failed write with a user to record changes it. */
  function ErrorAfterHistory(error: Option<MedicError>, currentUser: Option<AuthUser>, ok: bool): (e: Option<MedicError>)
    ensures CanRecordHistory(currentUser) && !ok ==> e == Some(AddHistoryError)
    ensures !(CanRecordHistory(currentUser) && !ok) ==> e == error
  {
    if CanRecordHistory(currentUser) && !ok then Some(AddHistoryError) else error
  }

  /**
   * The medicine handed to `updateStock` agrees with the mirror on the stock
   * of its entry (as when the detail screen passes the mirror's own entry).
   */
  ghost predicate RollbackTargetMatches(medicines: seq<Medicine>, medicine: Medicine)
  {
    medicine.id.Some? &&
    (FirstIndexWithId(medicines, medicine.id.value).Some? ==>
       medicines[FirstIndexWithId(medicines, medicine.id.value).value].stock == medicine.stock)
  }

  /** The action text of a stock change: "Increased" for a positive amount, "Decreased" otherwise. */
  function StockChangeAction(name: string, amount: int): (s: string)
    ensures |s| > 9 && s[..9] == (if amount > 0 then "Increased" else "Decreased")
    ensures |s| >= |FormatInt(amount)| && s[|s| - |FormatInt(amount)|..] == FormatInt(amount)
  {
    (if amount > 0 then "Increased" else "Decreased") + " stock of " + name + " by " + FormatInt(amount)
  }

  /** The details text of a stock change: the stock before and after. */
  function StockChangeDetails(oldStock: int, newStock: int): (s: string)
    ensures |s| >= 19 + |FormatInt(oldStock)| && s[..19] == "Stock changed from "
    ensures s[19..19 + |FormatInt(oldStock)|] == FormatInt(oldStock)
    ensures |s| >= |FormatInt(newStock)| && s[|s| - |FormatInt(newStock)|..] == FormatInt(newStock)
  {
    "Stock changed from " + FormatInt(oldStock) + " to " + FormatInt(newStock)
  }

  /** The amount and both stocks can be read back from the texts of a stock change. */
  lemma StockChangeTextsReadBack(name: string, amount: int, oldStock: int, newStock: int)
    requires IntMin <= amount <= IntMax && IntMin <= oldStock <= IntMax && IntMin <= newStock <= IntMax
    ensures var a, n := StockChangeAction(name, amount), |FormatInt(amount)|;
      ParseInt(a[|a| - n..]) == Some(amount)
    ensures var d, o, n := StockChangeDetails(oldStock, newStock), |FormatInt(oldStock)|, |FormatInt(newStock)|;
      ParseInt(d[19..19 + o]) == Some(oldStock) && ParseInt(d[|d| - n..]) == Some(newStock)
  {
    ParseFormatRoundTrip(amount);
    ParseFormatRoundTrip(oldStock);
    ParseFormatRoundTrip(newStock);
  }

  /** Raising a stock by 1 logs the action text the end-to-end tests look for. */
  lemma StockIncreaseAction()
    ensures StockChangeAction("Aspirine", 1) == "Increased stock of Aspirine by 1"
  {
    assert FormatInt(1) == "1";
    assert StockChangeAction("Aspirine", 1) == "Increased" + " stock of " + "Aspirine" + " by " + "1";
  }

  /** Raising stock 10 to 11 logs both numbers in the details text. */
  lemma StockIncreaseDetails()
    ensures StockChangeDetails(10, 11) == "Stock changed from 10 to 11"
  {
    assert FormatInt(10) == "10" by {
      assert NatDigits(10) == NatDigits(1) + ['0'];
    }
    assert FormatInt(11) == "11" by {
      assert NatDigits(11) == NatDigits(1) + ['1'];
    }
    assert StockChangeDetails(10, 11) == "Stock changed from " + "10" + " to " + "11";
  }

  /** A negative amount is printed with its sign after "by". */
  lemma StockDecreaseText()
    ensures StockChangeAction("Test Stock", -3) == "Decreased stock of Test Stock by -3"
  {
    assert NatDigits(3) == "3";
    assert FormatInt(-3) == "-" + "3";
    assert StockChangeAction("Test Stock", -3) == "Decreased stock of Test Stock by " + "-3";
  }

  class MedicineStockViewModel {
    const config: MedicConfig
    var medicines: seq<Medicine>
    var aisles: seq<string>
    var history: seq<HistoryEntry>
    var error: Option<MedicError>
    var isLoading: bool
    var searchText: string
    var sortOption: SortOption
    var isLoadingMore: bool
    var lastHistoryDocument: Option<DocumentSnapshot<HistoryEntry>>
    var lastMedicineDocument: Option<DocumentSnapshot<Medicine>>
    ghost var storeWrites: seq<StoreWrite>

    /** No method assigns the medicine cursor, and the aisle list is always sorted and duplicate-free. */
    ghost predicate Valid()
      reads this
    {
      lastMedicineDocument.None? && StrictlyAscending(aisles)
    }

    constructor(config: MedicConfig)
      ensures Valid() && this.config == config
      ensures medicines == [] && aisles == [] && history == [] && error == None
      ensures !isLoading && !isLoadingMore && searchText == [] && sortOption == Unsorted
      ensures lastHistoryDocument == None && storeWrites == []
    {
      this.config := config;
      medicines, aisles, history, error := [], [], [], None;
      isLoading, isLoadingMore := false, false;
      searchText, sortOption := [], Unsorted;
      lastHistoryDocument, lastMedicineDocument := None, None;
      storeWrites := [];
    }

    /** `hasMoreHistoryToLoad`. */
    function HasMoreHistoryToLoad(): (more: bool)
      reads this
      ensures more <==> lastHistoryDocument.Some?
    {
      lastHistoryDocument.Some?
    }

    /** `hasMoreMedicines`: never true, since nothing sets the medicine cursor. */
    function HasMoreMedicines(): (more: bool)
      reads this
      requires Valid()
      ensures !more
    {
      lastMedicineDocument.Some?
    }

    /** `fetchMedicines(loadMore:)`: the configured strategy decides between the eager and the paged load. */
    method FetchMedicines(loadMore: bool, result: FetchResult<Medicine>)
      requires Valid()
      modifies this`medicines, this`aisles, this`error, this`isLoading, this`isLoadingMore
      ensures Valid()
      ensures medicines == MedicinesAfterFetch(config.loadingMedicineStrategy, loadMore, old(medicines), result)
      ensures result.Fetched? ==> aisles == SortedAisles(medicines) && error == old(error)
      ensures result.FetchFailed? ==> aisles == old(aisles) && error == Some(FetchDataError)
      ensures config.loadingMedicineStrategy.Eager? ==> !isLoading && isLoadingMore == old(isLoadingMore)
      ensures config.loadingMedicineStrategy.Lazy? ==>
        isLoading == (result.Fetched? && loadMore && old(isLoading)) &&
        isLoadingMore == (result.Fetched? && !loadMore && old(isLoadingMore))
    {
      match config.loadingMedicineStrategy
      case Eager => FetchMedicinesAndAisles(result);
      case Lazy => FetchMedicinesPaged(loadMore, result);
    }

    /** The eager load: one query for the whole collection. */
    method FetchMedicinesAndAisles(result: FetchResult<Medicine>)
      requires Valid()
      modifies this`medicines, this`aisles, this`error, this`isLoading
      ensures Valid()
      ensures medicines == MedicinesAfterFetch(Eager, false, old(medicines), result)
      ensures result.Fetched? ==> aisles == SortedAisles(medicines) && error == old(error)
      ensures result.FetchFailed? ==> aisles == old(aisles) && error == Some(FetchDataError)
      ensures !isLoading
    {
      isLoading := true;
      match result
      case Fetched(docs) =>
        ProcessMedicinesSnapshot(docs, false);
        isLoading := false;
      case FetchFailed =>
        error := Some(FetchDataError);
        isLoading := false;
    }

    /** The paged load: the mirror is emptied first unless `loadMore`. */
    method FetchMedicinesPaged(loadMore: bool, result: FetchResult<Medicine>)
      requires Valid()
      modifies this`medicines, this`aisles, this`error, this`isLoading, this`isLoadingMore
      ensures Valid()
      ensures medicines == MedicinesAfterFetch(Lazy, loadMore, old(medicines), result)
      ensures result.Fetched? ==> aisles == SortedAisles(medicines) && error == old(error)
      ensures result.FetchFailed? ==> aisles == old(aisles) && error == Some(FetchDataError)
      ensures isLoading == (result.Fetched? && loadMore && old(isLoading))
      ensures isLoadingMore == (result.Fetched? && !loadMore && old(isLoadingMore))
    {
      if !loadMore {
        medicines := [];
      } else {
        isLoadingMore := true;
      }
      match result
      case Fetched(docs) =>
        ProcessMedicinesSnapshot(docs, loadMore);
        if loadMore {
          isLoadingMore := false;
        } else {
          isLoading := false;
        }
      case FetchFailed =>
        error := Some(FetchDataError);
        isLoadingMore := false;
        isLoading := false;
    }

    /** `processMedicinesSnapshot`: append or replace, then derive the aisles from the whole mirror. */
    method ProcessMedicinesSnapshot(docs: seq<DocumentSnapshot<Medicine>>, loadMore: bool)
      requires Valid()
      modifies this`medicines, this`aisles
      ensures Valid()
      ensures medicines == (if loadMore then old(medicines) else []) + Decoded(docs)
      ensures aisles == SortedAisles(medicines)
    {
      var entries := Decoded(docs);
      if loadMore {
        medicines := medicines + entries;
      } else {
        medicines := entries;
      }
      aisles := SortedAisles(medicines);
    }

    /**
     * `addMedicine`: the three guards, then the document write and its
     * history entry. The mirror is left alone; callers reload.
     */
    method AddMedicine(name: string, stockString: string, aisle: string, user: string,
                       newId: string, writeOk: bool, currentUser: Option<AuthUser>, historyOk: bool, now: Timestamp)
      returns (id: Option<string>)
      modifies this`error, this`storeWrites
      ensures ValidateNewMedicine(name, stockString, aisle).Failure? ==>
        id == None && error == Some(ValidateNewMedicine(name, stockString, aisle).error) &&
        storeWrites == old(storeWrites)
      ensures ValidateNewMedicine(name, stockString, aisle).Success? && !writeOk ==>
        id == None && error == Some(AddMedicineError) && storeWrites == old(storeWrites)
      ensures ValidateNewMedicine(name, stockString, aisle).Success? && writeOk ==>
        var stock := ValidateNewMedicine(name, stockString, aisle).value;
        id == Some(newId) && error == ErrorAfterHistory(old(error), currentUser, historyOk) &&
        storeWrites == old(storeWrites) + [SetMedicine(newId, Medicine(None, name, stock, aisle))] +
                       HistoryWrites(currentUser, newId, "Added " + name, "Added new medicine", now, historyOk)
    {
      var checked := ValidateNewMedicine(name, stockString, aisle);
      if checked.Failure? {
        error := Some(checked.error);
        return None;
      }
      var medicine := Medicine(None, name, checked.value, aisle);
      if writeOk {
        storeWrites := storeWrites + [SetMedicine(newId, medicine)];
        AddHistory("Added " + medicine.name, newId, "Added new medicine", currentUser, historyOk, now);
        return Some(newId);
      } else {
        error := Some(AddMedicineError);
        return None;
      }
    }

    /**
     * `updateStock(_:by:)`: no write below zero; otherwise the mirror entry
     * is updated before the write and restored to the argument's stock when
     * the write fails. A successful write is logged and the history reloaded.
     */
    method UpdateStock(medicine: Medicine, amount: int, user: string, writeOk: bool,
                       currentUser: Option<AuthUser>, historyOk: bool, now: Timestamp,
                       historyResult: FetchResult<HistoryEntry>)
      modifies this`medicines, this`error, this`storeWrites, this`history, this`lastHistoryDocument,
               this`isLoading, this`isLoadingMore
      ensures medicine.id.None? ==>
        error == Some(InvalidMedicineId) && medicines == old(medicines) && storeWrites == old(storeWrites) &&
        history == old(history) && lastHistoryDocument == old(lastHistoryDocument) &&
        isLoading == old(isLoading) && isLoadingMore == old(isLoadingMore)
      ensures medicine.id.Some? && medicine.stock + amount < 0 ==>
        error == old(error) && medicines == old(medicines) && storeWrites == old(storeWrites) &&
        history == old(history) && lastHistoryDocument == old(lastHistoryDocument) &&
        isLoading == old(isLoading) && isLoadingMore == old(isLoadingMore)
      ensures medicine.id.Some? && medicine.stock + amount >= 0 && writeOk ==>
        var id, newStock := medicine.id.value, medicine.stock + amount;
        medicines == WithStock(old(medicines), id, newStock) &&
        storeWrites == old(storeWrites) + [UpdateStockField(id, newStock)] +
          HistoryWrites(currentUser, id, StockChangeAction(medicine.name, amount),
                        StockChangeDetails(medicine.stock, newStock), now, historyOk) &&
        history == HistoryAfterFetch(old(history), historyResult, config.pageSize, false) &&
        lastHistoryDocument == CursorAfterFetch(old(lastHistoryDocument), historyResult, config.pageSize, false) &&
        error == (if historyResult.FetchFailed? then Some(FetchHistoryError)
                  else ErrorAfterHistory(old(error), currentUser, historyOk)) &&
        !isLoading && isLoadingMore == (historyResult.Fetched? && old(isLoadingMore))
      ensures medicine.id.Some? && medicine.stock + amount >= 0 && !writeOk ==>
        medicines == WithStock(old(medicines), medicine.id.value, medicine.stock) &&
        error == Some(UpdateStockError) && storeWrites == old(storeWrites) &&
        history == old(history) && lastHistoryDocument == old(lastHistoryDocument) &&
        isLoading == old(isLoading) && isLoadingMore == old(isLoadingMore)
      ensures (medicine.stock + amount >= 0 && !writeOk && RollbackTargetMatches(old(medicines), medicine)) ==>
        medicines == old(medicines)
      ensures aisles == SortedAisles(old(medicines)) ==> aisles == SortedAisles(medicines)
    {
      if medicine.id.None? {
        error := Some(InvalidMedicineId);
        return;
      }
      var id := medicine.id.value;
      var newStock := medicine.stock + amount;
      if newStock < 0 {
        return;
      }
      var oldStock := medicine.stock;
      WithStockKeepsAisles(medicines, id, newStock);
      WithStockKeepsAisles(WithStock(medicines, id, newStock), id, oldStock);
      SetMirrorStock(id, newStock);
      if writeOk {
        storeWrites := storeWrites + [UpdateStockField(id, newStock)];
        AddHistory(StockChangeAction(medicine.name, amount), id,
                   StockChangeDetails(oldStock, newStock), currentUser, historyOk, now);
        FetchHistory(medicine, false, historyResult);
      } else {
        SetMirrorStock(id, oldStock);
        WithStockOverwrites(old(medicines), id, newStock, oldStock);
        if RollbackTargetMatches(old(medicines), medicine) && FirstIndexWithId(old(medicines), id).Some? {
          WithStockSameValue(old(medicines), id, FirstIndexWithId(old(medicines), id).value);
        }
        error := Some(UpdateStockError);
      }
    }

    /** `medicines[index].stock = stock` on the first mirror entry with the id, if any. */
    method SetMirrorStock(id: string, stock: int)
      modifies this`medicines
      ensures medicines == WithStock(old(medicines), id, stock)
    {
      var index := FirstIndexWithId(medicines, id);
      if index.Some? {
        medicines := medicines[index.value := medicines[index.value].(stock := stock)];
      }
    }

    /** `deleteMedicine`: the delete and its history entry; the mirror is not pruned. */
    method DeleteMedicine(medicine: Medicine, user: string, deleteOk: bool,
                          currentUser: Option<AuthUser>, historyOk: bool, now: Timestamp)
      modifies this`error, this`storeWrites
      ensures medicine.id.None? ==> error == Some(InvalidMedicineId) && storeWrites == old(storeWrites)
      ensures medicine.id.Some? && !deleteOk ==> error == Some(DeleteMedicineError) && storeWrites == old(storeWrites)
      ensures medicine.id.Some? && deleteOk ==>
        error == ErrorAfterHistory(old(error), currentUser, historyOk) &&
        storeWrites == old(storeWrites) + [DeleteMedicineDocument(medicine.id.value)] +
          HistoryWrites(currentUser, medicine.id.value, "Deleted " + medicine.name,
                        "Medicine removed from inventory", now, historyOk)
    {
      if medicine.id.None? {
        error := Some(InvalidMedicineId);
        return;
      }
      var id := medicine.id.value;
      if deleteOk {
        storeWrites := storeWrites + [DeleteMedicineDocument(id)];
        AddHistory("Deleted " + medicine.name, id, "Medicine removed from inventory", currentUser, historyOk, now);
      } else {
        error := Some(DeleteMedicineError);
      }
    }

    /** `addHistory`: silently nothing without a signed-in user with an email. */
    method AddHistory(action: string, medicineId: string, details: string,
                      currentUser: Option<AuthUser>, ok: bool, now: Timestamp)
      modifies this`error, this`storeWrites
      ensures storeWrites == old(storeWrites) + HistoryWrites(currentUser, medicineId, action, details, now, ok)
      ensures error == ErrorAfterHistory(old(error), currentUser, ok)
    {
      if !CanRecordHistory(currentUser) {
        return;
      }
      var entry := NewHistoryEntry(currentUser, medicineId, action, details, now);
      if ok {
        storeWrites := storeWrites + [AddHistoryDocument(entry)];
      } else {
        error := Some(AddHistoryError);
      }
    }

    /** `fetchHistory(for:loadMore:)`: one page of the medicine's history, newest first. */
    method FetchHistory(medicine: Medicine, loadMore: bool, result: FetchResult<HistoryEntry>)
      modifies this`history, this`lastHistoryDocument, this`isLoading, this`isLoadingMore, this`error
      ensures medicine.id.None? ==>
        error == Some(InvalidMedicineId) && history == old(history) &&
        lastHistoryDocument == old(lastHistoryDocument) &&
        isLoading == old(isLoading) && isLoadingMore == old(isLoadingMore)
      ensures medicine.id.Some? ==>
        history == HistoryAfterFetch(old(history), result, config.pageSize, loadMore) &&
        lastHistoryDocument == CursorAfterFetch(old(lastHistoryDocument), result, config.pageSize, loadMore) &&
        error == (if result.FetchFailed? then Some(FetchHistoryError) else old(error)) &&
        !isLoading && isLoadingMore == (result.Fetched? && !loadMore && old(isLoadingMore))
      ensures medicine.id.Some? && result.Fetched? ==>
        (HasMoreHistoryToLoad() <==> |result.documents| > config.pageSize)
    {
      if medicine.id.None? {
        error := Some(InvalidMedicineId);
        return;
      }
      if !loadMore {
        history := [];
        lastHistoryDocument := None;
        isLoading := true;
      } else {
        isLoadingMore := true;
      }
      match result
      case Fetched(docs) =>
        lastHistoryDocument := if |docs| > config.pageSize then Some(docs[config.pageSize - 1]) else None;
        ProcessHistorySnapshot(docs, loadMore);
        isLoading := false;
        if loadMore {
          isLoadingMore := false;
        } else {
          isLoading := false;
        }
      case FetchFailed =>
        error := Some(FetchHistoryError);
        isLoading := false;
        isLoadingMore := false;
    }

    /** `processHistorySnapshot`: keep the first `pageSize` documents, decode, append or replace. */
    method ProcessHistorySnapshot(docs: seq<DocumentSnapshot<HistoryEntry>>, loadMore: bool)
      modifies this`history
      ensures history == NextHistory(old(history), docs, config.pageSize, loadMore)
    {
      var entries := Decoded(PageOf(docs, config.pageSize));
      if loadMore {
        history := history + entries;
      } else {
        history := entries;
      }
    }

    /**
     * `filteredAndSortedMedicines`: reads the mirror, the search text and the
     * sort option, and changes nothing.
     */
    function FilteredAndSortedMedicines(): (r: seq<Medicine>)
      reads this
      ensures forall m :: (searchText == [] || MatchesSearch(m, searchText)) ==> multiset(r)[m] == multiset(medicines)[m]
      ensures forall m :: searchText != [] && !MatchesSearch(m, searchText) ==> multiset(r)[m] == 0
      ensures SortedBy(sortOption, r)
      ensures sortOption.Unsorted? ==> IsSubsequence(r, medicines)
    {
      FilteredAndSorted(medicines, searchText, sortOption)
    }
  }
}
