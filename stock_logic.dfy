/**
 * The pure parts of the medicine view model: the form validation of
 * `addMedicine`, finding and rewriting a mirror entry, decoding and paging
 * of query results, the aisle list, and the filtered and sorted view.
 */
module StockLogic {
  import opened Wrappers
  import opened MedicModel
  import opened StringOrder
  import opened IntText
  import opened TextSearch

  // ---------------------------------------------------------------------------
  // addMedicine's guards
  // ---------------------------------------------------------------------------

  /** The stock field holds an `Int` that is at least 0. */
  predicate IsValidStockText(stockText: string)
  {
    ParseInt(stockText).Some? && ParseInt(stockText).value >= 0
  }

  /**
   * The three guards of `addMedicine`, in their order: the name, then the
   * stock text, then the aisle. Success carries the parsed stock.
   */
  function ValidateNewMedicine(name: string, stockText: string, aisle: string): (r: Result<nat, MedicError>)
    ensures r == Failure(InvalidMedicineName) <==> name == []
    ensures r == Failure(InvalidStock) <==> name != [] && !IsValidStockText(stockText)
    ensures r == Failure(InvalidAisle) <==> name != [] && IsValidStockText(stockText) && aisle == []
    ensures r.Success? <==> name != [] && IsValidStockText(stockText) && aisle != []
    ensures r.Success? ==> ParseInt(stockText) == Some(r.value as int)
    ensures r.Failure? ==> r.error in {InvalidMedicineName, InvalidStock, InvalidAisle}
  {
    if name == [] then Failure(InvalidMedicineName)
    else if !IsValidStockText(stockText) then Failure(InvalidStock)
    else if aisle == [] then Failure(InvalidAisle)
    else Success(ParseInt(stockText).value)
  }

  /** Every non-negative `Int`, typed as its decimal text with a name and an aisle, passes the guards. */
  lemma ValidFormAccepted(name: string, stock: int, aisle: string)
    requires name != [] && aisle != [] && 0 <= stock <= IntMax
    ensures ValidateNewMedicine(name, FormatInt(stock), aisle) == Success(stock)
  {
    ParseFormatRoundTrip(stock);
  }

  /** The invalid forms of the view model's tests meet the guard they are aimed at. */
  lemma InvalidFormsRejected()
    ensures ValidateNewMedicine("", "10", "A1") == Failure(InvalidMedicineName)
    ensures ValidateNewMedicine("Test", "-1", "A1") == Failure(InvalidStock)
    ensures ValidateNewMedicine("Test", "10", "") == Failure(InvalidAisle)
  {
    ParseExamples();
  }

  // ---------------------------------------------------------------------------
  // The mirror entry a stock change applies to
  // ---------------------------------------------------------------------------

  /**
   * `medicines.firstIndex(where: { $0.id == id })`: the position of the
   * first mirror entry carrying `id`, or none when no entry does.
   */
  function FirstIndexWithId(meds: seq<Medicine>, id: string): (r: Option<nat>)
    ensures r.Some? ==> r.value < |meds| && meds[r.value].id == Some(id)
    ensures r.Some? ==> forall j :: 0 <= j < r.value ==> meds[j].id != Some(id)
    ensures r.None? ==> forall j :: 0 <= j < |meds| ==> meds[j].id != Some(id)
  {
    if meds == [] then None
    else if meds[0].id == Some(id) then Some(0)
    else match FirstIndexWithId(meds[1..], id)
      case None => None
      case Some(k) => Some(k + 1)
  }

  /** Entry by entry, the two lists carry the same ids. */
  ghost predicate SameIds(a: seq<Medicine>, b: seq<Medicine>)
  {
    |a| == |b| && forall i :: 0 <= i < |a| ==> a[i].id == b[i].id
  }

  /** Lists with the same ids have the same first entry for every id. */
  lemma FirstIndexFollowsIds(a: seq<Medicine>, b: seq<Medicine>, id: string)
    requires SameIds(a, b)
    ensures FirstIndexWithId(a, id) == FirstIndexWithId(b, id)
  {
  }

  /**
   * `medicines[index].stock = stock` on the first entry with `id`, when there
   * is one: that entry's stock changes, and nothing else.
   */
  function WithStock(meds: seq<Medicine>, id: string, stock: int): (r: seq<Medicine>)
    ensures |r| == |meds| && SameIds(r, meds)
    ensures FirstIndexWithId(meds, id).None? ==> r == meds
    ensures FirstIndexWithId(meds, id).Some? ==>
      var k := FirstIndexWithId(meds, id).value;
      r[k] == meds[k].(stock := stock) &&
      forall i :: 0 <= i < |meds| && i != k ==> r[i] == meds[i]
  {
    match FirstIndexWithId(meds, id)
    case None => meds
    case Some(k) => meds[k := meds[k].(stock := stock)]
  }

  /** A second write to the same entry replaces the first: the rollback undoes the optimistic write. */
  lemma WithStockOverwrites(meds: seq<Medicine>, id: string, first: int, second: int)
    ensures WithStock(WithStock(meds, id, first), id, second) == WithStock(meds, id, second)
  {
    FirstIndexFollowsIds(WithStock(meds, id, first), meds, id);
  }

  /** Writing back the stock the entry already has changes nothing. */
  lemma WithStockSameValue(meds: seq<Medicine>, id: string, k: nat)
    requires FirstIndexWithId(meds, id) == Some(k)
    ensures WithStock(meds, id, meds[k].stock) == meds
  {
  }

  /**
   * An optimistic write followed by a rollback to the stock the mirror
   * entry had leaves the mirror as it was.
   */
  lemma OptimisticWriteRolledBack(meds: seq<Medicine>, id: string, newStock: int)
    requires FirstIndexWithId(meds, id).Some?
    ensures WithStock(WithStock(meds, id, newStock), id, meds[FirstIndexWithId(meds, id).value].stock) == meds
  {
    WithStockOverwrites(meds, id, newStock, meds[FirstIndexWithId(meds, id).value].stock);
    WithStockSameValue(meds, id, FirstIndexWithId(meds, id).value);
  }

  // ---------------------------------------------------------------------------
  // Query results
  // ---------------------------------------------------------------------------

  /** One returned document: its id, and the record it decodes to, or `None` when `try? data(as:)` fails. */
  datatype DocumentSnapshot<T> = DocumentSnapshot(documentId: string, decoded: Option<T>)

  /** The outcome of `getDocuments()`: the documents, or a thrown error. */
  datatype FetchResult<T> = Fetched(documents: seq<DocumentSnapshot<T>>) | FetchFailed

  /**
   * `documents.compactMap { try? $0.data(as:) }`: the records of the documents
   * that decode; `DecodedAppend` shows that they keep the documents' order.
   */
  function Decoded<T(!new)>(docs: seq<DocumentSnapshot<T>>): (r: seq<T>)
    ensures |r| <= |docs|
    ensures (forall i :: 0 <= i < |docs| ==> docs[i].decoded.Some?) ==> |r| == |docs|
    ensures forall x :: x in r <==> exists i :: 0 <= i < |docs| && docs[i].decoded == Some(x)
  {
    if docs == [] then []
    else
      var rest := Decoded(docs[1..]);
      assert forall x :: (exists i :: 0 <= i < |docs[1..]| && docs[1..][i].decoded == Some(x)) <==>
                         (exists i :: 1 <= i < |docs| && docs[i].decoded == Some(x));
      match docs[0].decoded
      case None => rest
      case Some(x) => [x] + rest
  }

  /** Decoding two batches one after the other decodes their concatenation. */
  lemma {:induction false} DecodedAppend<T(!new)>(a: seq<DocumentSnapshot<T>>, b: seq<DocumentSnapshot<T>>)
    ensures Decoded(a + b) == Decoded(a) + Decoded(b)
  {
    if a != [] {
      assert (a + b)[0] == a[0];
      assert (a + b)[1..] == a[1..] + b;
      DecodedAppend(a[1..], b);
      match a[0].decoded
      case None =>
        assert Decoded(a + b) == Decoded(a[1..] + b);
      case Some(x) =>
        assert Decoded(a + b) == [x] + Decoded(a[1..] + b);
    } else {
      assert a + b == b;
    }
  }

  /** The documents a history page keeps: `documents.prefix(pageSize)`. */
  function PageOf<T>(docs: seq<DocumentSnapshot<T>>, pageSize: PageSize): (page: seq<DocumentSnapshot<T>>)
    ensures |page| <= pageSize && page <= docs
    ensures |docs| <= pageSize ==> page == docs
  {
    if |docs| <= pageSize then docs else docs[..pageSize]
  }

  /**
   * The cursor after a history page: the last kept document when the
   * over-fetched one came back, otherwise none.
   */
  function PageCursor<T>(docs: seq<DocumentSnapshot<T>>, pageSize: PageSize): (c: Option<DocumentSnapshot<T>>)
    ensures c.Some? <==> |docs| > pageSize
    ensures c.Some? ==> c.value == docs[pageSize - 1] && c.value == PageOf(docs, pageSize)[pageSize - 1]
  {
    if |docs| > pageSize then Some(docs[pageSize - 1]) else None
  }

  /** The history after a page is processed: appended to on `loadMore`, replaced otherwise. */
  function NextHistory(history: seq<HistoryEntry>, docs: seq<DocumentSnapshot<HistoryEntry>>,
                       pageSize: PageSize, loadMore: bool): (r: seq<HistoryEntry>)
    ensures loadMore ==> history <= r && |r| <= |history| + pageSize
    ensures !loadMore ==> |r| <= pageSize
    ensures (if loadMore then r[|history|..] else r) == Decoded(PageOf(docs, pageSize))
  {
    var entries := Decoded(PageOf(docs, pageSize));
    if loadMore then history + entries else entries
  }

  /**
   * Two pages fetched one after the other, the second with `loadMore`, give
   * the decoded entries of the first `2 * pageSize` documents when the first
   * page came back full.
   */
  lemma TwoPages(first: seq<DocumentSnapshot<HistoryEntry>>, second: seq<DocumentSnapshot<HistoryEntry>>,
                 history: seq<HistoryEntry>, pageSize: PageSize)
    requires |first| > pageSize
    ensures NextHistory(NextHistory(history, first, pageSize, false), second, pageSize, true)
         == Decoded(first[..pageSize] + PageOf(second, pageSize))
  {
    DecodedAppend(first[..pageSize], PageOf(second, pageSize));
  }

  // ---------------------------------------------------------------------------
  // The mirrors after a fetch
  // ---------------------------------------------------------------------------

  /**
   * `medicines` after `fetchMedicines`: the eager load replaces the mirror;
   * the paged load empties it first unless `loadMore`, then appends the
   * whole (untruncated) page; a failure keeps what is left at that point.
   */
  function MedicinesAfterFetch(strategy: LoadingStrategy, loadMore: bool, medicines: seq<Medicine>,
                               result: FetchResult<Medicine>): (r: seq<Medicine>)
    ensures result.Fetched? && strategy.Lazy? && loadMore ==> r == medicines + Decoded(result.documents)
    ensures result.Fetched? && !(strategy.Lazy? && loadMore) ==> r == Decoded(result.documents)
    ensures result.FetchFailed? && strategy.Eager? ==> r == medicines
    ensures result.FetchFailed? && strategy.Lazy? ==> r == if loadMore then medicines else []
  {
    var base := if strategy.Lazy? && !loadMore then [] else medicines;
    match result
    case Fetched(docs) => (if strategy.Lazy? && loadMore then base else []) + Decoded(docs)
    case FetchFailed => base
  }

  /** `history` after `fetchHistory`: a fresh load starts from empty, a failure keeps what is left. */
  function HistoryAfterFetch(history: seq<HistoryEntry>, result: FetchResult<HistoryEntry>,
                             pageSize: PageSize, loadMore: bool): (r: seq<HistoryEntry>)
    ensures loadMore ==> history <= r && |r| <= |history| + pageSize
    ensures !loadMore ==> |r| <= pageSize
    ensures result.FetchFailed? ==> r == if loadMore then history else []
    ensures result.Fetched? ==> r == NextHistory(history, result.documents, pageSize, loadMore)
  {
    match result
    case Fetched(docs) => NextHistory(history, docs, pageSize, loadMore)
    case FetchFailed => if loadMore then history else []
  }

  /** `lastHistoryDocument` after `fetchHistory`: set only when the over-fetched document came back. */
  function CursorAfterFetch(cursor: Option<DocumentSnapshot<HistoryEntry>>, result: FetchResult<HistoryEntry>,
                            pageSize: PageSize, loadMore: bool): (c: Option<DocumentSnapshot<HistoryEntry>>)
    ensures result.Fetched? ==> (c.Some? <==> |result.documents| > pageSize)
    ensures result.FetchFailed? ==> c == if loadMore then cursor else None
  {
    match result
    case Fetched(docs) => PageCursor(docs, pageSize)
    case FetchFailed => if loadMore then cursor else None
  }

  /** A fresh history load does not depend on what the history or the cursor held before. */
  lemma FreshHistoryLoadForgets(h1: seq<HistoryEntry>, h2: seq<HistoryEntry>,
                                c1: Option<DocumentSnapshot<HistoryEntry>>, c2: Option<DocumentSnapshot<HistoryEntry>>,
                                result: FetchResult<HistoryEntry>, pageSize: PageSize)
    ensures HistoryAfterFetch(h1, result, pageSize, false) == HistoryAfterFetch(h2, result, pageSize, false)
    ensures CursorAfterFetch(c1, result, pageSize, false) == CursorAfterFetch(c2, result, pageSize, false)
  {
  }

  // ---------------------------------------------------------------------------
  // Aisles
  // ---------------------------------------------------------------------------

  /** `medicines.map { $0.aisle }`: the aisle of each medicine, in the mirror's order. */
  function AisleOf(meds: seq<Medicine>): (r: seq<string>)
    ensures |r| == |meds| && forall i :: 0 <= i < |meds| ==> r[i] == meds[i].aisle
  {
    if meds == [] then [] else [meds[0].aisle] + AisleOf(meds[1..])
  }

  /**
   * `Array(Set(medicines.map { $0.aisle })).sorted()`: every aisle of the
   * mirror once, in ascending order.
   */
  function SortedAisles(meds: seq<Medicine>): (r: seq<string>)
    ensures StrictlyAscending(r)
    ensures forall a :: a in r <==> exists i :: 0 <= i < |meds| && meds[i].aisle == a
  {
    var all := AisleOf(meds);
    var r := SortedDistinct(all);
    assert forall a :: a in all <==> exists i :: 0 <= i < |meds| && meds[i].aisle == a;
    r
  }

  /** The aisle list is the one strictly ascending list of exactly the mirror's aisles. */
  lemma SortedAislesUnique(meds: seq<Medicine>, aisles: seq<string>)
    requires StrictlyAscending(aisles)
    requires forall a :: a in aisles <==> exists i :: 0 <= i < |meds| && meds[i].aisle == a
    ensures aisles == SortedAisles(meds)
  {
    AscendingUnique(aisles, SortedAisles(meds));
  }

  /** Lists that agree on every entry's aisle have the same aisle list. */
  lemma SortedAislesFollowsAisles(a: seq<Medicine>, b: seq<Medicine>)
    requires |a| == |b| && forall i :: 0 <= i < |a| ==> a[i].aisle == b[i].aisle
    ensures SortedAisles(a) == SortedAisles(b)
  {
    SortedAislesUnique(a, SortedAisles(b));
  }

  /** Changing a stock leaves the aisle list as it was. */
  lemma WithStockKeepsAisles(meds: seq<Medicine>, id: string, stock: int)
    ensures SortedAisles(WithStock(meds, id, stock)) == SortedAisles(meds)
  {
    SortedAislesFollowsAisles(WithStock(meds, id, stock), meds);
  }

  // ---------------------------------------------------------------------------
  // filteredAndSortedMedicines
  // ---------------------------------------------------------------------------

  /** The search keeps a medicine when its lower-cased name contains the lower-cased search text. */
  predicate MatchesSearch(m: Medicine, searchText: string)
  {
    Contains(Lowercased(m.name), Lowercased(searchText))
  }

  /** `a` is `b` with some entries left out, the rest in their order. */
  ghost predicate IsSubsequence<T>(a: seq<T>, b: seq<T>)
    decreases |b|
  {
    a == [] || (b != [] && ((a[0] == b[0] && IsSubsequence(a[1..], b[1..])) || IsSubsequence(a, b[1..])))
  }

  lemma {:induction false} SubsequenceReflexive<T>(s: seq<T>)
    ensures IsSubsequence(s, s)
  {
    if s != [] {
      SubsequenceReflexive(s[1..]);
    }
  }

  /**
   * `medicines.filter { $0.name.lowercased().contains(searchText.lowercased()) }`:
   * the medicines whose name contains the search text, ignoring case, in the mirror's order.
   */
  function FilterBySearch(meds: seq<Medicine>, searchText: string): (r: seq<Medicine>)
    ensures forall m :: multiset(r)[m] == (if MatchesSearch(m, searchText) then multiset(meds)[m] else 0)
    ensures forall i :: 0 <= i < |r| ==> MatchesSearch(r[i], searchText)
    ensures IsSubsequence(r, meds)
  {
    if meds == [] then []
    else
      assert meds == [meds[0]] + meds[1..];
      var rest := FilterBySearch(meds[1..], searchText);
      if MatchesSearch(meds[0], searchText) then [meds[0]] + rest else rest
  }

  /** Whether `a` sorts strictly before `b` under a sort option; `.none` orders nothing. */
  predicate Before(option: SortOption, a: Medicine, b: Medicine)
  {
    match option
    case Unsorted => false
    case ByName => StrLt(Lowercased(a.name), Lowercased(b.name))
    case ByStock => a.stock < b.stock
  }

  /** No entry sorts strictly before an earlier one. */
  ghost predicate SortedBy(option: SortOption, s: seq<Medicine>)
  {
    forall i, j :: 0 <= i < j < |s| ==> !Before(option, s[j], s[i])
  }

  lemma BeforeAsymmetric(option: SortOption, a: Medicine, b: Medicine)
    requires Before(option, a, b)
    ensures !Before(option, b, a)
  {
    if option.ByName? {
      StrLtAsymmetric(Lowercased(a.name), Lowercased(b.name));
    }
  }

  lemma NotBeforeTransitive(option: SortOption, a: Medicine, b: Medicine, c: Medicine)
    requires !Before(option, c, b) && !Before(option, b, a)
    ensures !Before(option, c, a)
  {
    if option.ByName? {
      StrLeTransitive(Lowercased(a.name), Lowercased(b.name), Lowercased(c.name));
    }
  }

  /** Puts `x` in front of the first entry that does not sort before it. */
  function InsertSorted(option: SortOption, x: Medicine, s: seq<Medicine>): (r: seq<Medicine>)
    requires SortedBy(option, s)
    ensures SortedBy(option, r)
    ensures multiset(r) == multiset(s) + multiset{x}
  {
    if s == [] || !Before(option, s[0], x) then
      LowerHeadSorted(option, x, s);
      [x] + s
    else
      assert s == [s[0]] + s[1..];
      var rest := InsertSorted(option, x, s[1..]);
      BeforeAsymmetric(option, s[0], x);
      HigherTailSorted(option, s[0], rest);
      [s[0]] + rest
  }

  lemma LowerHeadSorted(option: SortOption, x: Medicine, s: seq<Medicine>)
    requires SortedBy(option, s) && (s == [] || !Before(option, s[0], x))
    ensures SortedBy(option, [x] + s)
  {
    forall j | 0 <= j < |s| ensures !Before(option, s[j], x) {
      if j > 0 {
        NotBeforeTransitive(option, x, s[0], s[j]);
      }
    }
  }

  lemma HigherTailSorted(option: SortOption, h: Medicine, t: seq<Medicine>)
    requires SortedBy(option, t)
    requires forall y :: y in multiset(t) ==> !Before(option, y, h)
    ensures SortedBy(option, [h] + t)
  {
    forall j | 0 <= j < |t| ensures !Before(option, t[j], h) {
      assert t[j] in multiset(t);
    }
  }

  /** `sort(by:)` under the option's order: sorted, and a permutation of the input. */
  function SortByOption(option: SortOption, s: seq<Medicine>): (r: seq<Medicine>)
    ensures SortedBy(option, r)
    ensures multiset(r) == multiset(s)
  {
    if s == [] then []
    else
      assert s == [s[0]] + s[1..];
      InsertSorted(option, s[0], SortByOption(option, s[1..]))
  }

  /** `.none` leaves the order alone. */
  function ApplySort(option: SortOption, s: seq<Medicine>): (r: seq<Medicine>)
    ensures SortedBy(option, r)
    ensures multiset(r) == multiset(s)
    ensures option.Unsorted? ==> r == s
  {
    if option.Unsorted? then s else SortByOption(option, s)
  }

  /**
   * `filteredAndSortedMedicines`: the search filter (skipped for an empty
   * search) followed by the sort of the chosen option.
   */
  function FilteredAndSorted(meds: seq<Medicine>, searchText: string, option: SortOption): (r: seq<Medicine>)
    ensures forall m :: (searchText == [] || MatchesSearch(m, searchText)) ==> multiset(r)[m] == multiset(meds)[m]
    ensures forall m :: searchText != [] && !MatchesSearch(m, searchText) ==> multiset(r)[m] == 0
    ensures SortedBy(option, r)
    ensures option.Unsorted? ==> IsSubsequence(r, meds)
    ensures option.Unsorted? && searchText == [] ==> r == meds
  {
    var filtered := if searchText == [] then meds else FilterBySearch(meds, searchText);
    SubsequenceReflexive(meds);
    ApplySort(option, filtered)
  }

  /** Under `.name` the lower-cased names come out in non-decreasing order. */
  lemma NameSortOrdersNames(meds: seq<Medicine>, searchText: string, i: nat, j: nat)
    requires i < j < |FilteredAndSorted(meds, searchText, ByName)|
    ensures var r := FilteredAndSorted(meds, searchText, ByName);
      !StrLt(Lowercased(r[j].name), Lowercased(r[i].name))
  {
  }

  /** Under `.stock` the stocks come out in non-decreasing order. */
  lemma StockSortOrdersStocks(meds: seq<Medicine>, searchText: string, i: nat, j: nat)
    requires i < j < |FilteredAndSorted(meds, searchText, ByStock)|
    ensures var r := FilteredAndSorted(meds, searchText, ByStock);
      r[i].stock <= r[j].stock
  {
  }
}
