/**
 * The emulator tests of the two view models, replayed against the model:
 * each client below feeds the outcomes the tests observe and states what
 * the tests assert.
 */
module Scenarios {
  import opened Wrappers
  import opened MedicModel
  import opened StringOrder
  import opened IntText
  import opened TextSearch
  import opened StockLogic
  import opened StockViewModel
  import opened Session

  const Aspirin := Medicine(Some("asp-id"), "Aspirine", 10, "A1")
  const Paracetamol := Medicine(Some("para-id"), "Paracétamol", 20, "B1")
  const Ibuprofen := Medicine(Some("ibu-id"), "Ibuprofène", 15, "C1")

  /** A needle with a character the haystack lacks cannot occur in it. */
  lemma MissingCharNotContained(hay: string, needle: string, k: nat)
    requires k < |needle|
    requires forall j :: 0 <= j < |hay| ==> hay[j] != needle[k]
    ensures !Contains(hay, needle)
  {
    ContainsAt(hay, needle);
    forall i | 0 <= i ensures !OccursAt(hay, needle, i) {
      if i + |needle| <= |hay| {
        assert hay[i..i + |needle|][k] == hay[i + k];
      }
    }
  }

  /** Searching "asp" among the three test medicines keeps only "Aspirine". */
  lemma SearchAspKeepsAspirine()
    ensures FilteredAndSorted([Aspirin, Paracetamol, Ibuprofen], "asp", Unsorted) == [Aspirin]
  {
    var needle := Lowercased("asp");
    assert needle == "asp";
    assert Lowercased(Aspirin.name) == "aspirine";
    assert StartsWith("aspirine", needle);
    var para, ibu := Lowercased(Paracetamol.name), Lowercased(Ibuprofen.name);
    forall j | 0 <= j < |para| ensures para[j] != 's' {
      assert para[j] == LowerChar(Paracetamol.name[j]);
    }
    forall j | 0 <= j < |ibu| ensures ibu[j] != 's' {
      assert ibu[j] == LowerChar(Ibuprofen.name[j]);
    }
    MissingCharNotContained(para, needle, 1);
    MissingCharNotContained(ibu, needle, 1);
    var meds := [Aspirin, Paracetamol, Ibuprofen];
    assert meds[1..] == [Paracetamol, Ibuprofen];
    assert meds[1..][1..] == [Ibuprofen];
  }

  /** The first entry of a stock-sorted view has the smallest stock of all that are shown. */
  lemma SortedByStockStartsAtMinimum(meds: seq<Medicine>, m: Medicine)
    requires m in meds
    ensures var r := FilteredAndSorted(meds, "", ByStock);
      |r| > 0 && r[0] in meds && r[0].stock <= m.stock
  {
    var r := FilteredAndSorted(meds, "", ByStock);
    assert multiset(r)[m] == multiset(meds)[m];
    var k :| 0 <= k < |r| && r[k] == m;
    assert r[0] in multiset(r);
  }

  /** Sorted by stock, whatever order the store returned them in, the test medicines start with stock 10. */
  lemma StockSortStartsWithAspirine(meds: seq<Medicine>)
    requires multiset(meds) == multiset{Aspirin, Paracetamol, Ibuprofen}
    ensures FilteredAndSorted(meds, "", ByStock)[0].stock == 10
  {
    assert Aspirin in multiset(meds);
    SortedByStockStartsAtMinimum(meds, Aspirin);
    var r := FilteredAndSorted(meds, "", ByStock);
    assert r[0] in multiset(meds);
  }

  /** The first entry of a name-sorted view has no name that sorts after another shown one's. */
  lemma SortedByNameStartsAtMinimum(meds: seq<Medicine>, m: Medicine)
    requires m in meds
    ensures var r := FilteredAndSorted(meds, "", ByName);
      |r| > 0 && r[0] in meds && !Before(ByName, m, r[0])
  {
    var r := FilteredAndSorted(meds, "", ByName);
    assert multiset(r)[m] == multiset(meds)[m];
    var k :| 0 <= k < |r| && r[k] == m;
    assert r[0] in multiset(r);
    if k == 0 {
      StrLtIrreflexive(Lowercased(m.name));
    }
  }

  /** A string whose first character is smaller sorts first. */
  lemma FirstCharacterDecides(a: string, b: string)
    requires |a| > 0 && |b| > 0 && a[0] < b[0]
    ensures StrLt(a, b)
  {
  }

  /** Sorted by name, whatever order the store returned them in, the test medicines start with "Aspirine". */
  lemma NameSortStartsWithAspirine(meds: seq<Medicine>)
    requires multiset(meds) == multiset{Aspirin, Paracetamol, Ibuprofen}
    ensures FilteredAndSorted(meds, "", ByName)[0] == Aspirin
  {
    assert Aspirin in multiset(meds);
    SortedByNameStartsAtMinimum(meds, Aspirin);
    var r := FilteredAndSorted(meds, "", ByName);
    assert r[0] in multiset(meds);
    var a, p, i := Lowercased(Aspirin.name), Lowercased(Paracetamol.name), Lowercased(Ibuprofen.name);
    assert a[0] == 'a' && p[0] == 'p' && i[0] == 'i';
    FirstCharacterDecides(a, p);
    FirstCharacterDecides(a, i);
  }

  /** The three invalid forms of the tests are refused with their own errors, and nothing is written. */
  method InvalidMedicinesRefused() returns (ids: seq<Option<string>>, errors: seq<Option<MedicError>>, ghost writes: nat)
    ensures ids == [None, None, None]
    ensures errors == [Some(InvalidMedicineName), Some(InvalidStock), Some(InvalidAisle)]
    ensures writes == 0
  {
    InvalidFormsRejected();
    var vm := new MedicineStockViewModel(DefaultConfig);
    var user := Some(AuthUser("uid", Some("test@test.com")));
    var a := vm.AddMedicine("", "10", "A1", "test@test.com", "id-1", true, user, true, 0);
    var e1 := vm.error;
    var b := vm.AddMedicine("Test", "-1", "A1", "test@test.com", "id-2", true, user, true, 0);
    var e2 := vm.error;
    var c := vm.AddMedicine("Test", "10", "", "test@test.com", "id-3", true, user, true, 0);
    ids, errors := [a, b, c], [e1, e2, vm.error];
    writes := |vm.storeWrites|;
  }

  const TestStock := Medicine(Some("med-1"), "Test Stock", 10, "A1")
  const TestUser := Some(AuthUser("uid", Some("test@test.com")))

  /** The three history entries the store holds for "Test Stock" by the end of the stock test. */
  const AddedEntry := HistoryEntry(None, "med-1", "uid", "test@test.com", "Added " + "Test Stock", "Added new medicine", 0)
  const IncreasedEntry := HistoryEntry(None, "med-1", "uid", "test@test.com",
                                       StockChangeAction("Test Stock", 5), StockChangeDetails(10, 15), 1)
  const DecreasedEntry := HistoryEntry(None, "med-1", "uid", "test@test.com",
                                       StockChangeAction("Test Stock", -3), StockChangeDetails(15, 12), 2)

  /** A stored history entry as a query returns it: `@DocumentID` fills in the document's id. */
  function HistoryDocument(documentId: string, entry: HistoryEntry): DocumentSnapshot<HistoryEntry>
  {
    DocumentSnapshot(documentId, Some(entry.(id := Some(documentId))))
  }

  /** Add "Test Stock" with stock "10": the store gets the new document, then its "Added" entry. */
  method AddTestStock() returns (vm: MedicineStockViewModel)
    ensures fresh(vm) && vm.Valid() && vm.config == DefaultConfig
    ensures vm.storeWrites == [SetMedicine("med-1", Medicine(None, "Test Stock", 10, "A1")), AddHistoryDocument(AddedEntry)]
  {
    ParseExamples();
    vm := new MedicineStockViewModel(DefaultConfig);
    var id := vm.AddMedicine("Test Stock", "10", "A1", "test@test.com", "med-1", true, TestUser, true, 0);
  }

  /**
   * Add "Test Stock" and load the collection back: the store holds the new
   * document and its "Added" entry, and the mirror the stored medicine.
   */
  method AddAndLoad() returns (vm: MedicineStockViewModel)
    ensures fresh(vm) && vm.Valid() && vm.config == DefaultConfig
    ensures vm.medicines == [TestStock]
    ensures vm.storeWrites == [SetMedicine("med-1", Medicine(None, "Test Stock", 10, "A1")), AddHistoryDocument(AddedEntry)]
  {
    vm := AddTestStock();
    var docs := [DocumentSnapshot("med-1", Some(TestStock))];
    assert Decoded(docs) == [TestStock];
    vm.FetchMedicines(false, Fetched(docs));
  }

  /** Raise the stock by 5 and reload the collection, which now holds stock 15. */
  method IncreaseAndReload(vm: MedicineStockViewModel)
    requires vm.Valid() && vm.config == DefaultConfig && vm.medicines == [TestStock]
    modifies vm
    ensures vm.Valid() && vm.medicines == [TestStock.(stock := 15)]
    ensures vm.storeWrites == old(vm.storeWrites) + [UpdateStockField("med-1", 15), AddHistoryDocument(IncreasedEntry)]
  {
    assert FirstIndexWithId([TestStock], "med-1") == Some(0);
    var soFar := Fetched([HistoryDocument("h1", IncreasedEntry), HistoryDocument("h0", AddedEntry)]);
    vm.UpdateStock(TestStock, 5, "test@test.com", true, TestUser, true, 1, soFar);
    var docs := [DocumentSnapshot("med-1", Some(TestStock.(stock := 15)))];
    assert Decoded(docs) == [TestStock.(stock := 15)];
    vm.FetchMedicines(false, Fetched(docs));
  }

  /** The history documents of "Test Stock" once all three entries are stored, newest first. */
  const AllHistory := [HistoryDocument("h2", DecreasedEntry), HistoryDocument("h1", IncreasedEntry),
                       HistoryDocument("h0", AddedEntry)]

  /** A page of 20 keeps all three history documents, and each decodes to its entry with its id. */
  lemma AllHistoryDecoded()
    ensures NextHistory([], AllHistory, 20, false)
         == [DecreasedEntry.(id := Some("h2")), IncreasedEntry.(id := Some("h1")), AddedEntry.(id := Some("h0"))]
  {
    assert PageOf(AllHistory, 20) == AllHistory;
    assert Decoded(AllHistory[2..]) == [AddedEntry.(id := Some("h0"))];
    assert Decoded(AllHistory[1..]) == [IncreasedEntry.(id := Some("h1")), AddedEntry.(id := Some("h0"))];
  }

  /** Lower the stock by 3 and reload the collection, which now holds stock 12. */
  method DecreaseAndReload(vm: MedicineStockViewModel)
    requires vm.Valid() && vm.config == DefaultConfig && vm.medicines == [TestStock.(stock := 15)]
    modifies vm
    ensures vm.Valid() && vm.medicines == [TestStock.(stock := 12)]
    ensures vm.storeWrites == old(vm.storeWrites) + [UpdateStockField("med-1", 12), AddHistoryDocument(DecreasedEntry)]
  {
    var increased := TestStock.(stock := 15);
    assert FirstIndexWithId([increased], "med-1") == Some(0);
    vm.UpdateStock(increased, -3, "test@test.com", true, TestUser, true, 2, Fetched(AllHistory));
    var docs := [DocumentSnapshot("med-1", Some(TestStock.(stock := 12)))];
    assert Decoded(docs) == [TestStock.(stock := 12)];
    vm.FetchMedicines(false, Fetched(docs));
  }

  /**
   * The stock test: after the add, +5 and -3, each followed by a reload, the
   * mirror shows 10, 15 and 12; the store holds the document, both stock
   * writes and one history entry per change; the medicine's history, fetched
   * from those entries, holds three of them, newest first.
   */
  method StockUpdates() returns (afterAdd: int, afterIncrease: int, afterDecrease: int,
                                 reloaded: seq<HistoryEntry>, ghost writes: seq<StoreWrite>)
    ensures afterAdd == 10 && afterIncrease == 15 && afterDecrease == 12
    ensures writes == [SetMedicine("med-1", Medicine(None, "Test Stock", 10, "A1")), AddHistoryDocument(AddedEntry),
                       UpdateStockField("med-1", 15), AddHistoryDocument(IncreasedEntry),
                       UpdateStockField("med-1", 12), AddHistoryDocument(DecreasedEntry)]
    ensures |reloaded| == 3
    ensures reloaded == [DecreasedEntry.(id := Some("h2")), IncreasedEntry.(id := Some("h1")), AddedEntry.(id := Some("h0"))]
  {
    var vm := AddAndLoad();
    afterAdd := vm.medicines[0].stock;
    IncreaseAndReload(vm);
    afterIncrease := vm.medicines[0].stock;
    DecreaseAndReload(vm);
    afterDecrease := vm.medicines[0].stock;
    writes := vm.storeWrites;
    vm.FetchHistory(TestStock.(stock := 15), false, Fetched(AllHistory));
    AllHistoryDecoded();
    reloaded := vm.history;
  }

  /**
   * "Low Stock Test" with stock "2" in aisle "B2", loaded and lowered by 3:
   * nothing more is written, the stock stays 2 and no error is set.
   */
  method DecreaseBelowZero() returns (stock: int, error: Option<MedicError>, ghost writesAfterLoad: nat, ghost writes: nat)
    ensures stock == 2 && error == None && writes == writesAfterLoad
  {
    ParseExamples();
    assert ParseInt("2") == Some(2) by {
      assert DigitsValue("2") == 2 by { assert "2"[..0] == ""; }
    }
    var vm := new MedicineStockViewModel(DefaultConfig);
    var id := vm.AddMedicine("Low Stock Test", "2", "B2", "testUser", "low-1", true, None, true, 0);
    var low := Medicine(Some("low-1"), "Low Stock Test", 2, "B2");
    vm.FetchMedicines(false, Fetched([DocumentSnapshot("low-1", Some(low))]));
    writesAfterLoad := |vm.storeWrites|;
    vm.UpdateStock(vm.medicines[0], -3, "testUser", true, None, true, 1, Fetched([]));
    stock, error := vm.medicines[0].stock, vm.error;
    writes := |vm.storeWrites|;
  }

  /** A failed stock write puts the mirror back and reports `updateStockError`. */
  method FailedWriteRolledBack() returns (stock: int, error: Option<MedicError>, ghost writes: nat)
    ensures stock == 10 && error == Some(UpdateStockError) && writes == 0
  {
    var vm := new MedicineStockViewModel(DefaultConfig);
    vm.FetchMedicines(false, Fetched([DocumentSnapshot("asp-id", Some(Aspirin))]));
    vm.UpdateStock(vm.medicines[0], 1, "u", false, None, true, 0, Fetched([]));
    stock, error := vm.medicines[0].stock, vm.error;
    writes := |vm.storeWrites|;
  }

  /**
   * Pages of 2 over three history documents: the first page shows two
   * entries and more to load, the next one adds the third and ends.
   */
  method HistoryPaging(e1: HistoryEntry, e2: HistoryEntry, e3: HistoryEntry)
    returns (firstPage: seq<HistoryEntry>, moreAfterFirst: bool, allPages: seq<HistoryEntry>, moreAfterSecond: bool)
    ensures firstPage == [e1, e2] && moreAfterFirst
    ensures allPages == [e1, e2, e3] && !moreAfterSecond
  {
    var vm := new MedicineStockViewModel(DefaultConfig.(pageSize := 2));
    var d1, d2, d3 := DocumentSnapshot("h1", Some(e1)), DocumentSnapshot("h2", Some(e2)), DocumentSnapshot("h3", Some(e3));
    assert PageOf([d1, d2, d3], 2) == [d1, d2];
    assert Decoded([d1, d2]) == [e1, e2];
    assert Decoded([d3]) == [e3];
    assert [e1, e2] + [e3] == [e1, e2, e3];
    vm.FetchHistory(Aspirin, false, Fetched([d1, d2, d3]));
    firstPage, moreAfterFirst := vm.history, vm.HasMoreHistoryToLoad();
    vm.FetchHistory(Aspirin, true, Fetched([d3]));
    allPages, moreAfterSecond := vm.history, vm.HasMoreHistoryToLoad();
  }

  /** The password the sign-out test signs up with meets the policy. */
  lemma SignOutPasswordValid()
    ensures IsPasswordValid("Test345678!")
  {
    var p := "Test345678!";
    assert SeenFrom(p, 0, Upper) by { assert IsKind(Upper, p[0]); }
    assert SeenFrom(p, 0, Lower) by { assert IsKind(Lower, p[1]); }
    assert SeenFrom(p, 0, Digit) by { assert IsKind(Digit, p[4]); }
    assert SeenFrom(p, 0, Symbol) by { assert IsKind(Symbol, p[10]); }
    assert AdmittedFrom(p, 0) by {
      assert IsPasswordChar(p[0]) && IsPasswordChar(p[1]) && IsPasswordChar(p[2]) && IsPasswordChar(p[3]);
      assert IsPasswordChar(p[4]) && IsPasswordChar(p[5]) && IsPasswordChar(p[6]) && IsPasswordChar(p[7]);
      assert IsPasswordChar(p[8]) && IsPasswordChar(p[9]) && IsPasswordChar(p[10]);
    }
    assert PasswordPolicy(p);
  }

  /** The session tests: an empty email and a weak password never reach the provider; sign-up then sign-out ends signed out. */
  method SessionFlows() returns (emptyEmail: Option<MedicError>, weak: Option<MedicError>, ghost callsBefore: nat,
                                 signedUp: Option<User>, signedOut: Option<User>, finalError: Option<MedicError>)
    ensures emptyEmail == Some(InvalidEmail) && weak == Some(WeakPassword) && callsBefore == 0
    ensures signedUp == Some(User("uid-1", Some("testout@test.com")))
    ensures signedOut == None && finalError == None
  {
    PasswordExamples();
    var store := new SessionStore();
    store.SignUp("", "Test123456!", AuthSucceeded("uid-0", Some("x")));
    emptyEmail := store.error;
    store.SignUp("test@test.com", "weak", AuthSucceeded("uid-0", Some("x")));
    weak := store.error;
    callsBefore := |store.authCalls|;
    SignOutPasswordValid();
    store.SignUp("testout@test.com", "Test345678!", AuthSucceeded("uid-1", Some("testout@test.com")));
    signedUp := store.session;
    store.SignOut(true);
    signedOut, finalError := store.session, store.error;
  }
}
