/**
 * The value types of the application: the closed error set, the two small
 * enumerations, the two document records and the static configuration.
 */
module MedicModel {
  import opened Wrappers

  /** The application's closed error set (MedicError.swift); one of them at a time sits in an `error` slot. */
  datatype MedicError =
    | InvalidEmail
    | InvalidPassword
    | SignInFailed
    | EmailAlreadyInUse
    | WeakPassword
    | SignUpFailed
    | SignOutFailed
    | UpdateStockError
    | FetchHistoryError
    | AddMedicineError
    | DeleteMedicineError
    | UpdateMedicineError
    | AddHistoryError
    | MedicineNotFound
    | InvalidMedicineId
    | InvalidMedicineName
    | InvalidStock
    | InvalidAisle
    | FetchDataError
    | DecodingError

  /** `errorDescription`: the user-facing text of every error; it is also the error's `id` for alerts. */
  function ErrorDescription(e: MedicError): (text: string)
    ensures |text| > 0
  {
    match e
    case InvalidEmail => "Please enter a valid email address"
    case InvalidPassword => "Please enter a valid password"
    case SignInFailed => "sign in failed"
    case EmailAlreadyInUse => "An account already exists with this email"
    case WeakPassword => "Password is too weak"
    case SignUpFailed => "sign up failed"
    case SignOutFailed => "sign out failed"
    case UpdateStockError => "Failed to update stock. Please try again."
    case FetchHistoryError => "Failed to fetch history"
    case AddMedicineError => "Failed to add medicine"
    case DeleteMedicineError => "Failed to delete medicine"
    case UpdateMedicineError => "Failed to update medicine"
    case AddHistoryError => "Failed to add history entry"
    case MedicineNotFound => "Medicine not found"
    case InvalidMedicineId => "Invalid medicine ID"
    case InvalidMedicineName => "Medicine name cannot be empty"
    case InvalidStock => "Stock must be a valid number"
    case InvalidAisle => "Aisle must be selected or created"
    case FetchDataError => "Failed to fetch data from server"
    case DecodingError => "Failed to read medicine data"
  }

  /** `SortOption`: `.none`, `.name` and `.stock`. */
  datatype SortOption = Unsorted | ByName | ByStock

  /** `LoadingStrategy`: one unbounded query, or pages of `pageSize` documents. */
  datatype LoadingStrategy = Eager | Lazy

  /** A stored medicine; `id` is the document id, filled in when read back from the store. */
  datatype Medicine = Medicine(id: Option<string>, name: string, stock: int, aisle: string)

  /** A creation time, opaque to the model. */
  type Timestamp = int

  /** One line of the stock-change log. */
  datatype HistoryEntry = HistoryEntry(
    id: Option<string>,
    medicineId: string,
    userId: string,
    user: string,
    action: string,
    details: string,
    timestamp: Timestamp)

  /** The page size of the paged queries; a page of 0 would index document -1. */
  type PageSize = n: int | 1 <= n witness 20

  /** `MedicConfig`: the static switches read by the view model. */
  datatype MedicConfig = MedicConfig(
    useEmulatorFirebase: bool,
    useFirebaseFiltering: bool,
    loadingMedicineStrategy: LoadingStrategy,
    loadingHistoryStrategy: LoadingStrategy,
    pageSize: PageSize)

  /** The values the configuration starts with. */
  const DefaultConfig := MedicConfig(false, false, Eager, Eager, 20)
}
