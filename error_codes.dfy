/** The application's error codes and the shared error message table (`ErrorCode`,
    `ERROR_MESSAGES`). */
module ErrorCodes {

  datatype ErrorCode =
    // authentication
    | InvalidCredentials | UserNotFound | UsernameTaken | SessionExpired
    // validation
    | RequiredField | InvalidFormat | ValueTooLong | ValueTooShort | InvalidRange
    // database
    | DatabaseError | RecordNotFound | DuplicateRecord | ForeignKeyConstraint
    // business logic
    | InsufficientStock | InvalidTransaction | ProductNotFound | InvalidWeight
    // hardware
    | PrinterError | ScaleError | ConnectionError
    // system
    | UnknownError | NetworkError | PermissionDenied | FileNotFound

  /** The string value of each enum member. */
  function CodeName(c: ErrorCode): string {
    match c
    case InvalidCredentials => "INVALID_CREDENTIALS"
    case UserNotFound => "USER_NOT_FOUND"
    case UsernameTaken => "USERNAME_TAKEN"
    case SessionExpired => "SESSION_EXPIRED"
    case RequiredField => "REQUIRED_FIELD"
    case InvalidFormat => "INVALID_FORMAT"
    case ValueTooLong => "VALUE_TOO_LONG"
    case ValueTooShort => "VALUE_TOO_SHORT"
    case InvalidRange => "INVALID_RANGE"
    case DatabaseError => "DATABASE_ERROR"
    case RecordNotFound => "RECORD_NOT_FOUND"
    case DuplicateRecord => "DUPLICATE_RECORD"
    case ForeignKeyConstraint => "FOREIGN_KEY_CONSTRAINT"
    case InsufficientStock => "INSUFFICIENT_STOCK"
    case InvalidTransaction => "INVALID_TRANSACTION"
    case ProductNotFound => "PRODUCT_NOT_FOUND"
    case InvalidWeight => "INVALID_WEIGHT"
    case PrinterError => "PRINTER_ERROR"
    case ScaleError => "SCALE_ERROR"
    case ConnectionError => "CONNECTION_ERROR"
    case UnknownError => "UNKNOWN_ERROR"
    case NetworkError => "NETWORK_ERROR"
    case PermissionDenied => "PERMISSION_DENIED"
    case FileNotFound => "FILE_NOT_FOUND"
  }

  /** Every code, once each, in declaration order. */
  const AllCodes: seq<ErrorCode> := [
    InvalidCredentials, UserNotFound, UsernameTaken, SessionExpired,
    RequiredField, InvalidFormat, ValueTooLong, ValueTooShort, InvalidRange,
    DatabaseError, RecordNotFound, DuplicateRecord, ForeignKeyConstraint,
    InsufficientStock, InvalidTransaction, ProductNotFound, InvalidWeight,
    PrinterError, ScaleError, ConnectionError,
    UnknownError, NetworkError, PermissionDenied, FileNotFound]

  /** `ERROR_MESSAGES`. */
  const NetworkErrorMessage := "Koneksi jaringan bermasalah"
  const UnknownErrorMessage := "Terjadi kesalahan yang tidak diketahui"
  const InvalidInputMessage := "Input tidak valid"
  const RequiredFieldMessage := "Field ini wajib diisi"
  const InvalidCredentialsMessage := "Username atau password salah"
  const AccessDeniedMessage := "Akses ditolak"
  const ServerErrorMessage := "Terjadi kesalahan pada server"
  const DatabaseErrorMessage := "Terjadi kesalahan pada database"
  const PrinterErrorMessage := "Terjadi kesalahan pada printer"
  const ScaleErrorMessage := "Terjadi kesalahan pada timbangan"

  /** Each code occurs in `AllCodes` exactly once. */
  lemma AllCodesListsEachOnce(c: ErrorCode)
    ensures c in AllCodes
    ensures forall i, j :: 0 <= i < j < |AllCodes| ==> AllCodes[i] != AllCodes[j]
  {
  }
}
