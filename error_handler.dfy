/** The central error handler (`ErrorHandler`): building application errors with default messages,
    classifying them, converting whatever was thrown, a bounded newest-first log of handled errors
    and statistics over it, and the wait between retries. */
module ErrorHandling {
  import opened Strings
  import opened ErrorCodes

  /** A value stored in an error's context record. */
  datatype Value = Num(n: int) | Str(s: string) | Flag(b: bool)

  type Context = map<string, Value>

  /** An application error. The original error is kept as its message; the timestamp is in
      milliseconds. */
  datatype AppError = AppError(code: ErrorCode, message: string, originalError: Option<string>,
                               timestamp: int, context: Option<Context>)

  /** `getDefaultMessage`: a message for every code; codes with an entry in the shared table use it. */
  function DefaultMessage(code: ErrorCode): (r: string)
    ensures r != []
    ensures code == InvalidCredentials ==> r == InvalidCredentialsMessage
    ensures code == RequiredField ==> r == RequiredFieldMessage
    ensures code == DatabaseError ==> r == DatabaseErrorMessage
    ensures code == PrinterError ==> r == PrinterErrorMessage
    ensures code == ScaleError ==> r == ScaleErrorMessage
    ensures code == NetworkError ==> r == NetworkErrorMessage
    ensures code == PermissionDenied ==> r == AccessDeniedMessage
    ensures code == UnknownError ==> r == UnknownErrorMessage
  {
    match code
    case InvalidCredentials => InvalidCredentialsMessage
    case UserNotFound => "User tidak ditemukan"
    case UsernameTaken => "Username sudah digunakan"
    case SessionExpired => "Sesi telah berakhir, silakan login kembali"
    case RequiredField => RequiredFieldMessage
    case InvalidFormat => "Format input tidak valid"
    case ValueTooLong => "Nilai terlalu panjang"
    case ValueTooShort => "Nilai terlalu pendek"
    case InvalidRange => "Nilai di luar rentang yang diperbolehkan"
    case DatabaseError => DatabaseErrorMessage
    case RecordNotFound => "Data tidak ditemukan"
    case DuplicateRecord => "Data sudah ada"
    case ForeignKeyConstraint => "Tidak dapat menghapus data yang masih digunakan"
    case InsufficientStock => "Stok tidak mencukupi"
    case InvalidTransaction => "Transaksi tidak valid"
    case ProductNotFound => "Produk tidak ditemukan"
    case InvalidWeight => "Berat tidak valid"
    case PrinterError => PrinterErrorMessage
    case ScaleError => ScaleErrorMessage
    case ConnectionError => "Koneksi perangkat bermasalah"
    case NetworkError => NetworkErrorMessage
    case PermissionDenied => AccessDeniedMessage
    case FileNotFound => "File tidak ditemukan"
    case UnknownError => UnknownErrorMessage
  }

  /** `message || getDefaultMessage(code)`: an absent or empty message gives the default. */
  function MessageOrDefault(message: Option<string>, code: ErrorCode): (r: string)
    ensures r != []
    ensures message.Some? && message.value != [] ==> r == message.value
    ensures message.None? || message.value == [] ==> r == DefaultMessage(code)
  {
    if message.Some? && message.value != [] then message.value else DefaultMessage(code)
  }

  /** `createError`, with the clock reading `now` as its timestamp. */
  function CreateError(code: ErrorCode, message: Option<string>, originalError: Option<string>,
                       context: Option<Context>, now: int): (e: AppError)
    ensures e.code == code && e.timestamp == now && e.originalError == originalError && e.context == context
    ensures e.message == MessageOrDefault(message, code)
  {
    AppError(code, MessageOrDefault(message, code), originalError, now, context)
  }

  /** Every error built by `createError` carries a non-empty message. */
  lemma CreatedErrorHasMessage(code: ErrorCode, message: Option<string>, originalError: Option<string>,
                               context: Option<Context>, now: int)
    ensures CreateError(code, message, originalError, context, now).message != []
  {
  }

  predicate IsErrorOfType(e: AppError, code: ErrorCode) { e.code == code }

  /** `isAuthError`: the authentication group, the first four codes declared. */
  predicate IsAuthError(e: AppError): (r: bool)
    ensures r <==> e.code in AllCodes[..4]
  {
    assert AllCodes[..4] == [InvalidCredentials, UserNotFound, UsernameTaken, SessionExpired];
    e.code in {InvalidCredentials, UserNotFound, UsernameTaken, SessionExpired}
  }

  /** `isValidationError`: the validation group, the five codes declared after it. */
  predicate IsValidationError(e: AppError): (r: bool)
    ensures r <==> e.code in AllCodes[4..9]
  {
    assert AllCodes[4..9] == [RequiredField, InvalidFormat, ValueTooLong, ValueTooShort, InvalidRange];
    e.code in {RequiredField, InvalidFormat, ValueTooLong, ValueTooShort, InvalidRange}
  }

  /** `isDatabaseError`: the database group, the four codes declared after it. */
  predicate IsDatabaseError(e: AppError): (r: bool)
    ensures r <==> e.code in AllCodes[9..13]
  {
    assert AllCodes[9..13] == [DatabaseError, RecordNotFound, DuplicateRecord, ForeignKeyConstraint];
    e.code in {DatabaseError, RecordNotFound, DuplicateRecord, ForeignKeyConstraint}
  }

  /** `isHardwareError`: the hardware group, the three codes declared after the business ones. */
  predicate IsHardwareError(e: AppError): (r: bool)
    ensures r <==> e.code in AllCodes[17..20]
  {
    assert AllCodes[17..20] == [PrinterError, ScaleError, ConnectionError];
    e.code in {PrinterError, ScaleError, ConnectionError}
  }

  /** How many of the four categories an error falls in. */
  function Categories(e: AppError): (n: nat)
    ensures n <= 4
  {
    (if IsAuthError(e) then 1 else 0) + (if IsValidationError(e) then 1 else 0)
    + (if IsDatabaseError(e) then 1 else 0) + (if IsHardwareError(e) then 1 else 0)
  }

  /** The categories are pairwise disjoint; business-logic and system errors are in none. */
  lemma {:induction false} CategoriesDisjoint(e: AppError)
    ensures Categories(e) <= 1
    ensures Categories(e) == 0 <==>
              e.code in {InsufficientStock, InvalidTransaction, ProductNotFound, InvalidWeight,
                         UnknownError, NetworkError, PermissionDenied, FileNotFound}
  {
    match e.code
    case InvalidCredentials =>
    case UserNotFound =>
    case UsernameTaken =>
    case SessionExpired =>
    case RequiredField =>
    case InvalidFormat =>
    case ValueTooLong =>
    case ValueTooShort =>
    case InvalidRange =>
    case DatabaseError =>
    case RecordNotFound =>
    case DuplicateRecord =>
    case ForeignKeyConstraint =>
    case InsufficientStock =>
    case InvalidTransaction =>
    case ProductNotFound =>
    case InvalidWeight =>
    case PrinterError =>
    case ScaleError =>
    case ConnectionError =>
    case UnknownError =>
    case NetworkError =>
    case PermissionDenied =>
    case FileNotFound =>
  }

  /** `formatForDisplay`: the message, behind "[CODE] " when asked for. */
  function FormatForDisplay(e: AppError, includeCode: bool): (r: string)
    ensures EndsWith(r, e.message)
    ensures !includeCode ==> r == e.message
    ensures includeCode ==> StartsWith(r, "[" + CodeName(e.code) + "] ")
    ensures includeCode ==> |r| == |CodeName(e.code)| + 3 + |e.message|
  {
    if includeCode then
      var head := "[" + CodeName(e.code) + "] ";
      var r := head + e.message;
      assert r[..|head|] == head && r[|head|..] == e.message;
      r
    else e.message
  }

  /** What `handle` may be given. */
  datatype Thrown =
    | Text(text: string)                    // a string
    | PlainError(errorMessage: string)      // an `Error` without a `code`
    | Coded(error: AppError)                // an `AppError`
    | Other(value: string)                  // anything else, shown by its text

  const FallbackMessage := "An unknown error occurred"

  /** The conversion part of `handle`: strings and plain errors become `UNKNOWN_ERROR` errors with
      the caller's context; an application error keeps its code and message and gets the
      caller's context merged over its own when that context is not empty. */
  function Convert(thrown: Thrown, context: Context, now: int): (e: AppError)
    ensures thrown.Text? ==> (e.code == UnknownError && e.context == Some(context)
                              && e.message == MessageOrDefault(Some(thrown.text), UnknownError))
    ensures thrown.PlainError? ==> (e.code == UnknownError && e.originalError == Some(thrown.errorMessage)
                                    && e.message == MessageOrDefault(Some(thrown.errorMessage), UnknownError))
    ensures thrown.Coded? ==> (e.code == thrown.error.code && e.message == thrown.error.message
                               && e.timestamp == thrown.error.timestamp)
    ensures thrown.Coded? && context != map[] ==>
              (e.context.Some? && (forall k :: k in context ==> k in e.context.value && e.context.value[k] == context[k])
               && (thrown.error.context.Some? ==>
                     forall k :: k in thrown.error.context.value && k !in context ==>
                                   k in e.context.value && e.context.value[k] == thrown.error.context.value[k]))
    ensures thrown.Coded? && context == map[] ==> e == thrown.error
    ensures thrown.Other? ==> (e.code == UnknownError && e.message == FallbackMessage
                               && e.originalError == Some(thrown.value) && e.context == Some(context))
  {
    match thrown
    case Text(s) => CreateError(UnknownError, Some(s), None, Some(context), now)
    case PlainError(m) => CreateError(UnknownError, Some(m), Some(m), Some(context), now)
    case Coded(a) =>
      if |context| > 0 then
        var own := if a.context.Some? then a.context.value else map[];
        a.(context := Some(own + context))
      else a
    case Other(v) => CreateError(UnknownError, Some(FallbackMessage), Some(v), Some(context), now)
  }

  /** Every handled error has a non-empty message unless an application error came in with an
      empty one. */
  lemma ConvertedMessage(thrown: Thrown, context: Context, now: int)
    requires !(thrown.Coded? && thrown.error.message == [])
    ensures Convert(thrown, context, now).message != []
  {
  }

  /** The newest `MaxLogs` entries are kept. */
  const MaxLogs: nat := 1000

  /** The log after an error is put in front: at most `MaxLogs` entries. */
  function Pushed(e: AppError, logs: seq<AppError>): (r: seq<AppError>)
    ensures |r| <= MaxLogs && r != [] && r[0] == e
    ensures |logs| < MaxLogs ==> r == [e] + logs
    ensures |logs| >= MaxLogs ==> r == [e] + logs[..MaxLogs - 1]
  {
    var all := [e] + logs;
    if |all| > MaxLogs then all[..MaxLogs] else all
  }

  /** How many entries carry `code`. */
  function Count(entries: seq<AppError>, code: ErrorCode): (n: nat)
    ensures n <= |entries|
  {
    if entries == [] then 0
    else Count(entries[..|entries| - 1], code) + (if entries[|entries| - 1].code == code then 1 else 0)
  }

  /** How many entries were logged at `since` or later. */
  function CountSince(entries: seq<AppError>, since: int): (n: nat)
    ensures n <= |entries|
  {
    if entries == [] then 0
    else CountSince(entries[..|entries| - 1], since) + (if entries[|entries| - 1].timestamp >= since then 1 else 0)
  }

  /** `byCode[error.code] = (byCode[error.code] || 0) + 1` over the entries in order. */
  function ByCode(entries: seq<AppError>): map<ErrorCode, nat> {
    if entries == [] then map[]
    else
      var m := ByCode(entries[..|entries| - 1]);
      var c := entries[|entries| - 1].code;
      m[c := (if c in m then m[c] else 0) + 1]
  }

  /** The table holds exactly the codes that occur, each with its number of occurrences. */
  lemma {:induction false} ByCodeCounts(entries: seq<AppError>)
    ensures forall c :: c in ByCode(entries) <==> Count(entries, c) > 0
    ensures forall c :: c in ByCode(entries) ==> ByCode(entries)[c] == Count(entries, c)
  {
    if entries != [] {
      ByCodeCounts(entries[..|entries| - 1]);
    }
  }

  /** The counts of the codes in `codes`, added up. */
  function SumCounts(entries: seq<AppError>, codes: seq<ErrorCode>): nat {
    if codes == [] then 0 else Count(entries, codes[0]) + SumCounts(entries, codes[1..])
  }

  /** How often `c` occurs in `codes`. */
  function Occurrences(codes: seq<ErrorCode>, c: ErrorCode): nat {
    if codes == [] then 0 else (if codes[0] == c then 1 else 0) + Occurrences(codes[1..], c)
  }

  lemma {:induction false} SumCountsAppend(entries: seq<AppError>, e: AppError, codes: seq<ErrorCode>)
    ensures SumCounts(entries + [e], codes) == SumCounts(entries, codes) + Occurrences(codes, e.code)
  {
    var all := entries + [e];
    assert all[..|all| - 1] == entries;
    if codes != [] {
      SumCountsAppend(entries, e, codes[1..]);
    }
  }

  lemma {:induction false} OccursOnce(codes: seq<ErrorCode>, c: ErrorCode)
    requires c in codes
    requires forall i, j :: 0 <= i < j < |codes| ==> codes[i] != codes[j]
    ensures Occurrences(codes, c) == 1
  {
    if codes[0] == c {
      NotOccurring(codes[1..], c);
    } else {
      OccursOnce(codes[1..], c);
    }
  }

  lemma {:induction false} NotOccurring(codes: seq<ErrorCode>, c: ErrorCode)
    requires c !in codes
    ensures Occurrences(codes, c) == 0
  {
    if codes != [] {
      NotOccurring(codes[1..], c);
    }
  }

  /** Added up over all codes, the per-code counts give the number of entries. */
  lemma {:induction false} CountsAddUp(entries: seq<AppError>)
    ensures SumCounts(entries, AllCodes) == |entries|
  {
    if entries == [] {
      ZeroCounts(AllCodes);
    } else {
      var init := entries[..|entries| - 1];
      var e := entries[|entries| - 1];
      assert init + [e] == entries;
      CountsAddUp(init);
      SumCountsAppend(init, e, AllCodes);
      AllCodesListsEachOnce(e.code);
      OccursOnce(AllCodes, e.code);
    }
  }

  lemma {:induction false} ZeroCounts(codes: seq<ErrorCode>)
    ensures SumCounts([], codes) == 0
  {
    if codes != [] {
      ZeroCounts(codes[1..]);
    }
  }

  /** One hour in milliseconds. */
  const HourMs: int := 60 * 60 * 1000

  /** `getErrorStats`' result. */
  datatype ErrorStats = ErrorStats(total: nat, byCode: map<ErrorCode, nat>, recent: nat)

  /** The process-wide log of handled errors, newest first. */
  class ErrorLog {
    var logs: seq<AppError>

    /** The log never holds more than `MaxLogs` entries; every method keeps this. */
    predicate Valid()
      reads this
    {
      |logs| <= MaxLogs
    }

    constructor()
      ensures logs == [] && Valid()
    {
      logs := [];
    }

    /** `addToLog`: `unshift`, then cut back to `MaxLogs` entries. */
    method AddToLog(e: AppError)
      requires Valid()
      modifies this
      ensures logs == Pushed(e, old(logs)) && Valid()
    {
      logs := [e] + logs;
      if |logs| > MaxLogs {
        logs := logs[..MaxLogs];
      }
    }

    /** `getErrorLogs`: a copy of the log. */
    method GetErrorLogs() returns (r: seq<AppError>)
      requires Valid()
      ensures r == logs && |r| <= MaxLogs
    {
      r := logs;
    }

    method ClearErrorLogs()
      modifies this
      ensures logs == [] && Valid()
    {
      logs := [];
    }

    /** `handle`: convert, then log; the console and file logging are not modelled. */
    method Handle(error: Thrown, context: Context, now: int) returns (e: AppError)
      requires Valid()
      modifies this
      ensures e == Convert(error, context, now)
      ensures logs == Pushed(e, old(logs)) && Valid()
    {
      e := Convert(error, context, now);
      AddToLog(e);
    }

    /** `getErrorStats` with the clock reading `now`: the number of entries, the count per code
        and the number logged in the last hour. */
    method GetErrorStats(now: int) returns (stats: ErrorStats)
      requires Valid()
      ensures stats.total == |logs| && stats.total <= MaxLogs
      ensures stats.byCode == ByCode(logs)
      ensures stats.recent == CountSince(logs, now - HourMs)
    {
      var oneHourAgo := now - HourMs;
      var byCode: map<ErrorCode, nat> := map[];
      var recent: nat := 0;
      for i := 0 to |logs|
        invariant byCode == ByCode(logs[..i])
        invariant recent == CountSince(logs[..i], oneHourAgo)
      {
        var error := logs[i];
        assert logs[..i + 1][..i] == logs[..i];
        byCode := byCode[error.code := (if error.code in byCode then byCode[error.code] else 0) + 1];
        if error.timestamp >= oneHourAgo {
          recent := recent + 1;
        }
      }
      assert logs[..|logs|] == logs;
      stats := ErrorStats(|logs|, byCode, recent);
    }
  }

  /** The statistics agree with each other: the per-code counts add up to the total, every
      logged code has an entry, and the recent errors are among the total. */
  lemma StatsConsistent(entries: seq<AppError>, now: int)
    ensures SumCounts(entries, AllCodes) == |entries|
    ensures forall c :: c in ByCode(entries) <==> Count(entries, c) > 0
    ensures forall c :: c in ByCode(entries) ==> ByCode(entries)[c] == Count(entries, c)
    ensures CountSince(entries, now - HourMs) <= |entries|
  {
    CountsAddUp(entries);
    ByCodeCounts(entries);
  }

  /** After a push the counts grow by one for the new code only, unless the oldest entry was
      dropped. */
  lemma PushCounts(e: AppError, logs: seq<AppError>, c: ErrorCode)
    requires |logs| < MaxLogs
    ensures Count(Pushed(e, logs), c) == Count(logs, c) + (if e.code == c then 1 else 0)
  {
    CountFront(e, logs, c);
  }

  lemma {:induction false} CountFront(e: AppError, logs: seq<AppError>, c: ErrorCode)
    ensures Count([e] + logs, c) == Count(logs, c) + (if e.code == c then 1 else 0)
    decreases |logs|
  {
    if logs == [] {
      assert [e] + logs == [e];
      assert [e][..0] == [];
    } else {
      var all := [e] + logs;
      assert all[..|all| - 1] == [e] + logs[..|logs| - 1];
      assert all[|all| - 1] == logs[|logs| - 1];
      CountFront(e, logs[..|logs| - 1], c);
    }
  }

  function Pow2(k: nat): (r: nat)
    ensures r >= 1
  {
    if k == 0 then 1 else 2 * Pow2(k - 1)
  }

  /** The wait after failed attempt `attempt` (counted from 1) of `retry`. */
  function WaitTime(attempt: nat, delay: nat, backoff: bool): (r: nat)
    requires attempt >= 1
    ensures r >= delay
    ensures !backoff || attempt == 1 ==> r == delay
  {
    if backoff then delay * Pow2(attempt - 1) else delay
  }

  /** The waits after the first `n` failed attempts, added up. */
  function TotalWait(n: nat, delay: nat, backoff: bool): nat {
    if n == 0 then 0 else TotalWait(n - 1, delay, backoff) + WaitTime(n, delay, backoff)
  }

  /** With backoff each wait doubles the previous one. */
  lemma WaitDoubles(n: nat, delay: nat)
    requires n >= 1
    ensures WaitTime(n + 1, delay, true) == 2 * WaitTime(n, delay, true)
  {
    Twice(delay, Pow2(n - 1));
  }

  lemma Twice(d: int, p: int)
    ensures d * (2 * p) == 2 * (d * p)
  {
  }

  lemma Distrib(d: int, p: int)
    ensures d * (p - 1) + d * p == d * (2 * p - 1)
  {
  }

  /** With backoff `n` waits add up to `delay * (2^n - 1)`. */
  lemma {:induction false} BackoffTotal(n: nat, delay: nat)
    ensures TotalWait(n, delay, true) == delay * (Pow2(n) - 1)
  {
    if n > 0 {
      BackoffTotal(n - 1, delay);
      Distrib(delay, Pow2(n - 1));
    }
  }

  /** Without backoff `n` waits add up to `delay * n`. */
  lemma {:induction false} FlatTotal(n: nat, delay: nat)
    ensures TotalWait(n, delay, false) == delay * n
  {
    if n > 0 {
      FlatTotal(n - 1, delay);
      assert delay * (n - 1) + delay == delay * n;
    }
  }

  /** How `retry` ends: the attempt whose operation returned, the attempt after which the last
      error was thrown, or no attempt at all when `maxAttempts` is below 1. */
  datatype RetryEnd = Returned(attempt: nat) | GaveUp(attempt: nat) | NoAttempt

  /** The waits of a run, added up. */
  function Sum(waits: seq<nat>): nat {
    if waits == [] then 0 else Sum(waits[..|waits| - 1]) + waits[|waits| - 1]
  }

  /** The attempt loop of `retry`, with `succeeds(k)` the outcome of attempt `k` (from 1): it
      returns at the first attempt that succeeds, gives up after attempt `maxAttempts`, and waits
      `WaitTime` after every failed attempt but the last. */
  method Retry(succeeds: nat -> bool, maxAttempts: int, delay: nat, backoff: bool)
    returns (end: RetryEnd, waits: seq<nat>)
    ensures maxAttempts < 1 <==> end == NoAttempt
    ensures end.Returned? <==> exists k :: 1 <= k <= maxAttempts && succeeds(k)
    ensures end.Returned? ==> 1 <= end.attempt <= maxAttempts && succeeds(end.attempt)
                              && forall k :: 1 <= k < end.attempt ==> !succeeds(k)
    ensures end.GaveUp? ==> end.attempt == maxAttempts
    ensures |waits| == (if end.NoAttempt? then 0 else end.attempt - 1)
    ensures forall i :: 0 <= i < |waits| ==> waits[i] == WaitTime(i + 1, delay, backoff)
    ensures Sum(waits) == TotalWait(|waits|, delay, backoff)
    ensures end.GaveUp? && backoff ==> Sum(waits) == delay * (Pow2(maxAttempts - 1) - 1)
    ensures end.GaveUp? && !backoff ==> Sum(waits) == delay * (maxAttempts - 1)
  {
    end, waits := NoAttempt, [];
    var attempt := 1;
    while attempt <= maxAttempts
      invariant if maxAttempts >= 1 then 1 <= attempt <= maxAttempts else attempt == 1
      invariant |waits| == attempt - 1
      invariant forall i :: 0 <= i < |waits| ==> waits[i] == WaitTime(i + 1, delay, backoff)
      invariant Sum(waits) == TotalWait(|waits|, delay, backoff)
      invariant forall k :: 1 <= k < attempt ==> !succeeds(k)
      decreases maxAttempts - attempt
    {
      if succeeds(attempt) {
        end := Returned(attempt);
        return;
      }
      if attempt == maxAttempts {
        end := GaveUp(attempt);
        BackoffTotal(attempt - 1, delay);
        FlatTotal(attempt - 1, delay);
        return;
      }
      var w := WaitTime(attempt, delay, backoff);
      assert (waits + [w])[..|waits|] == waits;
      waits := waits + [w];
      attempt := attempt + 1;
    }
  }
}
