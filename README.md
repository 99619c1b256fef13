# Timbang Cerdas — a verified model of the weighing and receipt core

Timbang Cerdas is a mobile app for weighing stations. An operator enters the gross weight, the tare,
a percentage deduction and a price per kilogram. The app computes the net weight, the billed weight
and the amount due. It stores the transaction and prints a receipt on a 58 mm thermal printer,
shows that receipt on screen, or shares it as a PDF. A report lists the transactions of a period.
Users register and log in with a salted, hashed password.

This project models that core in Dafny and proves what each part promises. The parts are:

- `Calculation`: the weighing arithmetic (`calculateValues`) and its test vector.
- `ReceiptModel`: the shared records (transaction, receipt settings, a decomposed date) and the
  receipt as an ordered list of lines (rules, headings, centred text, labelled fields, the note).
- `ReceiptTemplate`: the on-screen receipt (`formatCurrency`, `formatDate` and the conditional
  sections of `ThermalReceiptTemplate`), as a function from transaction and settings to lines.
- `PrintService`: the print and PDF renderer. `generateReceiptHTML` is a method that builds the
  document step by step, exactly as the original appends to `html`. It is proved equal to a fold of
  markup blocks, and the blocks are proved to show a list of receipt lines. That list is compared
  with the on-screen receipt. This module also holds the outcome messages of `printReceipt` and
  `generateAndSharePDF`, and `getReceiptPreviewData`.
- `ExportTemplate`: the totals and the rows of the transaction report.
- `Formatting`: the pure string helpers of `utils/formatting.ts`.
- `Validation`: the guard chains of `utils/validation.ts`.
- `ErrorCodes`: the error code enumeration and the shared message table.
- `ErrorHandling`: default messages, categories, the conversion done by `handle`, the bounded
  newest-first log (a class whose field is the log), its statistics and the retry loop
  with its waits.
- `Auth`: input checks, the `salt:digest` password format, the decisions of register, login,
  profile update and password change, and the session state (a class whose field is the current
  user).
- `Strings` and `Numbers`: the JavaScript built-ins the core relies on. These are `trim`,
  `indexOf`, `replace` with a string pattern, `padStart` and `String(n)`, plus `parseFloat` on
  decimal text and the id-ID `toLocaleString` for non-negative amounts. That locale groups
  thousands with '.', writes ',' as the decimal mark and rounds half up.

Amounts are exact `real`s, and a JavaScript number that may be NaN is `Num = Finite(real) | NaN`.
SHA-256 is an arbitrary function parameter `digest`. The random salt, the clock, the stored
session and the database rows are parameters.

Where the code does something other than what its own comments, names and tests suggest, the
model follows the code:

- The form carries a flat `pot_kg` field beside the percentage, and the field names suggest the
  deduction is taken from the clamped net weight. The code takes the deduction from the unclamped net weight and ignores
  the flat field (`Calculation.NegativeDeduction`, `Calculation.FlatDeductionIgnored`).
- The printed receipt is meant to reproduce the on-screen one, but the two differ as follows:
  - the printed one shows the admin and customer rows without checking that the names are
    non-empty;
  - it prints the note after the footer, and it prints a note made only of white space;
  - it hard-codes "Rp";
  - it prints admin before customer, while the screen shows customer before admin;
  - it writes the date without zero padding.

  Each difference is stated as a lemma in `PrintService`.
- The weight validator removes only 'k', 'g' (in either case) and white space, then reads the rest
  with `parseFloat`, which stops at the first character that cannot continue a number. A weight
  written with a decimal comma is therefore cut at the comma (`Validation.DecimalCommaWeight`).
- Registration measures the untrimmed full name. A space followed by one letter passes
  registration, but the form's own full-name validator refuses it
  (`Auth.PaddedShortNameRegisters`).
- A salt drawn as the empty string, which happens when `Math.random()` returns 0, gives a stored
  hash that no password matches (`Auth.EmptySaltAcceptsNothing`).

## Model

| member | source | states |
|---|---|---|
| Calculation.Max0 | tests/calculation.test.ts:13-16 | `Math.max(0, x)` is at least 0 and at least x, and equals one of them |
| Calculation.Field | tests/calculation.test.ts:2-5 | `parseFloat(x) \|\| 0`: the number the text starts with, or 0 when it holds none |
| Calculation.CalculateValues | tests/calculation.test.ts:1-18 | each field is read with `parseFloat(x) \|\| 0`; the net weight is max(0, gross − tare); the deduction is the percentage of the unclamped gross − tare; the billed weight and the amount due (billed weight × price) are taken before clamping and then clamped at 0; net weight, billed weight and amount are never negative |
| Calculation.FieldOfNat | tests/calculation.test.ts:2-5 | a field holding the decimal digits of n reads as n |
| Calculation.Compute | tests/calculation.test.ts:7-17 | on read numbers: net weight max(0, gross − tare), deduction pct% of gross − tare, billed weight and amount due from the unclamped difference, each clamped at 0, so never negative |
| Calculation.NegativeDeduction | tests/calculation.test.ts:7-14 | with tare above gross and a positive percentage, the deduction is negative while the reported net weight is 0 |
| Calculation.ZeroPercentage | tests/calculation.test.ts:8-15 | with 0% there is no deduction and the billed weight equals the net weight |
| Calculation.NothingBilledNothingCharged | tests/calculation.test.ts:9-16 | a zero billed weight at a non-negative price gives a zero amount |
| Calculation.BilledAtMostNet | tests/calculation.test.ts:7-15 | a deduction between 0% and 100% never bills more than the net weight |
| Calculation.FlatDeductionIgnored | tests/calculation.test.ts:1-11 | the form's `pot_kg` field has no influence on the result |
| Calculation.EmptyFormIsZero | tests/calculation.test.ts:2-5 | empty fields count as 0, so an empty form computes all zeros |
| Calculation.UnparseableFieldIsZero | tests/calculation.test.ts:2-5 | a field with no digit at all counts as 0 (`parseFloat(x) \|\| 0`) |
| Calculation.TestVector | tests/calculation.test.ts:20-33 | gross 1500, tare 1000, 3% and 1000 per kg give 500, 15, 485 and 485000 |
| Numbers.NaNToZero | components/thermal/ThermalReceiptTemplate.tsx:31 | NaN becomes 0 and any other number is kept |
| Numbers.ParseFloatOfNatString | tests/calculation.test.ts:2-5 | `parseFloat` reads back the digits `String(n)` writes as n |
| Numbers.ParseFloatWithoutDigits | tests/calculation.test.ts:2-5 | `parseFloat` of text without a digit is NaN |
| Numbers.WholeIdLocaleHasNoComma | components/thermal/ThermalReceiptTemplate.tsx:34-39 | the id-ID text of a whole amount is its '.'-grouped digits and holds no ',' |
| Strings.TrimEmptyIffBlank | utils/validation.ts:64 | `!s.trim()` holds exactly when every character of s is white space |
| Strings.ReplaceFirst | components/thermal/ThermalReceiptTemplate.tsx:54-57 | `replace` with a string pattern rewrites only the first occurrence, and returns the text unchanged when there is none |
| Strings.Substitution | components/thermal/ThermalReceiptTemplate.tsx:39 | a replacement text without '$' is inserted as it is |
| Strings.ReplaceAllChar | components/thermal/ThermalReceiptTemplate.tsx:39 | text without the replaced character comes back unchanged |
| Strings.LiteralReplacement | components/thermal/ThermalReceiptTemplate.tsx:39 | with a replacement free of '$', every occurrence is replaced by that text literally |
| Strings.DollarPatterns | components/thermal/ThermalReceiptTemplate.tsx:39 | "$$" inserts one '$' ("1,5" with "$$" gives "1$5") and "$`" inserts the text before the match ("115") |
| ReceiptTemplate.FormatCurrency | components/thermal/ThermalReceiptTemplate.tsx:25-42 | the text always starts with the symbol and a space; each ',' of the id-ID text is replaced by the separator as `replace(/,/g, …)` does, `$` patterns included |
| ReceiptTemplate.FormatCurrencyNaN | components/thermal/ThermalReceiptTemplate.tsx:31-41 | a NaN amount is shown as symbol + " 0", the same as 0 |
| ReceiptTemplate.WholeAmountIgnoresSeparator | components/thermal/ThermalReceiptTemplate.tsx:34-39 | a whole amount shows its '.'-grouped digits whatever the separator setting, since only ',' is replaced |
| ReceiptTemplate.FormatCurrencyExample | components/thermal/ThermalReceiptTemplate.tsx:25-42 | 485000 with "Rp" is shown as "Rp 485.000" |
| ReceiptTemplate.Pad2 | components/thermal/ThermalReceiptTemplate.tsx:50-51 | `padStart(2, "0")` of a number: digits that read back as the number, two of them below 100 |
| ReceiptTemplate.FormatDate | components/thermal/ThermalReceiptTemplate.tsx:44-63 | without `showTime` the pattern with day, month and year filled in; with it that text followed by at least six more characters |
| ReceiptTemplate.TimeAppended | components/thermal/ThermalReceiptTemplate.tsx:59-63 | with `showTime` exactly " HH:MM" is appended, both zero-padded to the hour and minute; without it the date part alone is returned |
| ReceiptTemplate.DefaultPattern | components/thermal/ThermalReceiptTemplate.tsx:44-57 | the default "DD/MM/YYYY" gives padded day, "/", padded month, "/", year |
| ReceiptTemplate.TemplateLabels | components/thermal/ThermalReceiptTemplate.tsx:205-265 | the field labels in order: Tanggal, Barang, Bruto, Tare, Netto, [Pot (%)], [Pot (Kg)], Total, Harga, Jumlah Uang, [Customer], [Admin] |
| ReceiptTemplate.CustomerLineIff | components/thermal/ThermalReceiptTemplate.tsx:96-105 | the customer line appears iff it is enabled and the name is non-empty |
| ReceiptTemplate.AdminLineIff | components/thermal/ThermalReceiptTemplate.tsx:107-116 | the admin line appears iff it is enabled and the name is non-empty |
| ReceiptTemplate.DeductionLinesIff | components/thermal/ThermalReceiptTemplate.tsx:225-232 | each deduction line appears iff its amount is positive |
| ReceiptTemplate.NoteIff | components/thermal/ThermalReceiptTemplate.tsx:118-138 | the note appears, once and with its text, iff notes are on and the note is not blank |
| ReceiptTemplate.ThinRuleCount | components/thermal/ThermalReceiptTemplate.tsx:259-273 | one dashed rule after the amount, one more iff a customer or admin line is drawn, one more iff the note is drawn |
| ReceiptTemplate.NotePlacement | components/thermal/ThermalReceiptTemplate.tsx:155-303 | the receipt opens with the five header lines and closes with the three footer lines; a drawn note and its rule sit just above the footer |
| ReceiptTemplate.TemplateLines | components/thermal/ThermalReceiptTemplate.tsx:155-303 | the receipt lines begin with the header lines and end with the footer lines |
| PrintService.FormatMoney | components/thermal/ThermalPrintService.ts:43-46 | the text always starts with "Rp ", whatever the currency setting |
| PrintService.MoneyNaN | components/thermal/ThermalPrintService.ts:43-46 | a NaN amount prints as "Rp 0" |
| PrintService.WholeMoneyMatchesTemplate | components/thermal/ThermalPrintService.ts:43-46 | a whole amount prints exactly as the screen shows it with symbol "Rp", for any separator |
| PrintService.WholeWeight | components/thermal/ThermalPrintService.ts:48-50 | a whole weight prints '.'-grouped with " Kg" and no decimal comma |
| PrintService.FormatWeight | components/thermal/ThermalPrintService.ts:48-50 | a whole non-negative weight is written as its '.'-grouped digits, without a decimal comma |
| PrintService.SimpleDateReadsBack | components/thermal/ThermalPrintService.ts:52-55 | the printed date is day, '/', month, '/', year, each unpadded part reading back as its number |
| PrintService.PotPercentageRow | components/thermal/ThermalPrintService.ts:58-61 | a plain row "Pot (%)" with the percentage exactly when the percentage is positive |
| PrintService.PotKgRow | components/thermal/ThermalPrintService.ts:63-66 | a plain row "Pot (Kg)" with the weight exactly when the deduction in kg is positive |
| PrintService.AdminRow | components/thermal/ThermalPrintService.ts:68-71 | a plain row "Admin" with the admin name exactly when the setting is on |
| PrintService.CustomerRow | components/thermal/ThermalPrintService.ts:73-76 | a plain row "Customer" with the customer name exactly when the setting is on |
| PrintService.PrintBlocks | components/thermal/ThermalPrintService.ts:131-159 | five header blocks first, then five more, and an eleventh (the notes table) exactly when the note is printed |
| PrintService.SimpleDateAgainstDefaultPattern | components/thermal/ThermalPrintService.ts:52-55 | the printed date equals the screen's default-pattern date iff day and month have two digits |
| PrintService.MarkupFrame | components/thermal/ThermalPrintService.ts:84-161 | every document starts with the document type line and ends with the closing html tag |
| PrintService.HeaderStatements | components/thermal/ThermalPrintService.ts:131-135 | the header blocks append the thick rule, name, address, "HP: " phone and thick rule markup in that order |
| PrintService.DetailStatements | components/thermal/ThermalPrintService.ts:137-141 | the first five table rows append the date, goods, gross, tare and net rows |
| PrintService.AmountStatements | components/thermal/ThermalPrintService.ts:142-146 | the next five slots append the two prepared deduction rows, then total, price and the bold amount row |
| PrintService.MainTableStatements | components/thermal/ThermalPrintService.ts:136-147 | the details table is opened, filled with its ten slots and closed |
| PrintService.ClosingStatements | components/thermal/ThermalPrintService.ts:148-154 | a separator, the admin and customer table, a separator and the footer div, in that order |
| PrintService.NotesStatements | components/thermal/ThermalPrintService.ts:155-159 | the notes table is appended iff the notes row is non-empty, else nothing is |
| PrintService.WriteHeader | components/thermal/ThermalPrintService.ts:131-135 | the appended header equals the header blocks' markup |
| PrintService.WriteDetails | components/thermal/ThermalPrintService.ts:136-147 | the appended table equals the details table's markup |
| PrintService.WriteClosing | components/thermal/ThermalPrintService.ts:148-154 | the appended rest of the body equals its blocks' markup |
| PrintService.WriteNotes | components/thermal/ThermalPrintService.ts:155-159 | the appended notes equal the notes blocks' markup |
| PrintService.WriteReceipt | components/thermal/ThermalPrintService.ts:84-161 | the document from the prepared rows is the markup of the receipt blocks |
| PrintService.GenerateReceiptHTML | components/thermal/ThermalPrintService.ts:35-164 | the step-by-step document is the markup of the receipt blocks |
| PrintService.BlocksShowLines | components/thermal/ThermalPrintService.ts:131-159 | the blocks written show exactly the printed receipt lines, in order |
| PrintService.PrintLabels | components/thermal/ThermalPrintService.ts:137-151 | the printed field labels: Tanggal, Barang, Bruto, Tare, Netto, [Pot (%)], [Pot (Kg)], Total, Harga, Jumlah, [Admin], [Customer] |
| PrintService.PrintAdminLineIff | components/thermal/ThermalPrintService.ts:68-71 | the admin row is printed iff the setting is on |
| PrintService.PrintCustomerLineIff | components/thermal/ThermalPrintService.ts:73-76 | the customer row is printed iff the setting is on |
| PrintService.PrintDeductionLinesIff | components/thermal/ThermalPrintService.ts:58-66 | each deduction row is printed iff its amount is positive |
| PrintService.PrintNoteIff | components/thermal/ThermalPrintService.ts:78-81 | the note is printed, once and with its text, iff notes are on and the note is a non-empty string |
| PrintService.PrintThinRuleCount | components/thermal/ThermalPrintService.ts:148-153 | exactly two dashed separators are printed |
| PrintService.PrintNotePlacement | components/thermal/ThermalPrintService.ts:131-159 | the printed receipt opens with the header; the footer text is last, or just above the note when there is one |
| PrintService.PrintIgnoresFormatSettings | components/thermal/ThermalPrintService.ts:35-164 | the printed blocks depend on neither currency symbol, separator, date pattern nor time setting |
| PrintService.EmptyAdminDrift | components/thermal/ThermalPrintService.ts:68-71 | an enabled admin with an empty name is printed but not shown on screen |
| PrintService.EmptyCustomerDrift | components/thermal/ThermalPrintService.ts:73-76 | an enabled customer with an empty name is printed but not shown on screen |
| PrintService.BlankNoteDrift | components/thermal/ThermalPrintService.ts:78-81 | a white-space-only note is printed but not shown on screen |
| PrintService.PartyOrderDrift | components/thermal/ThermalPrintService.ts:137-151 | paper ends its fields Jumlah, Admin, Customer; the screen ends Jumlah Uang, Customer, Admin |
| PrintService.PrintResult | components/thermal/ThermalPrintService.ts:181-203 | success iff the print call returned; an error mentioning "print is not available" gives the unavailability message, any other gives "Gagal mencetak: " and the error text |
| PrintService.PrintReceipt | components/thermal/ThermalPrintService.ts:167-204 | the document handed over is the receipt markup and the result is the outcome's message |
| PrintService.PrintMessagesDistinct | components/thermal/ThermalPrintService.ts:181-203 | equal messages mean equal success, and a generic failure message determines the error text |
| PrintService.RaceWithTimer | components/thermal/ThermalPrintService.ts:220-229 | the file step's outcome before 30000 ms, otherwise the timeout error |
| PrintService.PdfFailure | components/thermal/ThermalPrintService.ts:271-285 | always a failure; the timeout message iff the error is exactly the timer's, else the generic message |
| PrintService.SharePdfResult | components/thermal/ThermalPrintService.ts:207-286 | success iff the file, availability and share steps all succeed; the sharing-unavailable message iff the file was made and sharing is unavailable |
| PrintService.GenerateAndSharePDF | components/thermal/ThermalPrintService.ts:207-286 | the document is the receipt markup and the result follows the race, availability and share outcomes |
| PrintService.SlowPdfTimesOut | components/thermal/ThermalPrintService.ts:225-229 | a file step slower than the timer ends with the timeout message whatever follows |
| PrintService.PdfMessages | components/thermal/ThermalPrintService.ts:249-284 | every result carries one of the four messages, the success one iff it succeeded |
| PrintService.GetReceiptPreviewData | components/thermal/ThermalPrintService.ts:289-299 | the transaction and settings are passed through and both amounts start with the currency symbol |
| PrintService.PreviewMatchesTemplate | components/thermal/ThermalPrintService.ts:289-299 | the preview's date, price and amount are the on-screen receipt's Tanggal, Harga and Jumlah Uang texts |
| ExportTemplate.ExportCurrency | components/export/TransactionExportTemplate.ts:7 | the text always starts with "Rp " |
| ExportTemplate.Rows | components/export/TransactionExportTemplate.ts:10-19 | one row per transaction, the i-th row made from the i-th transaction |
| ExportTemplate.ExportReport | components/export/TransactionExportTemplate.ts:3-19 | the count is the number of transactions, the totals are the sums, and each row carries its transaction's date, customer, goods and amount |
| ExportTemplate.TotalsAppend | components/export/TransactionExportTemplate.ts:4-5 | the totals of two lists put together are the sums of their totals |
| ExportTemplate.TotalsCons | components/export/TransactionExportTemplate.ts:4-5 | the totals are the first transaction's amounts plus the totals of the rest |
| ExportTemplate.RowsAppend | components/export/TransactionExportTemplate.ts:10-19 | rows of two lists put together are the rows of each, in order |
| ExportTemplate.RevenueCoversEach | components/export/TransactionExportTemplate.ts:4 | with non-negative amounts the revenue is at least any one amount |
| ExportTemplate.EmptyReport | components/export/TransactionExportTemplate.ts:4-19 | no transactions give count 0, zero totals shown as "0", "0 kg" and "Rp 0", and no rows |
| Formatting.TruncateText | utils/formatting.ts:266-272 | empty stays empty; a short text is kept; a long one is a prefix of it followed by the ellipsis, of length `maxLength` when the ellipsis fits |
| Formatting.TruncateIdempotent | utils/formatting.ts:266-272 | truncating twice to the same length changes nothing more |
| Formatting.FormatDuration | utils/formatting.ts:275-288 | below an hour the minutes and " menit" |
| Formatting.DurationSpells | utils/formatting.ts:275-288 | h hours and m < 60 minutes give "h jam", or "h jam m menit" when m > 0 |
| Formatting.FormatTransactionId | utils/formatting.ts:291-298 | NaN gives prefix + "-0000"; an id n ≥ 0 gives prefix, "-" and exactly max(6, number of digits of n) digits that read back as n |
| Formatting.TransactionIdsDistinct | utils/formatting.ts:291-298 | different non-negative ids give different transaction numbers |
| Formatting.NegativeTransactionId | utils/formatting.ts:291-298 | -5 is padded to "TXN-0000-5" |
| Formatting.JsRem | utils/formatting.ts:336-348 | JavaScript's `%` is the mathematical remainder for non-negative numbers and never positive for negative ones |
| Formatting.OrdinalSuffix | utils/formatting.ts:336-348 | the suffix is one of "th", "st", "nd", "rd" |
| Formatting.FormatOrdinal | utils/formatting.ts:336-348 | the number's text followed by its suffix |
| Formatting.OrdinalRule | utils/formatting.ts:336-348 | for n ≥ 0: "st", "nd", "rd" iff the last digit is 1, 2, 3 outside 11–13, "th" otherwise |
| Formatting.NegativeOrdinal | utils/formatting.ts:336-348 | a negative number always gets "th" |
| Formatting.CleanCurrencyString | utils/formatting.ts:351-358 | empty input gives "0"; otherwise every 'R', 'p', white space and '.' is removed and then the first ',' becomes '.'; no 'R', 'p' or white space remains and the text does not grow |
| Formatting.CleanWithoutComma | utils/formatting.ts:351-358 | for text without ',', cleaning keeps every character other than 'R', 'p', white space and '.' exactly as often as it occurs, and no other |
| Formatting.CleanFormattedCurrency | utils/formatting.ts:351-358 | cleaning "Rp " and an id-ID grouped whole amount gives back its digits |
| Formatting.CleanAfterMarks | utils/formatting.ts:351-358 | leading marks are dropped and the remaining text loses only its dots |
| Formatting.FormatProductCode | utils/formatting.ts:312-322 | empty stays empty; otherwise the result ends with exactly the code characters of the upper-cased code, in order, preceded by prefix + "-" when a prefix is given and by nothing otherwise |
| Formatting.ProductCodeIdempotent | utils/formatting.ts:312-322 | without a prefix a formatted code formats to itself |
| Formatting.ProductCodeAfterPrefix | utils/formatting.ts:312-322 | after the prefix and '-' comes the code formatted without a prefix |
| Formatting.ProductCodeKeeps | utils/formatting.ts:312-322 | without a prefix, each code character of the upper-cased code is kept as often as it occurs, and nothing else is |
| Formatting.FormatBarcode | utils/formatting.ts:377-382 | no white space and no lower-case letter remains, the text does not grow, and up to letter case it is the input with its white space removed |
| Formatting.BarcodeIdempotent | utils/formatting.ts:377-382 | a formatted barcode formats to itself |
| Formatting.FormatPhoneNumber | utils/formatting.ts:247-263 | "08" numbers of at least ten digits are grouped 4-4-rest, other "0" numbers of at least eight 3-4-rest, anything else is returned unchanged |
| Formatting.GroupingRoundTrip | utils/formatting.ts:247-263 | deleting the dashes of a grouping gives back the digits |
| Formatting.PhoneKeepsDigits | utils/formatting.ts:247-263 | formatting never changes the digits of a phone number |
| Formatting.CapitalizeJoin | utils/formatting.ts:229-237 | split, capitalise and join upper-cases exactly the characters at the start or after a space |
| Formatting.CapitalizeWordsShape | utils/formatting.ts:229-237 | the length and the positions of spaces are kept; word starts are upper-cased and the rest lower-cased |
| Formatting.CapitalizeWords | utils/formatting.ts:229-237 | the lower-cased text with each character that starts it or follows a space upper-cased (empty stays empty) |
| Validation.ValidatePhoneNumber | utils/validation.ts:27-60 | valid iff not blank, 8–15 digits, and 10–13 for "08", at least 11 for "62", else "0" and a non-zero digit; the first two failures' messages |
| Validation.InternationalUpperBoundUnreachable | utils/validation.ts:49-53 | the "62" upper bound never fires, the earlier length check already caps at 15 |
| Validation.ValidateUsername | utils/validation.ts:63-85 | valid iff not blank, 3–30 characters, all in [A-Za-z0-9_], neither starting nor ending with '_' |
| Validation.ValidatePassword | utils/validation.ts:88-107 | valid iff not blank and 6–128 characters |
| Validation.ValidateConfirmPassword | utils/validation.ts:110-120 | valid iff the confirmation is not blank and equals the password |
| Validation.ConfirmBySelf | utils/validation.ts:110-120 | a password confirmed by itself passes iff it is not blank |
| Validation.ValidateFullName | utils/validation.ts:123-142 | valid iff not blank and the trimmed name has 2–100 characters, all letters, white space, '.', ''' or '-' |
| Validation.FullNameIgnoresPadding | utils/validation.ts:123-142 | leading white space never changes the verdict |
| Validation.SameTrimSameVerdict | utils/validation.ts:123-142 | the verdict depends only on blankness and the trimmed text |
| Validation.ValidatePrice | utils/validation.ts:179-208 | for a number: valid iff finite and 0 to 999999999; NaN and empty text give their messages |
| Validation.FormattedPriceValid | utils/validation.ts:179-208 | "Rp " and a grouped whole amount reads as that amount and is valid iff within the maximum |
| Validation.ValidateWeight | utils/validation.ts:211-240 | for a number: valid iff finite, above 0 and at most 9999; NaN and empty text give their messages |
| Validation.DecimalCommaWeight | utils/validation.ts:211-240 | "0,5 kg" reads as 0 and is refused as not positive |
| Validation.ValidateBatch | utils/validation.ts:405-414 | valid iff every validator is; otherwise the first invalid result |
| Validation.CleanPhoneNumber | utils/validation.ts:417-429 | only digits and '+' remain; "+62" becomes "0"; "62" becomes "0" only above ten characters |
| Validation.CleanPhoneIdempotent | utils/validation.ts:417-429 | cleaning a cleaned number changes nothing |
| Validation.CleanInternational | utils/validation.ts:417-429 | "+62" and digits clean to "0" and the same digits |
| ErrorCodes.AllCodesListsEachOnce | utils/constants.ts:343-379 | the list of codes holds every code exactly once |
| ErrorHandling.DefaultMessage | utils/errorHandler.ts:44-107 | every code has a non-empty message; the codes with a table entry use it |
| ErrorHandling.MessageOrDefault | utils/errorHandler.ts:36 | a given non-empty message is kept, else the code's default is used |
| ErrorHandling.CreateError | utils/errorHandler.ts:28-41 | code, timestamp, original error and context are kept; the message is the given one or the default |
| ErrorHandling.CreatedErrorHasMessage | utils/errorHandler.ts:28-41 | every created error has a non-empty message |
| ErrorHandling.CategoriesDisjoint | utils/errorHandler.ts:233-270 | at most one category predicate holds, and none for business and system codes |
| ErrorHandling.IsAuthError | utils/errorHandler.ts:233-240 | true iff the code is INVALID_CREDENTIALS, USER_NOT_FOUND, USERNAME_TAKEN or SESSION_EXPIRED |
| ErrorHandling.IsValidationError | utils/errorHandler.ts:243-251 | true iff the code is REQUIRED_FIELD, INVALID_FORMAT, VALUE_TOO_LONG, VALUE_TOO_SHORT or INVALID_RANGE |
| ErrorHandling.IsDatabaseError | utils/errorHandler.ts:254-261 | true iff the code is DATABASE_ERROR, RECORD_NOT_FOUND, DUPLICATE_RECORD or FOREIGN_KEY_CONSTRAINT |
| ErrorHandling.IsHardwareError | utils/errorHandler.ts:264-270 | true iff the code is PRINTER_ERROR, SCALE_ERROR or CONNECTION_ERROR |
| ErrorHandling.FormatForDisplay | utils/errorHandler.ts:301-309 | without the code, the message; with it, exactly "[CODE] " followed by the message (prefix, suffix and total length) |
| ErrorHandling.Convert | utils/errorHandler.ts:124-148 | strings and plain errors become UNKNOWN_ERROR with their text; an application error keeps code, message and time and gets the caller's context merged over its own; anything else becomes UNKNOWN_ERROR with the fallback message, the caller's context and the thrown value as original error |
| ErrorHandling.ConvertedMessage | utils/errorHandler.ts:124-148 | a handled error has a non-empty message unless it arrived with an empty one |
| ErrorHandling.Pushed | utils/errorHandler.ts:173-180 | the new error is first, at most 1000 entries, and the older ones follow in order |
| ErrorHandling.ErrorLog.constructor | utils/errorHandler.ts:24-25 | the log starts empty |
| ErrorHandling.ErrorLog.AddToLog | utils/errorHandler.ts:173-180 | the log becomes the pushed log and keeps the invariant of at most 1000 entries |
| ErrorHandling.ErrorLog.GetErrorLogs | utils/errorHandler.ts:183-185 | returns the log's entries, at most 1000 of them |
| ErrorHandling.ErrorLog.ClearErrorLogs | utils/errorHandler.ts:188-190 | the log becomes empty |
| ErrorHandling.ErrorLog.Handle | utils/errorHandler.ts:110-170 | returns the converted error and pushes it onto the log |
| ErrorHandling.ErrorLog.GetErrorStats | utils/errorHandler.ts:415-441 | total is the log length, the per-code table counts each code, recent counts the last hour, and total is at most 1000 |
| ErrorHandling.ByCodeCounts | utils/errorHandler.ts:426-434 | the table holds exactly the codes that occur, each with its count |
| ErrorHandling.CountsAddUp | utils/errorHandler.ts:415-441 | the per-code counts add up to the total |
| ErrorHandling.StatsConsistent | utils/errorHandler.ts:415-441 | counts add up to the total, every logged code has an entry, recent ≤ total |
| ErrorHandling.PushCounts | utils/errorHandler.ts:173-180 | below the cap, a push adds one to the new error's code only |
| ErrorHandling.WaitTime | utils/errorHandler.ts:333 | never shorter than the delay, and exactly the delay without backoff or after the first attempt |
| ErrorHandling.WaitDoubles | utils/errorHandler.ts:333 | with backoff each wait is twice the previous |
| ErrorHandling.BackoffTotal | utils/errorHandler.ts:320-337 | with backoff n waits add up to delay·(2ⁿ − 1) |
| ErrorHandling.FlatTotal | utils/errorHandler.ts:320-337 | without backoff n waits add up to delay·n |
| ErrorHandling.Retry | utils/errorHandler.ts:312-344 | no attempt iff maxAttempts < 1; returns iff some attempt up to maxAttempts succeeds, at the first one; otherwise gives up at attempt maxAttempts; waits after every failed attempt except one it gives up at, the i-th wait being the formula's, adding up to delay·(2^(maxAttempts−1) − 1) with backoff and delay·(maxAttempts − 1) without |
| Auth.ValidateRegisterInput | services/AuthService.ts:122-158 | valid iff all seven checks pass; each message iff its check is the first to fail |
| Auth.ValidateLoginInput | services/AuthService.ts:161-173 | valid iff both are non-blank; the username message first |
| Auth.RegisteredCredentialsLogIn | services/AuthService.ts:122-173 | credentials that pass registration pass the login check |
| Auth.FormValidatorsSuffice | services/AuthService.ts:122-158 | input the form validators accept passes `validateRegisterInput` |
| Auth.PaddedShortNameRegisters | services/AuthService.ts:154-156 | " x" passes registration though its trimmed name is too short for the form validator |
| Auth.Field | services/AuthService.ts:51 | the text before the first ':' |
| Auth.HashPassword | services/AuthService.ts:29-45 | the salt, then ':', then the digest of password + salt, each at its offset |
| Auth.ComparePassword | services/AuthService.ts:48-69 | true iff the stored text is "salt:hash" or starts with "salt:hash:" for a non-empty salt and hash without ':' such that the digest of password + salt is hash; so a missing ':', an empty salt or an empty hash refuses every password |
| Auth.SplitStored | services/AuthService.ts:50-53 | the first two fields of `split(':')`, when both are non-empty, write the stored text, and they are the only non-empty ':'-free salt and hash that write it |
| Auth.FieldBeforeColon | services/AuthService.ts:40-51 | a salt without ':' is read back whole from "salt:rest" |
| Auth.CompareHashed | services/AuthService.ts:29-69 | a stored hash accepts exactly the passwords with the same digest under its salt |
| Auth.PasswordRoundTrip | services/AuthService.ts:29-69 | the hashed password is accepted by its own hash |
| Auth.EmptySaltAcceptsNothing | services/AuthService.ts:32-54 | a hash with an empty salt accepts no password |
| Auth.StoredUsernameValid | services/AuthService.ts:187-197 | the lower-cased stored username still passes the username checks |
| Auth.Authenticate | services/AuthService.ts:230-277 | input check first; success iff the lower-cased user exists and the password matches; one message for both failures |
| Auth.LoginIgnoresCase | services/AuthService.ts:241 | usernames differing only in letter case log in alike |
| Auth.NewUser | services/AuthService.ts:176-227 | success iff the input is valid and the lower-cased name is free; the new row has the lower-cased name, trimmed full name and salted hash |
| Auth.RegisterThenLogin | services/AuthService.ts:176-277 | a user just registered logs in with the same credentials in any letter case |
| Auth.ProfileUpdate | services/AuthService.ts:295-351 | fails without a session; success iff the name and the optional username pass; the old username is kept when none is given |
| Auth.PasswordChange | services/AuthService.ts:354-399 | fails without a session; success iff inputs pass, the row exists and the old password matches; the result is the new hash |
| Auth.ChangedPasswordAccepted | services/AuthService.ts:354-399 | the new password is accepted afterwards; the old one only if its digest coincides |
| Auth.AuthService.constructor | services/AuthService.ts:26 | no user is logged in at first |
| Auth.AuthService.GetCurrentUser | services/AuthService.ts:112-114 | returns the current user |
| Auth.AuthService.IsAuthenticated | services/AuthService.ts:117-119 | true iff a user is current |
| Auth.AuthService.SaveSession | services/AuthService.ts:72-81 | the user becomes current and the service is authenticated |
| Auth.AuthService.ClearSession | services/AuthService.ts:84-93 | no user is current and the service is not authenticated |
| Auth.AuthService.GetStoredSession | services/AuthService.ts:96-109 | returns the stored session, which becomes current when present |
| Auth.AuthService.Register | services/AuthService.ts:176-227 | on success the new user is written and logged in; on failure the message is returned and the session is unchanged |
| Auth.AuthService.Login | services/AuthService.ts:230-277 | on success the user's row becomes the session and the welcome names them; on failure the session is unchanged |
| Auth.AuthService.Logout | services/AuthService.ts:280-292 | succeeds and leaves no user logged in |
| Auth.AuthService.UpdateProfile | services/AuthService.ts:295-351 | on success the session takes the new name and username; on failure it is unchanged |
| Auth.AuthService.ChangePassword | services/AuthService.ts:354-399 | on success the new hash is written; the session never changes |
| Auth.AuthService.Initialize | services/AuthService.ts:402-422 | a stored session is kept only while its user still exists |
| Auth.AuthService.RefreshSession | services/AuthService.ts:425-446 | the session is reloaded from the user's row, or dropped when the row is gone |

## Left out

- `Intl` formatting is modelled only for the id-ID locale. `toLocaleDateString('id-ID')` is modelled as day/month/year without padding. Dates arrive already split into their fields, so `new Date(string)` parsing and time zones are not modelled.
- `parseFloat` is modelled on decimal text with leading white space, an optional sign, a fraction and an optional exponent. "Infinity", hexadecimal prefixes and IEEE rounding are not modelled; amounts are exact reals.
- `parseInt` in `formatTransactionId` is taken as already done. The id is an optional integer, where `None` is NaN.
- Formatting.FormatDuration: its contract covers only whole minutes; fractional minutes are not modelled.
- Case mapping covers ASCII letters only, so `toUpperCase`/`toLowerCase` of other letters is not modelled.
- The CSS of the print document is kept as one constant, with no proof about its contents.
- In `generateAndSharePDF`:
  - a file step that settles exactly at 30000 ms is counted as losing the race to the timer;
  - the `fetch` size probe only logs, so it is left out.
- The platform calls are not modelled: `Print.printAsync`, `printToFileAsync`, `Sharing.*`, `Alert` in `showPrintPreview`, and `testSimplePDF`. Only how each call ends (returned, or threw an error) is an input.
- The markup of the export report around its values is not modelled, nor is its period line. The report's date cell is the transaction's date itself.
- ErrorHandling.Convert: a thrown object with a truthy `code` that is not one of the error codes (a platform error, say) is not modelled, because the model's errors carry an error code; the code returns such an object unchanged. A thrown `null` or `undefined`, on which reading `code` itself throws a TypeError, is not modelled either; `retry` with fewer than one attempt reaches it.
- Strings.ReplaceFirst: inserts the replacement literally, without `$` patterns; every call in the core passes digits or '.', which hold no '$'.
- ErrorHandling.ErrorLog.Handle: does not model `appError.context` being updated in place on the caller's object, because the model returns a new error value; console logging, `logToFile` and `showToUser` are left out.
- ErrorHandling.ErrorLog.GetErrorStats: `now` is a parameter instead of the clock.
- ErrorHandling.Retry: the operation is a function from the attempt number to whether it succeeds; the sleeping itself, the value returned, the thrown error's context and the console message are not modelled.
- `getUserFriendlyMessage` is not modelled because it returns the message unchanged. `getTechnicalDetails` is not modelled (JSON and stack text). `fromValidationResult`, `create*Error`, `handle*Error` and `handleAsync`/`handleSync` are not modelled either: they are thin wrappers over `createError` and `handle`.
- In `Auth`:
  - SHA-256 is an abstract function and the salt from `Math.random()` is a parameter;
  - `AsyncStorage` is the class's `currentUser` field, plus a parameter for what storage holds;
  - the database is a map from lower-cased usernames to rows, or the looked-up row, given as a parameter;
  - the `catch` branches for storage and database exceptions are not modelled;
  - `SALT_ROUNDS` is unused by the code.
- Validation.ValidatePassword: lengths count Unicode characters, not JavaScript's UTF-16 code units, so a password with characters above U+FFFF is measured shorter than the code measures it.
- Validation.ValidateUsername: lengths count Unicode characters, not UTF-16 code units. The verdict is the same, since characters above U+FFFF fail the character check anyway, but such a name may get the length message where the code gives the character message.
- Validation.ValidateFullName: lengths count Unicode characters, not UTF-16 code units, so a name with characters above U+FFFF is measured shorter than the code measures it.
- Auth.ValidateRegisterInput: lengths count Unicode characters, not UTF-16 code units, as in the form validators.
- Auth.PasswordChange: the length check on the new password counts Unicode characters, not UTF-16 code units.
- Auth.AuthService.UpdateProfile: the database write of the profile is not modelled; only the session update and the result are.
- services/DatabaseService.ts, the screens under app/, the preview modal and types/index.ts are not part of this model.
