/** The form validators (`ValidationUtils`): each is a chain of guards that returns the message of
    the first guard that fails, or a valid result when none does. */
module Validation {
  import opened Strings
  import opened Numbers

  /** `{ isValid: true }` or `{ isValid: false, message }`. */
  datatype ValidationResult = Valid | Invalid(message: string)

  const PhoneRequired := "Nomor telepon harus diisi"
  const PhoneDigits := "Nomor telepon harus 8-15 digit"
  const MobileDigits := "Nomor HP harus 10-13 digit"
  const InternationalInvalid := "Nomor telepon internasional tidak valid"
  const PhonePrefix := "Nomor telepon harus dimulai dengan 0 atau +62"

  /** `validatePhoneNumber`: the digits must number 8 to 15; a mobile number ("08…") 10 to 13,
      an international one ("62…") at least 11, and any other must start with '0' and a digit
      other than '0'. */
  function ValidatePhoneNumber(phone: string): (r: ValidationResult)
    ensures var c := Filter(phone, IsDigit);
            r.Valid? <==> !IsBlank(phone) && 8 <= |c| <= 15
                          && (if StartsWith(c, "08") then |c| <= 13 && |c| >= 10
                              else if StartsWith(c, "62") then |c| >= 11
                              else c[0] == '0' && '1' <= c[1] <= '9')
    ensures IsBlank(phone) ==> r == Invalid(PhoneRequired)
    ensures !IsBlank(phone) && !(8 <= |Filter(phone, IsDigit)| <= 15) ==> r == Invalid(PhoneDigits)
  {
    if IsBlank(phone) then Invalid(PhoneRequired)
    else
      var c := Filter(phone, IsDigit);
      if |c| < 8 || |c| > 15 then Invalid(PhoneDigits)
      else if StartsWith(c, "08") then
        if |c| < 10 || |c| > 13 then Invalid(MobileDigits) else Valid
      else if StartsWith(c, "62") then
        if |c| < 11 || |c| > 15 then Invalid(InternationalInvalid) else Valid
      else if !(c[0] == '0' && '1' <= c[1] <= '9') then Invalid(PhonePrefix)
      else Valid
  }

  /** The upper bound of the international branch never fires: the length check before it
      already caps the digits at 15. */
  lemma InternationalUpperBoundUnreachable(phone: string)
    requires StartsWith(Filter(phone, IsDigit), "62")
    ensures ValidatePhoneNumber(phone) != Invalid(InternationalInvalid) || |Filter(phone, IsDigit)| < 11
  {
  }

  const UsernameRequired := "Username harus diisi"
  const UsernameTooShort := "Username minimal 3 karakter"
  const UsernameTooLong := "Username maksimal 30 karakter"
  const UsernameCharset := "Username hanya boleh mengandung huruf, angka, dan underscore"
  const UsernameUnderscore := "Username tidak boleh dimulai atau diakhiri dengan underscore"

  /** `validateUsername`. */
  function ValidateUsername(username: string): (r: ValidationResult)
    ensures r.Valid? <==> !IsBlank(username) && 3 <= |username| <= 30
                          && AllChars(username, IsWordChar)
                          && username[0] != '_' && username[|username| - 1] != '_'
    ensures r.Invalid? ==> r.message in {UsernameRequired, UsernameTooShort, UsernameTooLong,
                                         UsernameCharset, UsernameUnderscore}
  {
    if IsBlank(username) then Invalid(UsernameRequired)
    else if |username| < 3 then Invalid(UsernameTooShort)
    else if |username| > 30 then Invalid(UsernameTooLong)
    else if !AllChars(username, IsWordChar) then Invalid(UsernameCharset)
    else if username[0] == '_' || username[|username| - 1] == '_' then Invalid(UsernameUnderscore)
    else Valid
  }

  const PasswordRequired := "Password harus diisi"
  const PasswordTooShort := "Password minimal 6 karakter"
  const PasswordTooLong := "Password maksimal 128 karakter"

  /** `validatePassword`: only presence and length are checked. */
  function ValidatePassword(password: string): (r: ValidationResult)
    ensures r.Valid? <==> !IsBlank(password) && 6 <= |password| <= 128
    ensures r.Invalid? ==> r.message in {PasswordRequired, PasswordTooShort, PasswordTooLong}
  {
    if IsBlank(password) then Invalid(PasswordRequired)
    else if |password| < 6 then Invalid(PasswordTooShort)
    else if |password| > 128 then Invalid(PasswordTooLong)
    else Valid
  }

  const ConfirmRequired := "Konfirmasi password harus diisi"
  const ConfirmMismatch := "Konfirmasi password tidak sesuai"

  /** `validateConfirmPassword`. */
  function ValidateConfirmPassword(password: string, confirmPassword: string): (r: ValidationResult)
    ensures r.Valid? <==> !IsBlank(confirmPassword) && password == confirmPassword
    ensures r.Invalid? ==> r.message in {ConfirmRequired, ConfirmMismatch}
  {
    if IsBlank(confirmPassword) then Invalid(ConfirmRequired)
    else if password != confirmPassword then Invalid(ConfirmMismatch)
    else Valid
  }

  /** A password confirmed by itself passes exactly when it is not blank. */
  lemma ConfirmBySelf(password: string)
    ensures ValidateConfirmPassword(password, password).Valid? <==> !IsBlank(password)
  {
  }

  const NameRequired := "Nama lengkap harus diisi"
  const NameTooShort := "Nama lengkap minimal 2 karakter"
  const NameTooLong := "Nama lengkap maksimal 100 karakter"
  const NameCharset := "Nama lengkap hanya boleh mengandung huruf, spasi, titik, apostrof, dan tanda hubung"

  /** The class `[a-zA-Z\s.'-]` of full names. */
  predicate IsNameChar(c: char) { IsLetter(c) || IsSpace(c) || c == '.' || c == '\'' || c == '-' }

  /** `validateFullName`: the length and character checks apply to the trimmed name. */
  function ValidateFullName(fullName: string): (r: ValidationResult)
    ensures r.Valid? <==> !IsBlank(fullName) && 2 <= |Trim(fullName)| <= 100
                          && AllChars(Trim(fullName), IsNameChar)
    ensures r.Invalid? ==> r.message in {NameRequired, NameTooShort, NameTooLong, NameCharset}
  {
    if IsBlank(fullName) then Invalid(NameRequired)
    else if |Trim(fullName)| < 2 then Invalid(NameTooShort)
    else if |Trim(fullName)| > 100 then Invalid(NameTooLong)
    else if !AllChars(Trim(fullName), IsNameChar) then Invalid(NameCharset)
    else Valid
  }

  /** Surrounding white space never decides whether a full name is valid. */
  lemma FullNameIgnoresPadding(fullName: string, pad: string)
    requires IsBlank(pad) && !IsBlank(fullName)
    ensures ValidateFullName(pad + fullName) == ValidateFullName(fullName)
  {
    TrimStartAfterBlank(pad, fullName);
    AllCharsAppend(pad, fullName, IsSpace);
    SameTrimSameVerdict(pad + fullName, fullName);
  }

  /** `validateFullName` looks at a name only through its trimmed text. */
  lemma SameTrimSameVerdict(a: string, b: string)
    requires IsBlank(a) == IsBlank(b) && Trim(a) == Trim(b)
    ensures ValidateFullName(a) == ValidateFullName(b)
  {
  }

  lemma {:induction false} TrimStartAfterBlank(pad: string, s: string)
    requires IsBlank(pad) && !IsBlank(s)
    ensures TrimStart(pad + s) == TrimStart(s)
  {
    if pad != [] {
      assert (pad + s)[1..] == pad[1..] + s;
      TrimStartAfterBlank(pad[1..], s);
    } else {
      assert pad + s == s;
    }
  }

  /** The argument of `validatePrice` and `validateWeight`: a text or a number. */
  datatype Input = Text(text: string) | Number(value: Num)

  const PriceRequired := "Harga harus diisi"
  const PriceNotNumber := "Harga harus berupa angka"
  const PriceNegative := "Harga tidak boleh negatif"
  const PriceTooHigh := "Harga maksimal Rp 999.999.999"
  const MaxPrice: real := 999999999.0

  /** The class `[Rp.,\s]` removed from a price text. */
  predicate IsPriceMark(c: char) { c == 'R' || c == 'p' || c == '.' || c == ',' || IsSpace(c) }
  predicate IsNotPriceMark(c: char) { !IsPriceMark(c) }

  /** The number a price argument denotes, or the message of a price text that is empty once
      cleaned. */
  function PriceNumber(price: Input): Result<Num> {
    match price
    case Number(n) => Ok(n)
    case Text(s) =>
      var clean := Filter(s, IsNotPriceMark);
      if clean == [] then Err(PriceRequired) else Ok(ParseFloat(clean))
  }

  datatype Result<T> = Ok(value: T) | Err(message: string)

  /** `validatePrice`. */
  function ValidatePrice(price: Input): (r: ValidationResult)
    ensures price.Number? ==>
              (r.Valid? <==> price.value.Finite? && 0.0 <= price.value.value <= MaxPrice)
    ensures price.Number? && price.value.NaN? ==> r == Invalid(PriceNotNumber)
    ensures price.Text? && Filter(price.text, IsNotPriceMark) == [] ==> r == Invalid(PriceRequired)
  {
    match PriceNumber(price)
    case Err(m) => Invalid(m)
    case Ok(n) =>
      if n.NaN? then Invalid(PriceNotNumber)
      else if n.value < 0.0 then Invalid(PriceNegative)
      else if n.value > MaxPrice then Invalid(PriceTooHigh)
      else Valid
  }

  const WeightRequired := "Berat harus diisi"
  const WeightNotNumber := "Berat harus berupa angka"
  const WeightNotPositive := "Berat harus lebih dari 0"
  const WeightTooHigh := "Berat maksimal 9999 kg"
  const MaxWeight: real := 9999.0

  /** The class `[kg\s]`, case-insensitive, removed from a weight text. */
  predicate IsWeightMark(c: char) { c == 'k' || c == 'K' || c == 'g' || c == 'G' || IsSpace(c) }
  predicate IsNotWeightMark(c: char) { !IsWeightMark(c) }

  function WeightNumber(weight: Input): Result<Num> {
    match weight
    case Number(n) => Ok(n)
    case Text(s) =>
      var clean := Filter(s, IsNotWeightMark);
      if clean == [] then Err(WeightRequired) else Ok(ParseFloat(clean))
  }

  /** `validateWeight`. */
  function ValidateWeight(weight: Input): (r: ValidationResult)
    ensures weight.Number? ==>
              (r.Valid? <==> weight.value.Finite? && 0.0 < weight.value.value <= MaxWeight)
    ensures weight.Number? && weight.value.NaN? ==> r == Invalid(WeightNotNumber)
    ensures weight.Text? && Filter(weight.text, IsNotWeightMark) == [] ==> r == Invalid(WeightRequired)
  {
    match WeightNumber(weight)
    case Err(m) => Invalid(m)
    case Ok(n) =>
      if n.NaN? then Invalid(WeightNotNumber)
      else if n.value <= 0.0 then Invalid(WeightNotPositive)
      else if n.value > MaxWeight then Invalid(WeightTooHigh)
      else Valid
  }

  lemma {:induction false} FilterSameClass(s: string, p: char -> bool, q: char -> bool)
    requires forall i :: 0 <= i < |s| ==> p(s[i]) == q(s[i])
    ensures Filter(s, p) == Filter(s, q)
  {
    if s != [] {
      FilterSameClass(s[1..], p, q);
    }
  }

  /** A price text as the receipts write whole amounts ("Rp 1.500.000") is read as its amount:
      valid exactly up to the maximum. */
  lemma FormattedPriceValid(n: nat)
    ensures PriceNumber(Text("Rp " + Grouped(n, "."))) == Ok(Finite(n as real))
    ensures ValidatePrice(Text("Rp " + Grouped(n, "."))).Valid? <==> n as real <= MaxPrice
  {
    FormattedPriceNumber(n);
  }

  lemma FormattedPriceNumber(n: nat)
    ensures PriceNumber(Text("Rp " + Grouped(n, "."))) == Ok(Finite(n as real))
  {
    var g := Grouped(n, ".");
    var d := Filter(g, IsNotDot);
    GroupedDigits(n);
    PriceTextDigits("Rp ", g);
    ParseFloatOfDigits(d);
    CleanedPrice("Rp " + g, d);
  }

  lemma CleanedPrice(s: string, d: string)
    requires Filter(s, IsNotPriceMark) == d && d != []
    ensures PriceNumber(Text(s)) == Ok(ParseFloat(d))
  {
  }

  /** Removing the separators of the id-ID grouping of `n` leaves a non-empty digit string that
      reads back as `n`. */
  lemma GroupedDigits(n: nat)
    ensures var d := Filter(Grouped(n, "."), IsNotDot);
            d != [] && AllChars(d, IsDigit) && DigitsValue(d) == n
            && AllChars(Grouped(n, "."), IsDigitOrDot)
  {
    GroupedDigitsAndDots(n);
    GroupedRoundTrip(n);
  }

  /** A price text made of marks and then digits and dots is cleaned to its digits. */
  lemma PriceTextDigits(marks: string, g: string)
    requires Filter(marks, IsNotPriceMark) == [] && AllChars(g, IsDigitOrDot)
    ensures Filter(marks + g, IsNotPriceMark) == Filter(g, IsNotDot)
  {
    FilterAppend(marks, g, IsNotPriceMark);
    assert forall i :: 0 <= i < |g| ==> IsNotPriceMark(g[i]) == IsNotDot(g[i]) by {
      forall i | 0 <= i < |g| ensures IsNotPriceMark(g[i]) == IsNotDot(g[i]) {
        assert IsDigitOrDot(g[i]);
      }
    }
    FilterSameClass(g, IsNotPriceMark, IsNotDot);
  }

  /** A weight written with a decimal comma is cut at the comma: "0,5 kg" reads as 0 and is
      refused as not positive. */
  lemma DecimalCommaWeight()
    ensures WeightNumber(Text("0,5 kg")) == Ok(Finite(0.0))
    ensures ValidateWeight(Text("0,5 kg")) == Invalid(WeightNotPositive)
  {
    CleanWeightText();
    ParseStopsAtComma();
  }

  lemma CleanWeightText()
    ensures Filter("0,5 kg", IsNotWeightMark) == "0,5"
  {
    assert "0,5 kg" == "0,5" + " kg";
    FilterAppend("0,5", " kg", IsNotWeightMark);
    UnitIsRemoved();
    NumberIsKept();
  }

  lemma UnitIsRemoved()
    ensures Filter(" kg", IsNotWeightMark) == []
  {
    assert IsWeightMark(' ') && IsWeightMark('k') && IsWeightMark('g');
  }

  lemma NumberIsKept()
    ensures Filter("0,5", IsNotWeightMark) == "0,5"
  {
    assert AllChars("0,5", IsNotWeightMark);
    FilterKeepsAll("0,5", IsNotWeightMark);
  }

  lemma ParseStopsAtComma()
    ensures ParseFloat("0,5") == Finite(0.0)
  {
    ParseFloatOfLeadingDigit("0,5");
    LiteralStopsAtComma();
  }

  lemma LiteralStopsAtComma()
    ensures DecimalLiteral("0,5") == Some(0.0)
  {
    var u := "0,5";
    assert DigitPrefix(u) == "0" by {
      assert DigitPrefix(u[1..]) == [];
    }
    assert u[1..] == ",5";
    assert ExponentPrefix(",5") == None;
  }

  /** `validateBatch`: runs the validators in order and returns the first invalid result, or a
      valid result when every one passes. */
  method ValidateBatch(validations: seq<() -> ValidationResult>) returns (r: ValidationResult)
    ensures r.Valid? <==> forall i :: 0 <= i < |validations| ==> validations[i]().Valid?
    ensures r.Invalid? ==> exists i :: 0 <= i < |validations| && validations[i]() == r
                                       && forall j :: 0 <= j < i ==> validations[j]().Valid?
  {
    for k := 0 to |validations|
      invariant forall j :: 0 <= j < k ==> validations[j]().Valid?
    {
      var result := validations[k]();
      if !result.Valid? {
        return result;
      }
    }
    return Valid;
  }

  predicate IsDigitOrPlus(c: char) { IsDigit(c) || c == '+' }

  /** `cleanPhoneNumber`: keep digits and '+', then write a "+62" prefix, or a "62" prefix of a
      number longer than ten characters, as "0". */
  function CleanPhoneNumber(phone: string): (r: string)
    ensures AllChars(r, IsDigitOrPlus)
    ensures var c := Filter(phone, IsDigitOrPlus);
            if StartsWith(c, "+62") then r == "0" + c[3..]
            else if StartsWith(c, "62") && |c| > 10 then r == "0" + c[2..]
            else r == c
  {
    var cleaned := Filter(phone, IsDigitOrPlus);
    if StartsWith(cleaned, "+62") then
      var r := "0" + cleaned[3..];
      assert forall i :: 1 <= i < |r| ==> r[i] == cleaned[i + 2];
      r
    else if StartsWith(cleaned, "62") && |cleaned| > 10 then
      var r := "0" + cleaned[2..];
      assert forall i :: 1 <= i < |r| ==> r[i] == cleaned[i + 1];
      r
    else cleaned
  }

  /** Cleaning a cleaned number changes nothing. */
  lemma CleanPhoneIdempotent(phone: string)
    ensures CleanPhoneNumber(CleanPhoneNumber(phone)) == CleanPhoneNumber(phone)
  {
    var r := CleanPhoneNumber(phone);
    FilterKeepsAll(r, IsDigitOrPlus);
  }

  /** A number in "+62" form is cleaned to the "0" form of the same digits. */
  lemma CleanInternational(rest: string)
    requires AllChars(rest, IsDigit)
    ensures CleanPhoneNumber("+62" + rest) == "0" + rest
  {
    var s := "+62" + rest;
    assert AllChars(s, IsDigitOrPlus);
    FilterKeepsAll(s, IsDigitOrPlus);
    assert s[..3] == "+62" && s[3..] == rest;
  }
}
