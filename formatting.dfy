/** The deterministic text helpers of the formatting utilities (`FormatUtils`): truncation,
    durations, transaction numbers, ordinals, currency-string cleaning, product codes, barcodes,
    phone grouping and word capitalisation. Upper and lower case are ASCII here. */
module Formatting {
  import opened Strings
  import opened Numbers

  /** `truncateText`: a text longer than `maxLength` keeps its first `maxLength - |ellipsis|`
      characters (none when that is negative, as `substring` clamps) and gets the ellipsis. */
  function TruncateText(text: string, maxLength: int, ellipsis: string): (r: string)
    ensures text == [] ==> r == []
    ensures text != [] && |text| <= maxLength ==> r == text
    ensures text != [] && |text| > maxLength ==>
              EndsWith(r, ellipsis) && |r| - |ellipsis| < |text|
              && r[..|r| - |ellipsis|] == text[..|r| - |ellipsis|]
    ensures text != [] && |text| > maxLength >= |ellipsis| ==> |r| == maxLength
    ensures text != [] && |text| > maxLength && maxLength < |ellipsis| ==> r == ellipsis
  {
    if text == [] then []
    else if |text| <= maxLength then text
    else
      var keep := if maxLength - |ellipsis| < 0 then 0 else maxLength - |ellipsis|;
      var r := text[..keep] + ellipsis;
      assert r[|r| - |ellipsis|..] == ellipsis && r[..|r| - |ellipsis|] == text[..keep];
      r
  }

  /** Truncating twice to the same length changes nothing more, provided the ellipsis fits. */
  lemma TruncateIdempotent(text: string, maxLength: int, ellipsis: string)
    requires maxLength >= |ellipsis|
    ensures TruncateText(TruncateText(text, maxLength, ellipsis), maxLength, ellipsis)
            == TruncateText(text, maxLength, ellipsis)
  {
  }

  /** `formatDuration` for a whole number of minutes. */
  function FormatDuration(minutes: int): (r: string)
    ensures minutes < 60 ==> r == IntToString(minutes) + " menit"
  {
    if minutes < 60 then IntToString(minutes) + " menit"
    else
      var hours := minutes / 60;
      var remaining := minutes % 60;
      if remaining == 0 then NatToString(hours) + " jam"
      else NatToString(hours) + " jam " + NatToString(remaining) + " menit"
  }

  /** An hour count and a minute count below 60 are spelled out as they are; the minutes are
      left out on the hour. */
  lemma DurationSpells(hours: nat, minutes: nat)
    requires hours >= 1 && minutes < 60
    ensures FormatDuration(hours * 60 + minutes)
            == if minutes == 0 then NatToString(hours) + " jam"
               else NatToString(hours) + " jam " + NatToString(minutes) + " menit"
  {
    DivModUnique(hours * 60 + minutes, 60, hours, minutes);
  }

  lemma DivModUnique(m: int, d: int, q: int, r: int)
    requires d > 0 && 0 <= r < d && m == q * d + r
    ensures m / d == q && m % d == r
  {
    var q', r' := m / d, m % d;
    assert q' * d + r' == q * d + r;
    assert (q' - q) * d == r - r';
    if q' > q {
      MulSign(q' - q, d);
    } else if q' < q {
      MulSign(q' - q, d);
    }
  }

  /** `formatTransactionId` once `parseInt` has run: `None` is `NaN`. */
  function FormatTransactionId(id: Option<int>, prefix: string): (r: string)
    ensures id.None? ==> r == prefix + "-0000"
    ensures id.Some? && id.value >= 0 ==>
              StartsWith(r, prefix + "-") &&
              var digits := r[|prefix| + 1..];
              |digits| == (if |NatToString(id.value)| < 6 then 6 else |NatToString(id.value)|)
              && AllChars(digits, IsDigit) && DigitsValue(digits) == id.value
  {
    match id
    case None => prefix + "-0000"
    case Some(n) =>
      var padded := PadStart(IntToString(n), 6, '0');
      var r := prefix + "-" + padded;
      assert r[..|prefix + "-"|] == prefix + "-" && r[|prefix| + 1..] == padded;
      assert n >= 0 ==> AllChars(padded, IsDigit) && DigitsValue(padded) == n by {
        if n >= 0 {
          NatToStringRoundTrip(n);
          PadStartZerosValue(NatToString(n), 6);
        }
      }
      r
  }

  /** Different non-negative ids give different transaction numbers. */
  lemma TransactionIdsDistinct(n: nat, m: nat, prefix: string)
    requires n != m
    ensures FormatTransactionId(Some(n), prefix) != FormatTransactionId(Some(m), prefix)
  {
  }

  /** A negative id has its minus sign padded behind the zeros. */
  lemma NegativeTransactionId()
    ensures FormatTransactionId(Some(-5), "TXN") == "TXN-0000-5"
  {
    assert IntToString(-5) == "-5";
  }

  /** JavaScript's `%`: the remainder takes the sign of the dividend. */
  function JsRem(a: int, b: int): (r: int)
    requires b > 0
    ensures a >= 0 ==> r == a % b
    ensures -b < r < b && (a < 0 ==> r <= 0)
  {
    if a >= 0 then a % b else -((-a) % b)
  }

  /** The suffix `formatOrdinal` appends: `suffixes[num % 10] || suffixes[0]` unless
      `num % 100` is 11 to 13. */
  function OrdinalSuffix(num: int): (r: string)
    ensures r in {"th", "st", "nd", "rd"}
  {
    var suffixes := ["th", "st", "nd", "rd"];
    var mod100 := JsRem(num, 100);
    if 11 <= mod100 <= 13 then "th"
    else
      var mod10 := JsRem(num, 10);
      if 0 <= mod10 < 4 then suffixes[mod10] else suffixes[0]
  }

  function FormatOrdinal(num: int): (r: string)
    ensures StartsWith(r, IntToString(num)) && r[|IntToString(num)|..] == OrdinalSuffix(num)
  {
    var r := IntToString(num) + OrdinalSuffix(num);
    assert r[..|IntToString(num)|] == IntToString(num);
    r
  }

  /** For non-negative numbers the English rule: "st", "nd", "rd" after a last digit 1, 2, 3
      outside the teens 11 to 13, "th" otherwise. */
  lemma OrdinalRule(n: nat)
    ensures OrdinalSuffix(n) == "st" <==> n % 10 == 1 && n % 100 != 11
    ensures OrdinalSuffix(n) == "nd" <==> n % 10 == 2 && n % 100 != 12
    ensures OrdinalSuffix(n) == "rd" <==> n % 10 == 3 && n % 100 != 13
    ensures OrdinalSuffix(n) == "th" <==> n % 10 !in {1, 2, 3} || 11 <= n % 100 <= 13
  {
    assert n % 100 % 10 == n % 10 by {
      DivModUnique(n, 10, (n / 100) * 10 + (n % 100) / 10, (n % 100) % 10);
    }
  }

  /** A negative number always gets "th", since its remainders are not positive. */
  lemma NegativeOrdinal(num: int)
    requires num < 0
    ensures OrdinalSuffix(num) == "th"
  {
  }

  predicate IsCurrencyMark(c: char) { c == 'R' || c == 'p' || IsSpace(c) }
  predicate IsNotCurrencyMark(c: char) { !IsCurrencyMark(c) }

  /** `cleanCurrencyString`: drop every 'R', 'p' and white space, then every '.', then turn the
      first ',' into '.'. */
  function CleanCurrencyString(value: string): (r: string)
    ensures value == [] ==> r == "0"
    ensures value != [] ==> r == ReplaceFirst(Filter(Filter(value, IsNotCurrencyMark), IsNotDot), ",", ".")
    ensures value != [] ==> forall i :: 0 <= i < |r| ==> !IsCurrencyMark(r[i])
    ensures value != [] ==> |r| <= |value|
  {
    if value == [] then "0"
    else
      var kept := Filter(Filter(value, IsNotCurrencyMark), IsNotDot);
      assert AllChars(kept, IsNotCurrencyMark) by {
        FilterKeepsClass(Filter(value, IsNotCurrencyMark), IsNotDot, IsNotCurrencyMark);
      }
      ReplaceFirstKeepsClass(kept, ",", ".", IsNotCurrencyMark);
      ReplaceFirst(kept, ",", ".")
  }

  /** Without a decimal comma, cleaning keeps every character except 'R', 'p', white space and
      '.', each as often as it occurs. */
  lemma CleanWithoutComma(value: string)
    requires value != [] && ',' !in value
    ensures forall c :: multiset(CleanCurrencyString(value))[c]
                        == if IsCurrencyMark(c) || c == '.' then 0 else multiset(value)[c]
  {
    var marksGone := Filter(value, IsNotCurrencyMark);
    var kept := Filter(marksGone, IsNotDot);
    FilterCounts(value, IsNotCurrencyMark);
    FilterCounts(marksGone, IsNotDot);
    assert multiset(kept)[','] == 0;
    AbsentNotFound(kept, ',');
  }

  /** Filtering keeps any property every character already has. */
  lemma {:induction false} FilterKeepsClass(s: string, p: char -> bool, q: char -> bool)
    requires AllChars(s, q)
    ensures AllChars(Filter(s, p), q)
  {
    if s != [] {
      FilterKeepsClass(s[1..], p, q);
      var head := if p(s[0]) then [s[0]] else [];
      var t := Filter(s, p);
      assert t == head + Filter(s[1..], p);
      assert forall i :: 0 <= i < |t| ==> q(t[i]) by {
        forall i | 0 <= i < |t| ensures q(t[i]) {
          if i >= |head| { assert t[i] == Filter(s[1..], p)[i - |head|]; }
        }
      }
    }
  }

  lemma ReplaceFirstKeepsClass(s: string, pat: string, rep: string, q: char -> bool)
    requires AllChars(s, q) && AllChars(rep, q)
    ensures AllChars(ReplaceFirst(s, pat, rep), q)
    ensures |ReplaceFirst(s, pat, rep)| <= |s| + |rep|
  {
    var i := IndexOf(s, pat);
    if i >= 0 {
      var r := s[..i] + rep + s[i + |pat|..];
      assert forall k :: 0 <= k < |r| ==> q(r[k]) by {
        forall k | 0 <= k < |r| ensures q(r[k]) {
          if k < i { assert r[k] == s[k]; }
          else if k < i + |rep| { assert r[k] == rep[k - i]; }
          else { assert r[k] == s[k - i - |rep| + i + |pat|]; }
        }
      }
    }
  }

  /** Cleaning what id-ID currency formatting writes for a whole amount gives back its digits. */
  lemma CleanFormattedCurrency(n: nat)
    ensures AllChars(CleanCurrencyString("Rp " + Grouped(n, ".")), IsDigit)
    ensures DigitsValue(CleanCurrencyString("Rp " + Grouped(n, "."))) == n
  {
    var g := Grouped(n, ".");
    GroupedDigitsAndDots(n);
    assert AllChars(g, IsNotCurrencyMark) by {
      forall i | 0 <= i < |g| ensures IsNotCurrencyMark(g[i]) { assert IsDigitOrDot(g[i]); }
    }
    GroupedRoundTrip(n);
    assert Filter("Rp ", IsNotCurrencyMark) == [];
    CleanAfterMarks("Rp ", g);
  }

  /** Cleaning marks followed by text without marks whose digits carry no ',' leaves the text
      without its '.' characters. */
  lemma CleanAfterMarks(marks: string, text: string)
    requires marks != [] && Filter(marks, IsNotCurrencyMark) == []
    requires AllChars(text, IsNotCurrencyMark) && AllChars(Filter(text, IsNotDot), IsDigit)
    ensures CleanCurrencyString(marks + text) == Filter(text, IsNotDot)
  {
    FilterAppend(marks, text, IsNotCurrencyMark);
    FilterKeepsAll(text, IsNotCurrencyMark);
    assert Filter(marks + text, IsNotCurrencyMark) == text;
    var d := Filter(text, IsNotDot);
    assert !IsDigit(',');
    AbsentNotFound(d, ',');
  }

  /** A character that does not occur is not found. */
  lemma AbsentNotFound(s: string, c: char)
    requires c !in s
    ensures IndexOf(s, [c]) < 0
  {
    OccursAtChar(s, c, IndexOf(s, [c]));
  }

  /** A one-character pattern occurs exactly where that character stands. */
  lemma OccursAtChar(s: string, c: char, i: int)
    ensures OccursAt(s, [c], i) <==> 0 <= i < |s| && s[i] == c
  {
    if 0 <= i < |s| {
      assert s[i..i + 1] == [s[i]];
    }
  }

  /** The class `[A-Z0-9-_]` of product codes. */
  predicate IsCodeChar(c: char) { IsUpper(c) || IsDigit(c) || c == '-' || c == '_' }

  /** `formatProductCode`: upper-case, keep only code characters, and put `prefix` and '-'
      in front when a prefix is given. */
  function FormatProductCode(code: string, prefix: string): (r: string)
    ensures code == [] ==> r == []
    ensures code != [] && prefix != [] ==>
              StartsWith(r, prefix + "-") && AllChars(r[|prefix| + 1..], IsCodeChar)
    ensures prefix == [] ==> AllChars(r, IsCodeChar)
    ensures code != [] ==> |r| == |Filter(ToUpper(code), IsCodeChar)| + (if prefix != [] then |prefix| + 1 else 0)
    ensures code != [] ==> r[|r| - |Filter(ToUpper(code), IsCodeChar)|..] == Filter(ToUpper(code), IsCodeChar)
  {
    if code == [] then []
    else
      var clean := Filter(ToUpper(code), IsCodeChar);
      if prefix != [] then
        var r := prefix + "-" + clean;
        assert r[..|prefix| + 1] == prefix + "-" && r[|prefix| + 1..] == clean;
        r
      else clean
  }

  /** Upper-casing leaves a string of code characters as it is. */
  lemma UpperKeepsCode(s: string)
    requires AllChars(s, IsCodeChar)
    ensures ToUpper(s) == s
  {
  }

  /** A product code without prefix is already in its own format. */
  lemma ProductCodeIdempotent(code: string)
    ensures FormatProductCode(FormatProductCode(code, []), []) == FormatProductCode(code, [])
  {
    var c := FormatProductCode(code, []);
    if c != [] {
      UpperKeepsCode(c);
      FilterKeepsAll(c, IsCodeChar);
    }
  }

  /** With a prefix, what follows the prefix and '-' is the code formatted without one. */
  lemma ProductCodeAfterPrefix(code: string, prefix: string)
    requires code != [] && prefix != []
    ensures FormatProductCode(code, prefix)[|prefix| + 1..] == FormatProductCode(code, [])
  {
  }

  /** Without a prefix, every code character of the upper-cased code is kept as often as it
      occurs, and nothing else. */
  lemma ProductCodeKeeps(code: string)
    requires code != []
    ensures forall c :: multiset(FormatProductCode(code, []))[c]
                        == if IsCodeChar(c) then multiset(ToUpper(code))[c] else 0
  {
    FilterCounts(ToUpper(code), IsCodeChar);
  }

  predicate IsNotSpace(c: char) { !IsSpace(c) }

  /** `formatBarcode`: remove white space, then upper-case. */
  function FormatBarcode(code: string): (r: string)
    ensures |r| <= |code|
    ensures forall i :: 0 <= i < |r| ==> !IsSpace(r[i]) && !IsLower(r[i])
    ensures ToLower(r) == ToLower(Filter(code, IsNotSpace))
  {
    if code == [] then []
    else
      var kept := Filter(code, IsNotSpace);
      var r := ToUpper(kept);
      assert forall i :: 0 <= i < |r| ==> ToLower(r)[i] == ToLower(kept)[i];
      r
  }

  /** A formatted barcode formats to itself. */
  lemma BarcodeIdempotent(code: string)
    ensures FormatBarcode(FormatBarcode(code)) == FormatBarcode(code)
  {
    var b := FormatBarcode(code);
    if b != [] {
      FilterKeepsAll(b, IsNotSpace);
      assert ToUpper(b) == b;
    }
  }

  /** The regular-expression groups `$1-$2-$3` of `formatPhoneNumber`: the first `a` digits,
      the next four, and the rest. */
  function Grouping(cleaned: string, a: nat): (r: string)
    requires |cleaned| > a + 4
  {
    cleaned[..a] + "-" + cleaned[a..a + 4] + "-" + cleaned[a + 4..]
  }

  /** `formatPhoneNumber`: mobile numbers "08…" of at least ten digits are grouped 4-4-rest,
      other numbers starting with "0" of at least eight digits 3-4-rest, anything else is
      returned as given. */
  function FormatPhoneNumber(phone: string): (r: string)
    ensures phone == [] ==> r == []
    ensures var cleaned := Filter(phone, IsDigit);
            if phone != [] && StartsWith(cleaned, "08") && |cleaned| >= 10 then r == Grouping(cleaned, 4)
            else if phone != [] && StartsWith(cleaned, "0") && |cleaned| >= 8 then r == Grouping(cleaned, 3)
            else r == phone
  {
    if phone == [] then []
    else
      var cleaned := Filter(phone, IsDigit);
      if StartsWith(cleaned, "08") && |cleaned| >= 10 then Grouping(cleaned, 4)
      else if StartsWith(cleaned, "0") && |cleaned| >= 8 then Grouping(cleaned, 3)
      else phone
  }

  predicate IsNotDash(c: char) { c != '-' }

  /** Deleting the dashes of a grouping gives back the digits, and so does keeping the digits. */
  lemma GroupingRoundTrip(cleaned: string, a: nat)
    requires |cleaned| > a + 4 && AllChars(cleaned, IsDigit)
    ensures Filter(Grouping(cleaned, a), IsNotDash) == cleaned
    ensures Filter(Grouping(cleaned, a), IsDigit) == cleaned
  {
    var x, y, z := cleaned[..a], cleaned[a..a + 4], cleaned[a + 4..];
    assert x + y + z == cleaned;
    assert AllChars(x, IsNotDash) && AllChars(y, IsNotDash) && AllChars(z, IsNotDash);
    assert Filter("-", IsNotDash) == [] && Filter("-", IsDigit) == [];
    DropSeparators(x, y, z, "-", IsNotDash);
    DropSeparators(x, y, z, "-", IsDigit);
  }

  /** Filtering out the two separators of `x-y-z` and nothing else leaves `x + y + z`. */
  lemma DropSeparators(x: string, y: string, z: string, sep: string, p: char -> bool)
    requires AllChars(x, p) && AllChars(y, p) && AllChars(z, p) && Filter(sep, p) == []
    ensures Filter(x + sep + y + sep + z, p) == x + y + z
  {
    FilterKeepsAll(x, p);
    FilterKeepsAll(y, p);
    FilterKeepsAll(z, p);
    var a1 := x + sep;
    var a2 := a1 + y;
    var a3 := a2 + sep;
    FilterAppend(x, sep, p);
    assert Filter(a1, p) == x;
    FilterAppend(a1, y, p);
    assert Filter(a2, p) == x + y;
    FilterAppend(a2, sep, p);
    assert Filter(a3, p) == x + y;
    FilterAppend(a3, z, p);
  }

  /** Formatting a phone number never changes its digits. */
  lemma PhoneKeepsDigits(phone: string)
    ensures Filter(FormatPhoneNumber(phone), IsDigit) == Filter(phone, IsDigit)
  {
    var cleaned := Filter(phone, IsDigit);
    if phone != [] && StartsWith(cleaned, "08") && |cleaned| >= 10 {
      GroupingRoundTrip(cleaned, 4);
    } else if phone != [] && StartsWith(cleaned, "0") && |cleaned| >= 8 {
      GroupingRoundTrip(cleaned, 3);
    }
  }

  /** `text.split(' ')`: the pieces between single spaces; "" splits into [""]. */
  function SplitSpaces(s: string): (r: seq<string>)
    ensures |r| >= 1
  {
    if s == [] then [[]]
    else if s[0] == ' ' then [[]] + SplitSpaces(s[1..])
    else
      var rest := SplitSpaces(s[1..]);
      [[s[0]] + rest[0]] + rest[1..]
  }

  /** `words.join(' ')`. */
  function JoinSpaces(ws: seq<string>): string
    requires |ws| >= 1
  {
    if |ws| == 1 then ws[0] else ws[0] + " " + JoinSpaces(ws[1..])
  }

  /** `word.charAt(0).toUpperCase() + word.slice(1)`. */
  function CapitalizeWord(w: string): string {
    if w == [] then [] else [ToUpperChar(w[0])] + w[1..]
  }

  function CapitalizeAll(ws: seq<string>): (r: seq<string>)
    ensures |r| == |ws| && forall i :: 0 <= i < |ws| ==> r[i] == CapitalizeWord(ws[i])
  {
    if ws == [] then [] else [CapitalizeWord(ws[0])] + CapitalizeAll(ws[1..])
  }

  /** `capitalizeWords`: lower-case, split at spaces, capitalise each piece, join again. */
  function CapitalizeWords(text: string): (r: string)
    ensures r == CapitalizedAfterSpaces(ToLower(text))
  {
    if text == [] then []
    else
      CapitalizeJoin(ToLower(text));
      JoinSpaces(CapitalizeAll(SplitSpaces(ToLower(text))))
  }

  /** The same text with each character that starts the text or follows a space upper-cased. */
  function CapitalizedAfterSpaces(s: string): (r: string)
    ensures |r| == |s|
  {
    seq(|s|, i requires 0 <= i < |s| => if i == 0 || s[i - 1] == ' ' then ToUpperChar(s[i]) else s[i])
  }

  lemma SplitWithoutSpace(w: string)
    requires ' ' !in w
    ensures SplitSpaces(w) == [w]
  {
    if w != [] {
      assert ' ' !in w[1..] by { assert forall k :: 0 <= k < |w[1..]| ==> w[1..][k] == w[k + 1]; }
      SplitWithoutSpace(w[1..]);
      assert [w[0]] + w[1..] == w;
    }
  }

  /** Splitting at the first space. */
  lemma {:induction false} SplitAtSpace(w: string, u: string)
    requires ' ' !in w
    ensures SplitSpaces(w + " " + u) == [w] + SplitSpaces(u)
  {
    if w == [] {
      assert w + " " + u == [' '] + u;
      assert (w + " " + u)[1..] == u;
    } else {
      var s := w + " " + u;
      assert s[0] == w[0] && s[1..] == w[1..] + " " + u;
      assert ' ' !in w[1..] by { assert forall k :: 0 <= k < |w[1..]| ==> w[1..][k] == w[k + 1]; }
      SplitAtSpace(w[1..], u);
      assert [w[0]] + w[1..] == w;
    }
  }

  /** Capitalising the split pieces and joining them again upper-cases exactly the characters
      that start the text or follow a space. */
  lemma {:induction false} CapitalizeJoin(s: string)
    ensures JoinSpaces(CapitalizeAll(SplitSpaces(s))) == CapitalizedAfterSpaces(s)
    decreases |s|
  {
    if ' ' !in s {
      SplitWithoutSpace(s);
      var r := CapitalizedAfterSpaces(s);
      if s != [] {
        assert forall j :: 0 <= j < |s| - 1 ==> s[j] != ' ';
        assert r == [ToUpperChar(s[0])] + s[1..];
      }
    } else {
      var k := SpaceIndex(s);
      var w, u := s[..k], s[k + 1..];
      assert s == w + " " + u;
      assert ' ' !in w;
      SplitAtSpace(w, u);
      CapitalizeJoin(u);
      var ws := CapitalizeAll(SplitSpaces(s));
      assert ws == [CapitalizeWord(w)] + CapitalizeAll(SplitSpaces(u));
      assert JoinSpaces(ws) == CapitalizeWord(w) + " " + CapitalizedAfterSpaces(u);
      JoinMatches(s, w, u);
    }
  }

  /** The position of the first space. */
  function SpaceIndex(s: string): (k: nat)
    requires ' ' in s
    ensures k < |s| && s[k] == ' ' && forall j :: 0 <= j < k ==> s[j] != ' '
  {
    if s[0] == ' ' then 0
    else
      assert ' ' in s[1..] by {
        var i :| 0 <= i < |s| && s[i] == ' ';
        assert s[1..][i - 1] == s[i];
      }
      var k := SpaceIndex(s[1..]);
      assert forall j :: 1 <= j < k + 1 ==> s[j] == s[1..][j - 1];
      k + 1
  }

  lemma JoinMatches(s: string, w: string, u: string)
    requires s == w + " " + u && ' ' !in w
    ensures CapitalizeWord(w) + " " + CapitalizedAfterSpaces(u) == CapitalizedAfterSpaces(s)
  {
    var l, r := CapitalizeWord(w) + " " + CapitalizedAfterSpaces(u), CapitalizedAfterSpaces(s);
    forall i | 0 <= i < |s|
      ensures l[i] == r[i]
    {
      if i < |w| {
        assert s[i] == w[i];
        if i > 0 { assert s[i - 1] == w[i - 1]; }
      } else if i > |w| {
        assert s[i] == u[i - |w| - 1];
        if i > |w| + 1 { assert s[i - 1] == u[i - |w| - 2]; }
      }
    }
  }

  /** `capitalizeWords` keeps the length and the positions of the spaces (so the number of
      words), lower-cases every letter and upper-cases the first letter of each word. */
  lemma CapitalizeWordsShape(text: string)
    ensures var r := CapitalizeWords(text);
            |r| == |text|
            && (forall i :: 0 <= i < |text| ==> (r[i] == ' ' <==> text[i] == ' '))
            && (forall i :: 0 <= i < |text| ==>
                  r[i] == if i == 0 || text[i - 1] == ' ' then ToUpperChar(ToLowerChar(text[i]))
                          else ToLowerChar(text[i]))
  {
    if text != [] {
      CapitalizeJoin(ToLower(text));
    }
  }
}
