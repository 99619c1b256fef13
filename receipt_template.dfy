/** The on-screen thermal receipt: `formatCurrency`, `formatDate` and the order and visibility
    of the lines the receipt component draws. */
module ReceiptTemplate {
  import opened Strings
  import opened Numbers
  import opened ReceiptModel

  /** `formatCurrency(amount, symbol, separator)`: a NaN amount counts as zero; the id-ID text with
      at most two fraction digits has every decimal comma replaced by `separator`. */
  function FormatCurrency(amount: Num, symbol: string, separator: string): (r: string)
    ensures StartsWith(r, symbol + " ")
  {
    var formatted := ReplaceAllChar(IdLocale(NaNToZero(amount), 2), ',', separator);
    assert (symbol + " " + formatted)[..|symbol + " "|] == symbol + " ";
    symbol + " " + formatted
  }

  /** A NaN amount is shown as zero. */
  lemma FormatCurrencyNaN(symbol: string, separator: string)
    ensures FormatCurrency(NaN, symbol, separator) == symbol + " 0"
    ensures FormatCurrency(NaN, symbol, separator) == FormatCurrency(Finite(0.0), symbol, separator)
  {
    WholeIdLocaleHasNoComma(0, 2);
  }

  /** A whole amount has no decimal comma, so the separator setting never shows in it: the
      thousands are always grouped with '.'. */
  lemma WholeAmountIgnoresSeparator(n: nat, symbol: string, separator: string)
    ensures FormatCurrency(Finite(n as real), symbol, separator) == symbol + " " + Grouped(n, ".")
  {
    WholeIdLocaleHasNoComma(n, 2);
  }

  /** The amount due of the weighing example, 485000, is shown as "Rp 485.000". */
  lemma FormatCurrencyExample()
    ensures FormatCurrency(Finite(485000.0), "Rp", ".") == "Rp 485.000"
  {
    WholeAmountIgnoresSeparator(485000, "Rp", ".");
    Grouped485000();
    assert "Rp" + " " + "485.000" == "Rp 485.000";
  }

  lemma Grouped485000()
    ensures Grouped(485000, ".") == "485.000"
  {
    assert 485000 / 1000 == 485 && 485000 % 1000 == 0;
    assert Grouped(485000, ".") == Grouped(485, ".") + "." + Pad3(0);
    String485();
    Pad3Zero();
  }

  lemma String485()
    ensures Grouped(485, ".") == "485"
  {
    assert NatToString(4) == "4";
    assert NatToString(48) == "48";
  }

  lemma Pad3Zero()
    ensures Pad3(0) == "000"
  {
    assert NatToString(0) == "0";
    assert Repeat('0', 2) == "00";
  }

  /** `n.toString().padStart(2, "0")`. */
  function Pad2(n: nat): (r: string)
    ensures AllChars(r, IsDigit) && DigitsValue(r) == n
    ensures n < 100 ==> |r| == 2
  {
    NatToStringRoundTrip(n);
    PadStartZerosValue(NatToString(n), 2);
    assert n < 100 ==> |NatToString(n)| <= 2 by {
      if 10 <= n < 100 { assert NatToString(n) == NatToString(n / 10) + [DigitChar(n % 10)]; }
    }
    PadStart(NatToString(n), 2, '0')
  }

  /** The date part of `formatDate`: the first "DD", then the first "MM", then the first "YYYY"
      of `format` are replaced, each in the text the previous replacement left. */
  function DatePart(d: DateTime, format: string): string {
    ReplaceFirst(ReplaceFirst(ReplaceFirst(format, "DD", Pad2(d.day)), "MM", Pad2(d.month)),
                 "YYYY", NatToString(d.year))
  }

  /** `formatDate(date, format, showTime)`. */
  function FormatDate(d: DateTime, format: string, showTime: bool): (r: string)
    ensures !showTime ==> r == DatePart(d, format)
    ensures showTime ==> StartsWith(r, DatePart(d, format)) && |r| >= |DatePart(d, format)| + 6
  {
    DatePart(d, format) + (if showTime then " " + Pad2(d.hour) + ":" + Pad2(d.minute) else "")
  }

  /** With `showTime` exactly " HH:MM" is appended, zero-padded; without it nothing is. */
  lemma TimeAppended(d: DateTime, format: string)
    requires ValidDateTime(d)
    ensures StartsWith(FormatDate(d, format, true), FormatDate(d, format, false))
            && var suffix := FormatDate(d, format, true)[|FormatDate(d, format, false)|..];
            |suffix| == 6 && suffix[0] == ' ' && suffix[3] == ':'
            && DigitsValue(suffix[1..3]) == d.hour && DigitsValue(suffix[4..]) == d.minute
    ensures FormatDate(d, format, false) == DatePart(d, format)
  {
    ClockSuffix(DatePart(d, format), Pad2(d.hour), Pad2(d.minute));
  }

  lemma ClockSuffix(base: string, h: string, m: string)
    requires |h| == 2 && |m| == 2
    ensures var full := base + " " + h + ":" + m;
            var suffix := full[|base|..];
            StartsWith(full, base) && suffix == " " + h + ":" + m
            && |suffix| == 6 && suffix[0] == ' ' && suffix[3] == ':' && suffix[1..3] == h && suffix[4..] == m
  {
    var full := base + " " + h + ":" + m;
    assert full[..|base|] == base;
    var suffix := full[|base|..];
    assert suffix == " " + h + ":" + m;
  }

  /** The default pattern "DD/MM/YYYY" gives the zero-padded day, month and the year. */
  lemma DefaultPattern(d: DateTime)
    ensures DatePart(d, "DD/MM/YYYY") == Pad2(d.day) + "/" + Pad2(d.month) + "/" + NatToString(d.year)
  {
    DefaultPatternDigits(Pad2(d.day), Pad2(d.month), NatToString(d.year));
  }

  lemma DefaultPatternDigits(dd: string, mm: string, yy: string)
    requires AllChars(dd, IsDigit) && AllChars(mm, IsDigit)
    ensures ReplaceFirst(ReplaceFirst(ReplaceFirst("DD/MM/YYYY", "DD", dd), "MM", mm), "YYYY", yy)
            == dd + "/" + mm + "/" + yy
  {
    ReplaceDay(dd);
    ReplaceMonth(dd, mm);
    ReplaceYear(dd, mm, yy);
  }

  lemma ReplaceDay(dd: string)
    ensures ReplaceFirst("DD/MM/YYYY", "DD", dd) == dd + "/MM/YYYY"
  {
    assert "DD" + "/MM/YYYY" == "DD/MM/YYYY";
    ReplaceAtStart("DD", "/MM/YYYY", dd);
  }

  lemma ReplaceMonth(dd: string, mm: string)
    requires AllChars(dd, IsDigit)
    ensures ReplaceFirst(dd + "/MM/YYYY", "MM", mm) == dd + "/" + mm + "/YYYY"
  {
    NoLetterInDigits(dd, 'M');
    assert dd + "/MM/YYYY" == (dd + "/") + "MM/YYYY";
    ReplaceFirstAfterPrefix(dd + "/", "MM/YYYY", "MM", mm);
    assert "MM/YYYY"[2..] == "/YYYY";
  }

  lemma ReplaceYear(dd: string, mm: string, yy: string)
    requires AllChars(dd, IsDigit) && AllChars(mm, IsDigit)
    ensures ReplaceFirst(dd + "/" + mm + "/YYYY", "YYYY", yy) == dd + "/" + mm + "/" + yy
  {
    NoLetterInDigits(mm, 'Y');
    NoLetterInDigits(dd, 'Y');
    var p := dd + "/" + mm + "/";
    assert 'Y' !in p;
    assert dd + "/" + mm + "/YYYY" == p + "YYYY";
    ReplaceFirstAfterPrefix(p, "YYYY", "YYYY", yy);
    assert "YYYY"[4..] == [];
  }

  lemma NoLetterInDigits(s: string, c: char)
    requires AllChars(s, IsDigit) && !IsDigit(c)
    ensures c !in s
  {
    assert forall i :: 0 <= i < |s| ==> s[i] != c;
  }

  /** `renderCustomerSection` draws a line. */
  predicate CustomerShown(t: Transaction, s: ThermalSettings) {
    s.show_customer && t.customer_name != ""
  }

  /** `renderAdminSection` draws a line. */
  predicate AdminShown(t: Transaction, s: ThermalSettings) {
    s.show_admin && t.admin_name != ""
  }

  /** `hasCustomerOrAdmin()`. */
  predicate HasCustomerOrAdmin(t: Transaction, s: ThermalSettings) {
    CustomerShown(t, s) || AdminShown(t, s)
  }

  /** `renderNotesSection` draws the note (a note that is empty or white space only is not drawn). */
  predicate NotesShown(t: Transaction, s: ThermalSettings) {
    s.show_notes && t.catatan != "" && Trim(t.catatan) != ""
  }

  /** What a field of the on-screen receipt shows, before it is formatted. */
  datatype Shown =
    | Text(text: string)
    | Weight(kg: real)
    | Percent(pct: real)
    | Currency(amount: Num, symbol: string, separator: string)
    | Date(date: DateTime, format: string, showTime: bool)

  /** The text of a field: weights with the id-ID default of at most three fraction digits and
      the unit, the percentage as `String(n)` and a '%' sign. */
  function ShownText(v: Shown): string {
    match v
    case Text(x) => x
    case Weight(w) => IdLocale(w, 3) + " Kg"
    case Percent(p) => JsString(p) + "%"
    case Currency(a, sym, sep) => FormatCurrency(a, sym, sep)
    case Date(d, f, st) => FormatDate(d, f, st)
  }

  function Header(s: ThermalSettings): seq<Line<Shown>> {
    [Rule(true), Heading(s.company_name), Centered(s.company_address),
     Centered("HP: " + s.company_phone), Rule(true)]
  }

  /** The date, the item and the three weights. */
  function Details(t: Transaction, s: ThermalSettings): seq<Line<Shown>> {
    [Field("Tanggal", Date(t.transaction_date, s.date_format, s.show_time), false),
     Field("Barang", Text(t.jenis_barang), false),
     Field("Bruto", Weight(t.bruto_kg), false),
     Field("Tare", Weight(t.tare_kg), false),
     Field("Netto", Weight(t.netto_kg), false)]
  }

  /** The deduction lines, each drawn only for a positive amount. */
  function Deductions(t: Transaction): seq<Line<Shown>> {
    When(t.pot_percentage > 0.0, Field("Pot (%)", Percent(t.pot_percentage), false))
    + When(t.pot_kg > 0.0, Field("Pot (Kg)", Weight(t.pot_kg), false))
  }

  /** The billed weight, the price per kilogram and the amount due (bold). */
  function Amounts(t: Transaction, s: ThermalSettings): seq<Line<Shown>> {
    [Field("Total", Weight(t.total_kg), false),
     Field("Harga", Currency(Finite(t.harga_per_kg), s.currency_symbol, s.thousand_separator), false),
     Field("Jumlah Uang", Currency(Finite(t.total_harga), s.currency_symbol, s.thousand_separator), true)]
  }

  /** The customer line, then the admin line. */
  function Parties(t: Transaction, s: ThermalSettings): seq<Line<Shown>> {
    When(CustomerShown(t, s), Field("Customer", Text(t.customer_name), false))
    + When(AdminShown(t, s), Field("Admin", Text(t.admin_name), false))
  }

  /** The thin rule under the amounts, the parties, and a thin rule closing them when there are any. */
  function Identity(t: Transaction, s: ThermalSettings): seq<Line<Shown>> {
    [Rule(false)] + Parties(t, s) + When(HasCustomerOrAdmin(t, s), Rule(false))
  }

  function NotesBlock(t: Transaction, s: ThermalSettings): seq<Line<Shown>> {
    if NotesShown(t, s) then [Note(t.catatan), Rule(false)] else []
  }

  function Footer(s: ThermalSettings): seq<Line<Shown>> {
    [Rule(true), Heading("~ " + s.footer_text + " ~"), Rule(true)]
  }

  /** The lines `ThermalReceiptTemplate` draws, top to bottom. */
  function TemplateLines(t: Transaction, s: ThermalSettings): (r: seq<Line<Shown>>)
    ensures |r| >= |Header(s)| + |Footer(s)|
    ensures r[..|Header(s)|] == Header(s) && r[|r| - |Footer(s)|..] == Footer(s)
  {
    Header(s) + Details(t, s) + Deductions(t) + Amounts(t, s) + Identity(t, s) + NotesBlock(t, s) + Footer(s)
  }

  function OptionalLabel(b: bool, caption: string): (r: seq<string>)
    ensures b ==> r == [caption]
    ensures !b ==> r == []
  {
    if b then [caption] else []
  }

  /** Labels, notes and thin rules of the parts of the receipt. */
  lemma HeaderFooterParts(s: ThermalSettings)
    ensures Labels(Header(s)) == [] && Notes(Header(s)) == [] && ThinRules(Header(s)) == 0
    ensures Labels(Footer(s)) == [] && Notes(Footer(s)) == [] && ThinRules(Footer(s)) == 0
  {
    LabelsWithoutFields(Header(s));
    NotesWithoutNotes(Header(s));
    ThinRulesWithoutThin(Header(s));
    LabelsWithoutFields(Footer(s));
    NotesWithoutNotes(Footer(s));
    ThinRulesWithoutThin(Footer(s));
  }

  lemma BodyParts(t: Transaction, s: ThermalSettings)
    ensures Labels(Details(t, s)) == ["Tanggal", "Barang", "Bruto", "Tare", "Netto"]
    ensures Labels(Deductions(t)) == OptionalLabel(t.pot_percentage > 0.0, "Pot (%)")
                                     + OptionalLabel(t.pot_kg > 0.0, "Pot (Kg)")
    ensures Labels(Amounts(t, s)) == ["Total", "Harga", "Jumlah Uang"]
    ensures Notes(Details(t, s)) == [] && Notes(Deductions(t)) == [] && Notes(Amounts(t, s)) == []
    ensures ThinRules(Details(t, s)) == 0 && ThinRules(Deductions(t)) == 0 && ThinRules(Amounts(t, s)) == 0
  {
    LabelsOfFields(Details(t, s));
    LabelsOfFields(Amounts(t, s));
    LabelsAppend(When(t.pot_percentage > 0.0, Field("Pot (%)", Percent(t.pot_percentage), false)),
                 When(t.pot_kg > 0.0, Field("Pot (Kg)", Weight(t.pot_kg), false)));
    NotesWithoutNotes(Details(t, s));
    NotesWithoutNotes(Deductions(t));
    NotesWithoutNotes(Amounts(t, s));
    ThinRulesWithoutThin(Details(t, s));
    ThinRulesWithoutThin(Deductions(t));
    ThinRulesWithoutThin(Amounts(t, s));
  }

  lemma IdentityParts(t: Transaction, s: ThermalSettings)
    ensures Labels(Identity(t, s)) == OptionalLabel(CustomerShown(t, s), "Customer")
                                      + OptionalLabel(AdminShown(t, s), "Admin")
    ensures Notes(Identity(t, s)) == []
    ensures ThinRules(Identity(t, s)) == 1 + (if HasCustomerOrAdmin(t, s) then 1 else 0)
  {
    IdentityLabels(t, s);
    NotesWithoutNotes(Identity(t, s));
    IdentityRules(t, s);
  }

  lemma IdentityLabels(t: Transaction, s: ThermalSettings)
    ensures Labels(Identity(t, s)) == OptionalLabel(CustomerShown(t, s), "Customer")
                                      + OptionalLabel(AdminShown(t, s), "Admin")
  {
    var parties := Parties(t, s);
    var close := When(HasCustomerOrAdmin(t, s), Rule(false));
    LabelsAppend(When(CustomerShown(t, s), Field("Customer", Text(t.customer_name), false)),
                 When(AdminShown(t, s), Field("Admin", Text(t.admin_name), false)));
    LabelsAppend([Rule(false)] + parties, close);
    LabelsAppend([Rule(false)], parties);
  }

  lemma IdentityRules(t: Transaction, s: ThermalSettings)
    ensures ThinRules(Identity(t, s)) == 1 + (if HasCustomerOrAdmin(t, s) then 1 else 0)
  {
    var parties := Parties(t, s);
    var close := When(HasCustomerOrAdmin(t, s), Rule(false));
    ThinRulesAppend([Rule(false)] + parties, close);
    ThinRulesAppend([Rule(false)], parties);
    ThinRulesWithoutThin(parties);
  }

  lemma NotesParts(t: Transaction, s: ThermalSettings)
    ensures Labels(NotesBlock(t, s)) == []
    ensures Notes(NotesBlock(t, s)) == (if NotesShown(t, s) then [t.catatan] else [])
    ensures ThinRules(NotesBlock(t, s)) == (if NotesShown(t, s) then 1 else 0)
  {
    if NotesShown(t, s) {
      NoteThenRule<Shown>(t.catatan);
    }
  }

  lemma NoteThenRule<V>(text: string)
    ensures var lines: seq<Line<V>> := [Note(text), Rule(false)];
            Labels(lines) == [] && Notes(lines) == [text] && ThinRules(lines) == 1
  {
    var lines: seq<Line<V>> := [Note(text), Rule(false)];
    assert lines[1..] == [Rule(false)];
    assert lines[1..][1..] == [];
  }

  lemma LabelsByPart(t: Transaction, s: ThermalSettings)
    ensures Labels(TemplateLines(t, s))
      == Labels(Details(t, s)) + Labels(Deductions(t)) + Labels(Amounts(t, s)) + Labels(Identity(t, s))
  {
    var h, d, p, a, i, n, f := Header(s), Details(t, s), Deductions(t), Amounts(t, s),
                               Identity(t, s), NotesBlock(t, s), Footer(s);
    LabelsAppend7(h, d, p, a, i, n, f);
    HeaderFooterParts(s);
    LabelsWithoutFields(n);
    DropEmptyEnds(Labels(h), Labels(d), Labels(p), Labels(a), Labels(i), Labels(n), Labels(f));
  }

  lemma DropEmptyEnds<T>(x: seq<T>, a: seq<T>, b: seq<T>, c: seq<T>, d: seq<T>, y: seq<T>, z: seq<T>)
    requires x == [] && y == [] && z == []
    ensures x + a + b + c + d + y + z == a + b + c + d
  {
  }

  lemma NotesByPart(t: Transaction, s: ThermalSettings)
    ensures Notes(TemplateLines(t, s)) == Notes(NotesBlock(t, s))
  {
    var h, d, p, a, i, n, f := Header(s), Details(t, s), Deductions(t), Amounts(t, s),
                               Identity(t, s), NotesBlock(t, s), Footer(s);
    NotesAppend7(h, d, p, a, i, n, f);
    HeaderFooterParts(s);
    BodyParts(t, s);
    IdentityParts(t, s);
  }

  lemma ThinRulesByPart(t: Transaction, s: ThermalSettings)
    ensures ThinRules(TemplateLines(t, s)) == ThinRules(Identity(t, s)) + ThinRules(NotesBlock(t, s))
  {
    var h, d, p, a, i, n, f := Header(s), Details(t, s), Deductions(t), Amounts(t, s),
                               Identity(t, s), NotesBlock(t, s), Footer(s);
    ThinRulesAppend7(h, d, p, a, i, n, f);
    HeaderFooterParts(s);
    BodyParts(t, s);
  }

  /** The field lines in order: the fixed details with the two deduction lines only when
      positive, then the customer before the admin, each only when enabled and non-empty. */
  lemma TemplateLabels(t: Transaction, s: ThermalSettings)
    ensures Labels(TemplateLines(t, s))
      == ["Tanggal", "Barang", "Bruto", "Tare", "Netto"]
         + OptionalLabel(t.pot_percentage > 0.0, "Pot (%)")
         + OptionalLabel(t.pot_kg > 0.0, "Pot (Kg)")
         + ["Total", "Harga", "Jumlah Uang"]
         + OptionalLabel(CustomerShown(t, s), "Customer")
         + OptionalLabel(AdminShown(t, s), "Admin")
  {
    LabelsByPart(t, s);
    BodyParts(t, s);
    IdentityParts(t, s);
    Regroup6(Labels(Details(t, s)), OptionalLabel(t.pot_percentage > 0.0, "Pot (%)"),
             OptionalLabel(t.pot_kg > 0.0, "Pot (Kg)"), Labels(Amounts(t, s)),
             OptionalLabel(CustomerShown(t, s), "Customer"), OptionalLabel(AdminShown(t, s), "Admin"));
  }

  lemma Regroup6<T>(a: seq<T>, b: seq<T>, c: seq<T>, d: seq<T>, e: seq<T>, f: seq<T>)
    ensures a + (b + c) + d + (e + f) == a + b + c + d + e + f
  {
  }

  /** The customer line appears exactly when it is enabled and the name is non-empty. */
  lemma CustomerLineIff(t: Transaction, s: ThermalSettings)
    ensures HasField(TemplateLines(t, s), "Customer") <==> s.show_customer && t.customer_name != ""
  {
    TemplateLabels(t, s);
    HasFieldIffLabel(TemplateLines(t, s), "Customer");
  }

  /** The admin line appears exactly when it is enabled and the name is non-empty. */
  lemma AdminLineIff(t: Transaction, s: ThermalSettings)
    ensures HasField(TemplateLines(t, s), "Admin") <==> s.show_admin && t.admin_name != ""
  {
    TemplateLabels(t, s);
    HasFieldIffLabel(TemplateLines(t, s), "Admin");
  }

  /** The deduction lines appear exactly when their amounts are positive. */
  lemma DeductionLinesIff(t: Transaction, s: ThermalSettings)
    ensures HasField(TemplateLines(t, s), "Pot (%)") <==> t.pot_percentage > 0.0
    ensures HasField(TemplateLines(t, s), "Pot (Kg)") <==> t.pot_kg > 0.0
  {
    TemplateLabels(t, s);
    HasFieldIffLabel(TemplateLines(t, s), "Pot (%)");
    HasFieldIffLabel(TemplateLines(t, s), "Pot (Kg)");
  }

  /** The note appears, once and with the transaction's text, exactly when notes are enabled and
      the note is not blank. */
  lemma NoteIff(t: Transaction, s: ThermalSettings)
    ensures Notes(TemplateLines(t, s)) == (if s.show_notes && !IsBlank(t.catatan) then [t.catatan] else [])
  {
    NotesByPart(t, s);
    NotesParts(t, s);
    TrimEmptyIffBlank(t.catatan);
    assert t.catatan == "" ==> IsBlank(t.catatan);
  }

  /** One thin rule follows the amount due, one closes the customer and admin lines when either
      is drawn, and one follows the note when it is drawn. */
  lemma ThinRuleCount(t: Transaction, s: ThermalSettings)
    ensures ThinRules(TemplateLines(t, s))
      == 1 + (if HasCustomerOrAdmin(t, s) then 1 else 0) + (if NotesShown(t, s) then 1 else 0)
  {
    ThinRulesByPart(t, s);
    IdentityParts(t, s);
    NotesParts(t, s);
  }

  /** The receipt opens with the company header and closes with the footer; a drawn note sits
      just above the footer, followed by its thin rule. */
  lemma NotePlacement(t: Transaction, s: ThermalSettings)
    ensures var lines := TemplateLines(t, s);
            |lines| >= 8 && lines[..5] == Header(s) && lines[|lines| - 3..] == Footer(s)
            && (NotesShown(t, s) ==> lines[|lines| - 5] == Note(t.catatan) && lines[|lines| - 4] == Rule(false))
  {
    var middle := Details(t, s) + Deductions(t) + Amounts(t, s) + Identity(t, s);
    Assembly(t, s);
    PartSizes(t, s);
    Placement(Header(s), middle, NotesBlock(t, s), Footer(s));
  }

  lemma Assembly(t: Transaction, s: ThermalSettings)
    ensures var middle := Details(t, s) + Deductions(t) + Amounts(t, s) + Identity(t, s);
            TemplateLines(t, s) == Header(s) + middle + NotesBlock(t, s) + Footer(s)
  {
    Regroup7(Header(s), Details(t, s), Deductions(t), Amounts(t, s), Identity(t, s), NotesBlock(t, s), Footer(s));
  }

  lemma Regroup7<T>(h: seq<T>, a: seq<T>, b: seq<T>, c: seq<T>, d: seq<T>, n: seq<T>, f: seq<T>)
    ensures h + a + b + c + d + n + f == h + (a + b + c + d) + n + f
  {
  }

  lemma PartSizes(t: Transaction, s: ThermalSettings)
    ensures |Header(s)| == 5 && |Footer(s)| == 3
    ensures NotesShown(t, s) ==> NotesBlock(t, s) == [Note(t.catatan), Rule(false)]
  {
  }

  lemma Placement<T>(h: seq<T>, m: seq<T>, n: seq<T>, f: seq<T>)
    ensures var all := h + m + n + f;
            all[..|h|] == h && all[|all| - |f|..] == f
            && (|n| == 2 ==> all[|all| - |f| - 2] == n[0] && all[|all| - |f| - 1] == n[1])
  {
  }
}
