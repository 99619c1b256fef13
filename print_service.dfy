/** The print and PDF receipt (`ThermalPrintService`): the markup `generateReceiptHTML` builds,
    its local formatters, the result messages of printing and sharing, and the preview data. */
module PrintService {
  import opened Strings
  import opened Numbers
  import opened ReceiptModel
  import Template = ReceiptTemplate

  /** What a row of the printed receipt shows, before it is formatted. */
  datatype Printed =
    | Plain(text: string)
    | Kilograms(kg: real)
    | Percentage(pct: real)
    | Money(amount: Num)
    | DayMonthYear(date: DateTime)

  /** The local `formatMoney`: NaN counts as zero and the prefix is always "Rp ", whatever the
      currency symbol setting; the id-ID default keeps up to three fraction digits. */
  function FormatMoney(amount: Num): (r: string)
    ensures StartsWith(r, "Rp ")
  {
    var text := "Rp " + IdLocale(NaNToZero(amount), 3);
    assert text[..3] == "Rp ";
    text
  }

  /** The local `formatWeight`: id-ID with at most two fraction digits. */
  function FormatWeight(w: real): (r: string)
    ensures w >= 0.0 && w.Floor as real == w ==> r == Grouped(w.Floor as nat, ".") && ',' !in r
  {
    if w >= 0.0 && w.Floor as real == w then
      WholeIdLocaleHasNoComma(w.Floor as nat, 2);
      IdLocale(w, 2)
    else IdLocale(w, 2)
  }

  /** The local `formatSimpleDate`, `toLocaleDateString('id-ID')`: day/month/year without padding. */
  function FormatSimpleDate(d: DateTime): string {
    NatToString(d.day) + "/" + NatToString(d.month) + "/" + NatToString(d.year)
  }

  /** The day, the month and the year are read back, in that order, between the two slashes. */
  lemma SimpleDateReadsBack(d: DateTime)
    ensures var r, a, b := FormatSimpleDate(d), |NatToString(d.day)|, |NatToString(d.month)|;
            |r| > a + b + 2 && r[a] == '/' && r[a + 1 + b] == '/'
            && DigitsValue(r[..a]) == d.day && DigitsValue(r[a + 1..a + 1 + b]) == d.month
            && DigitsValue(r[a + b + 2..]) == d.year
  {
    var dd, mm, yy := NatToString(d.day), NatToString(d.month), NatToString(d.year);
    ThreeParts(dd, '/', mm, yy);
    NatToStringRoundTrip(d.day);
    NatToStringRoundTrip(d.month);
    NatToStringRoundTrip(d.year);
  }

  /** The parts of `a`, a separator, `b`, the separator and `z` are read back at their offsets. */
  lemma ThreeParts<T>(a: seq<T>, c: T, b: seq<T>, z: seq<T>)
    ensures var r := a + [c] + b + [c] + z;
            |r| == |a| + |b| + |z| + 2 && r[|a|] == c && r[|a| + 1 + |b|] == c
            && r[..|a|] == a && r[|a| + 1..|a| + 1 + |b|] == b && r[|a| + |b| + 2..] == z
  {
    var r := a + [c] + b + [c] + z;
    assert r[|a| + |b| + 2..] == z;
    assert r[|a| + 1..|a| + 1 + |b|] == b;
  }

  function PrintedText(v: Printed): string {
    match v
    case Plain(x) => x
    case Kilograms(w) => FormatWeight(w) + " Kg"
    case Percentage(p) => JsString(p) + "%"
    case Money(a) => FormatMoney(a)
    case DayMonthYear(d) => FormatSimpleDate(d)
  }

  /** A piece of the document body: a `div` holding one line, or a `table` whose slots hold a
      row or nothing (an absent optional row still leaves its indented empty line). */
  datatype Block = Div(line: Line<Printed>) | Table(rows: seq<Option<Line<Printed>>>)

  /** The fixed markup fragments the document is assembled from. */
  const Indent := "  "
  const RowIndent := "    "
  const NewLine := "\n"
  const ThickRuleDiv := "<div class=\"center bold\">================================</div>"
  const SeparatorDiv := "<div class=\"separator\"></div>"
  const BoldDivOpen := "<div class=\"center bold\">"
  const DivOpen := "<div class=\"center\">"
  const DivClose := "</div>"
  const RowOpen := "<tr><td>"
  const TotalRowOpen := "<tr class=\"total-row\"><td>"
  const CellSeparator := "</td><td>:</td><td>"
  const RowClose := "</td></tr>"
  const NoteOpen := "<tr><td colspan=\"3\" style=\"padding-top:5px;font-style:italic;\">Catatan: "
  const TableOpen := "  <table>\n"
  const TableClose := "  </table>\n"

  /** The markup of one line: rules, headings and centred text are `div`s, fields and the note
      are table rows. */
  function LineHtml(l: Line<Printed>): string {
    match l
    case Rule(thick) => if thick then ThickRuleDiv else SeparatorDiv
    case Heading(x) => BoldDivOpen + x + DivClose
    case Centered(x) => DivOpen + x + DivClose
    case Field(c, v, bold) => (if bold then TotalRowOpen else RowOpen) + c + CellSeparator + PrintedText(v) + RowClose
    case Note(x) => NoteOpen + x + RowClose
  }

  /** What a table slot holds: its row, or nothing when the row is left out. */
  function SlotText(row: Option<Line<Printed>>): string {
    match row
    case Some(l) => LineHtml(l)
    case None => ""
  }

  function SlotHtml(row: Option<Line<Printed>>): string {
    RowIndent + SlotText(row) + NewLine
  }

  /** `doc` with the slots of `rows` appended one statement at a time. */
  function AppendSlots(doc: string, rows: seq<Option<Line<Printed>>>): string
    decreases |rows|
  {
    if rows == [] then doc else AppendSlots(doc + SlotHtml(rows[0]), rows[1..])
  }

  /** `doc` with the markup of `b` appended: a `div` line, or a table opened, filled slot by
      slot and closed. */
  function AppendBlock(doc: string, b: Block): string {
    match b
    case Div(l) => doc + (Indent + LineHtml(l) + NewLine)
    case Table(rows) => AppendSlots(doc + TableOpen, rows) + TableClose
  }

  function AppendBlocks(doc: string, bs: seq<Block>): string
    decreases |bs|
  {
    if bs == [] then doc else AppendBlocks(AppendBlock(doc, bs[0]), bs[1..])
  }

  /** Everything between the document type line and the body: the viewport and the style sheet
      for a 155px wide (58 mm) roll. */
  const Head: string :=
    "<html>\n"
    + "<head>\n"
    + "  <meta charset=\"utf-8\">\n"
    + "  <meta name=\"viewport\" content=\"width=device-width, initial-scale=1.0, maximum-scale=1.0, minimum-scale=1.0, user-scalable=no\">\n"
    + "  <style>\n"
    + "    * {\n"
    + "      margin: 0;\n"
    + "      padding: 0;\n"
    + "      font-family: 'Courier New', monospace;\n"
    + "      font-size: 12px;\n"
    + "    }\n"
    + "    body {\n"
    + "      width: 155px;\n"
    + "      max-width: 155px;\n"
    + "      padding: 5px;\n"
    + "      background: white;\n"
    + "      color: black;\n"
    + "    }\n"
    + "    .center {\n"
    + "      text-align: center;\n"
    + "    }\n"
    + "    .bold {\n"
    + "      font-weight: bold;\n"
    + "    }\n"
    + "    .separator {\n"
    + "      border-top: 1px dashed black;\n"
    + "      margin: 3px 0;\n"
    + "      width: 100%;\n"
    + "    }\n"
    + "    table {\n"
    + "      width: 100%;\n"
    + "      border-collapse: collapse;\n"
    + "      margin: 2px 0;\n"
    + "    }\n"
    + "    td {\n"
    + "      padding: 1px 2px;\n"
    + "      vertical-align: top;\n"
    + "    }\n"
    + "    .total-row {\n"
    + "      font-weight: bold;\n"
    + "      font-size: 13px;\n"
    + "      padding-top: 2px;\n"
    + "    }\n"
    + "  </style>\n"
    + "</head>\n"
    + "<body>\n"

  const DocType := "<!DOCTYPE html>\n"
  const BodyClose := "</body>\n"
  const HtmlClose := "</html>"

  /** The whole document around the body blocks. */
  function Markup(bs: seq<Block>): string {
    AppendBlocks(DocType + Head, bs) + BodyClose + HtmlClose
  }

  lemma PrefixOfAppend(a: string, b: string)
    ensures StartsWith(a + b, a)
  {
    assert (a + b)[..|a|] == a;
  }

  lemma PrefixTransitive(a: string, b: string, c: string)
    requires StartsWith(a, b) && StartsWith(b, c)
    ensures StartsWith(a, c)
  {
    assert a[..|c|] == a[..|b|][..|c|];
  }

  lemma {:induction false} AppendSlotsExtends(doc: string, rows: seq<Option<Line<Printed>>>)
    ensures StartsWith(AppendSlots(doc, rows), doc)
    decreases |rows|
  {
    if rows != [] {
      var next := doc + SlotHtml(rows[0]);
      AppendSlotsExtends(next, rows[1..]);
      PrefixOfAppend(doc, SlotHtml(rows[0]));
      PrefixTransitive(AppendSlots(doc, rows), next, doc);
    }
  }

  lemma AppendBlockExtends(doc: string, b: Block)
    ensures StartsWith(AppendBlock(doc, b), doc)
  {
    match b
    case Div(l) =>
      PrefixOfAppend(doc, Indent + LineHtml(l) + NewLine);
    case Table(rows) =>
      var inner := AppendSlots(doc + TableOpen, rows);
      AppendSlotsExtends(doc + TableOpen, rows);
      PrefixOfAppend(doc, TableOpen);
      PrefixTransitive(inner, doc + TableOpen, doc);
      PrefixOfAppend(inner, TableClose);
      PrefixTransitive(inner + TableClose, inner, doc);
  }

  /** Appending never rewrites what is already written. */
  lemma {:induction false} AppendBlocksExtends(doc: string, bs: seq<Block>)
    ensures StartsWith(AppendBlocks(doc, bs), doc)
    decreases |bs|
  {
    if bs != [] {
      var next := AppendBlock(doc, bs[0]);
      AppendBlocksExtends(next, bs[1..]);
      AppendBlockExtends(doc, bs[0]);
      PrefixTransitive(AppendBlocks(doc, bs), next, doc);
    }
  }

  /** Whatever comes before the body blocks stays at the front, and the closing tag ends the document. */
  lemma {:induction false} DocumentFrame(pre: string, bs: seq<Block>)
    ensures StartsWith(AppendBlocks(pre, bs) + BodyClose + HtmlClose, pre)
    ensures EndsWith(AppendBlocks(pre, bs) + BodyClose + HtmlClose, HtmlClose)
  {
    var body := AppendBlocks(pre, bs);
    AppendBlocksExtends(pre, bs);
    PrefixOfAppend(body, BodyClose);
    PrefixTransitive(body + BodyClose, body, pre);
    PrefixOfAppend(body + BodyClose, HtmlClose);
    PrefixTransitive(body + BodyClose + HtmlClose, body + BodyClose, pre);
    SuffixOfAppend(body + BodyClose, HtmlClose);
  }

  lemma SuffixOfAppend(a: string, b: string)
    ensures EndsWith(a + b, b)
  {
    assert (a + b)[|a|..] == b;
  }

  /** Every receipt document starts with the document type line and ends with the closing tag. */
  lemma MarkupFrame(bs: seq<Block>)
    ensures StartsWith(Markup(bs), DocType)
    ensures EndsWith(Markup(bs), HtmlClose)
  {
    DocumentFrame(DocType + Head, bs);
    PrefixOfAppend(DocType, Head);
    PrefixTransitive(Markup(bs), DocType + Head, DocType);
  }

  /** `potPercentageSection`. */
  function PotPercentageRow(t: Transaction): (r: Option<Line<Printed>>)
    ensures r.Some? <==> t.pot_percentage > 0.0
    ensures r.Some? ==> r.value.Field? && r.value.caption == "Pot (%)" && r.value.value == Percentage(t.pot_percentage) && !r.value.bold
  {
    if t.pot_percentage > 0.0 then Some(Field("Pot (%)", Percentage(t.pot_percentage), false)) else None
  }

  /** `potKgSection`. */
  function PotKgRow(t: Transaction): (r: Option<Line<Printed>>)
    ensures r.Some? <==> t.pot_kg > 0.0
    ensures r.Some? ==> r.value.Field? && r.value.caption == "Pot (Kg)" && r.value.value == Kilograms(t.pot_kg) && !r.value.bold
  {
    if t.pot_kg > 0.0 then Some(Field("Pot (Kg)", Kilograms(t.pot_kg), false)) else None
  }

  /** `adminSection`: shown whenever the setting is on, even for an empty name. */
  function AdminRow(t: Transaction, s: ThermalSettings): (r: Option<Line<Printed>>)
    ensures r.Some? <==> s.show_admin
    ensures r.Some? ==> r.value.Field? && r.value.caption == "Admin" && r.value.value == Plain(t.admin_name) && !r.value.bold
  {
    if s.show_admin then Some(Field("Admin", Plain(t.admin_name), false)) else None
  }

  /** `customerSection`: shown whenever the setting is on, even for an empty name. */
  function CustomerRow(t: Transaction, s: ThermalSettings): (r: Option<Line<Printed>>)
    ensures r.Some? <==> s.show_customer
    ensures r.Some? ==> r.value.Field? && r.value.caption == "Customer" && r.value.value == Plain(t.customer_name) && !r.value.bold
  {
    if s.show_customer then Some(Field("Customer", Plain(t.customer_name), false)) else None
  }

  /** `notesSection` is non-empty: notes are on and the note is a non-empty string (white space
      only counts as a note here). */
  predicate PrintNotesShown(t: Transaction, s: ThermalSettings) {
    s.show_notes && t.catatan != ""
  }

  function HeaderBlocks(s: ThermalSettings): seq<Block> {
    [Div(Rule(true)), Div(Heading(s.company_name)), Div(Centered(s.company_address)),
     Div(Centered("HP: " + s.company_phone)), Div(Rule(true))]
  }

  /** The date, goods and weight rows of the details table. */
  function DetailRows(t: Transaction): seq<Option<Line<Printed>>> {
    [Some(Field("Tanggal", DayMonthYear(t.transaction_date), false)),
     Some(Field("Barang", Plain(t.jenis_barang), false)),
     Some(Field("Bruto", Kilograms(t.bruto_kg), false)),
     Some(Field("Tare", Kilograms(t.tare_kg), false)),
     Some(Field("Netto", Kilograms(t.netto_kg), false))]
  }

  /** The deduction, billed weight, price and amount rows of the details table. */
  function AmountRows(t: Transaction): seq<Option<Line<Printed>>> {
    [PotPercentageRow(t),
     PotKgRow(t),
     Some(Field("Total", Kilograms(t.total_kg), false)),
     Some(Field("Harga", Money(Finite(t.harga_per_kg)), false)),
     Some(Field("Jumlah", Money(Finite(t.total_harga)), true))]
  }

  function MainRows(t: Transaction): seq<Option<Line<Printed>>> {
    DetailRows(t) + AmountRows(t)
  }

  function PartyRows(t: Transaction, s: ThermalSettings): seq<Option<Line<Printed>>> {
    [AdminRow(t, s), CustomerRow(t, s)]
  }

  /** The blocks after the header: the details table, a separator, the admin and customer
      table, a separator and the footer text. */
  function BodyBlocks(t: Transaction, s: ThermalSettings): seq<Block> {
    [Table(MainRows(t)), Div(Rule(false)), Table(PartyRows(t, s)), Div(Rule(false)),
     Div(Centered(s.footer_text))]
  }

  /** The notes table, after the footer. */
  function NotesBlocks(t: Transaction, s: ThermalSettings): seq<Block> {
    if PrintNotesShown(t, s) then [Table([Some(Note(t.catatan))])] else []
  }

  /** The body of the document `generateReceiptHTML` builds. */
  function PrintBlocks(t: Transaction, s: ThermalSettings): (r: seq<Block>)
    ensures |r| == if PrintNotesShown(t, s) then 11 else 10
    ensures r[..5] == HeaderBlocks(s)
  {
    HeaderBlocks(s) + BodyBlocks(t, s) + NotesBlocks(t, s)
  }


  /** One step of the fold: the block at `k` is appended next. */
  lemma NextBlock(doc: string, bs: seq<Block>, k: nat)
    requires k < |bs|
    ensures AppendBlocks(doc, bs[k..]) == AppendBlocks(AppendBlock(doc, bs[k]), bs[k + 1..])
  {
    assert bs[k..][1..] == bs[k + 1..];
  }

  /** One step of filling a table: the slot at `k` is appended next. */
  lemma NextSlot(doc: string, rows: seq<Option<Line<Printed>>>, k: nat)
    requires k < |rows|
    ensures AppendSlots(doc, rows[k..]) == AppendSlots(doc + SlotHtml(rows[k]), rows[k + 1..])
  {
    assert rows[k..][1..] == rows[k + 1..];
  }

  lemma {:induction false} AppendBlocksConcat(doc: string, a: seq<Block>, b: seq<Block>)
    ensures AppendBlocks(doc, a + b) == AppendBlocks(AppendBlocks(doc, a), b)
    decreases |a|
  {
    if a == [] {
      assert a + b == b;
    } else {
      assert (a + b)[0] == a[0];
      assert (a + b)[1..] == a[1..] + b;
      AppendBlocksConcat(AppendBlock(doc, a[0]), a[1..], b);
    }
  }

  /** The company header, as `generateReceiptHTML` writes it. */
  lemma HeaderStatements(doc: string, s: ThermalSettings)
    ensures AppendBlocks(doc, HeaderBlocks(s))
            == doc + (Indent + ThickRuleDiv + NewLine)
               + (Indent + (BoldDivOpen + s.company_name + DivClose) + NewLine)
               + (Indent + (DivOpen + s.company_address + DivClose) + NewLine)
               + (Indent + (DivOpen + ("HP: " + s.company_phone) + DivClose) + NewLine)
               + (Indent + ThickRuleDiv + NewLine)
  {
    AppendFiveDivs(doc, Rule(true), Heading(s.company_name), Centered(s.company_address),
                   Centered("HP: " + s.company_phone), Rule(true));
  }

  /** Five `div` lines in a row are appended one after the other. */
  lemma AppendFiveDivs(doc: string, a: Line<Printed>, b: Line<Printed>, c: Line<Printed>, d: Line<Printed>,
                       e: Line<Printed>)
    ensures AppendBlocks(doc, [Div(a), Div(b), Div(c), Div(d), Div(e)])
            == doc + (Indent + LineHtml(a) + NewLine) + (Indent + LineHtml(b) + NewLine)
               + (Indent + LineHtml(c) + NewLine) + (Indent + LineHtml(d) + NewLine)
               + (Indent + LineHtml(e) + NewLine)
  {
    var bs := [Div(a), Div(b), Div(c), Div(d), Div(e)];
    assert bs[0..] == bs;
    NextBlock(doc, bs, 0);
    var d1 := doc + (Indent + LineHtml(a) + NewLine);
    NextBlock(d1, bs, 1);
    var d2 := d1 + (Indent + LineHtml(b) + NewLine);
    NextBlock(d2, bs, 2);
    var d3 := d2 + (Indent + LineHtml(c) + NewLine);
    NextBlock(d3, bs, 3);
    var d4 := d3 + (Indent + LineHtml(d) + NewLine);
    NextBlock(d4, bs, 4);
    assert bs[5..] == [];
  }

  /** Five slots in a row are appended one after the other. */
  lemma AppendFiveSlots(doc: string, a: Option<Line<Printed>>, b: Option<Line<Printed>>, c: Option<Line<Printed>>,
                        d: Option<Line<Printed>>, e: Option<Line<Printed>>)
    ensures AppendSlots(doc, [a, b, c, d, e])
            == doc + SlotHtml(a) + SlotHtml(b) + SlotHtml(c) + SlotHtml(d) + SlotHtml(e)
  {
    var rows := [a, b, c, d, e];
    assert rows[0..] == rows;
    NextSlot(doc, rows, 0);
    NextSlot(doc + SlotHtml(a), rows, 1);
    NextSlot(doc + SlotHtml(a) + SlotHtml(b), rows, 2);
    NextSlot(doc + SlotHtml(a) + SlotHtml(b) + SlotHtml(c), rows, 3);
    NextSlot(doc + SlotHtml(a) + SlotHtml(b) + SlotHtml(c) + SlotHtml(d), rows, 4);
    assert rows[5..] == [];
  }

  /** The first five rows of the details table. */
  lemma DetailStatements(doc: string, t: Transaction)
    ensures AppendSlots(doc, DetailRows(t))
            == doc + (RowIndent + (RowOpen + "Tanggal" + CellSeparator + FormatSimpleDate(t.transaction_date) + RowClose) + NewLine)
               + (RowIndent + (RowOpen + "Barang" + CellSeparator + t.jenis_barang + RowClose) + NewLine)
               + (RowIndent + (RowOpen + "Bruto" + CellSeparator + (FormatWeight(t.bruto_kg) + " Kg") + RowClose) + NewLine)
               + (RowIndent + (RowOpen + "Tare" + CellSeparator + (FormatWeight(t.tare_kg) + " Kg") + RowClose) + NewLine)
               + (RowIndent + (RowOpen + "Netto" + CellSeparator + (FormatWeight(t.netto_kg) + " Kg") + RowClose) + NewLine)
  {
    assert SlotHtml(Some(Field("Tanggal", DayMonthYear(t.transaction_date), false)))
           == RowIndent + (RowOpen + "Tanggal" + CellSeparator + FormatSimpleDate(t.transaction_date) + RowClose) + NewLine;
    assert SlotHtml(Some(Field("Barang", Plain(t.jenis_barang), false)))
           == RowIndent + (RowOpen + "Barang" + CellSeparator + t.jenis_barang + RowClose) + NewLine;
    assert SlotHtml(Some(Field("Bruto", Kilograms(t.bruto_kg), false)))
           == RowIndent + (RowOpen + "Bruto" + CellSeparator + (FormatWeight(t.bruto_kg) + " Kg") + RowClose) + NewLine;
    assert SlotHtml(Some(Field("Tare", Kilograms(t.tare_kg), false)))
           == RowIndent + (RowOpen + "Tare" + CellSeparator + (FormatWeight(t.tare_kg) + " Kg") + RowClose) + NewLine;
    assert SlotHtml(Some(Field("Netto", Kilograms(t.netto_kg), false)))
           == RowIndent + (RowOpen + "Netto" + CellSeparator + (FormatWeight(t.netto_kg) + " Kg") + RowClose) + NewLine;
    AppendFiveSlots(doc, Some(Field("Tanggal", DayMonthYear(t.transaction_date), false)),
                    Some(Field("Barang", Plain(t.jenis_barang), false)),
                    Some(Field("Bruto", Kilograms(t.bruto_kg), false)),
                    Some(Field("Tare", Kilograms(t.tare_kg), false)),
                    Some(Field("Netto", Kilograms(t.netto_kg), false)));
  }

  /** The last five rows of the details table: the two optional deductions and the amounts. */
  lemma AmountStatements(doc: string, t: Transaction)
    ensures AppendSlots(doc, AmountRows(t))
            == doc + (RowIndent + SlotText(PotPercentageRow(t)) + NewLine)
               + (RowIndent + SlotText(PotKgRow(t)) + NewLine)
               + (RowIndent + (RowOpen + "Total" + CellSeparator + (FormatWeight(t.total_kg) + " Kg") + RowClose) + NewLine)
               + (RowIndent + (RowOpen + "Harga" + CellSeparator + FormatMoney(Finite(t.harga_per_kg)) + RowClose) + NewLine)
               + (RowIndent + (TotalRowOpen + "Jumlah" + CellSeparator + FormatMoney(Finite(t.total_harga)) + RowClose) + NewLine)
  {
    assert SlotHtml(Some(Field("Total", Kilograms(t.total_kg), false)))
           == RowIndent + (RowOpen + "Total" + CellSeparator + (FormatWeight(t.total_kg) + " Kg") + RowClose) + NewLine;
    assert SlotHtml(Some(Field("Harga", Money(Finite(t.harga_per_kg)), false)))
           == RowIndent + (RowOpen + "Harga" + CellSeparator + FormatMoney(Finite(t.harga_per_kg)) + RowClose) + NewLine;
    assert SlotHtml(Some(Field("Jumlah", Money(Finite(t.total_harga)), true)))
           == RowIndent + (TotalRowOpen + "Jumlah" + CellSeparator + FormatMoney(Finite(t.total_harga)) + RowClose) + NewLine;
    AppendFiveSlots(doc, PotPercentageRow(t), PotKgRow(t),
                    Some(Field("Total", Kilograms(t.total_kg), false)),
                    Some(Field("Harga", Money(Finite(t.harga_per_kg)), false)),
                    Some(Field("Jumlah", Money(Finite(t.total_harga)), true)));
  }

  lemma {:induction false} AppendSlotsConcat(doc: string, a: seq<Option<Line<Printed>>>, b: seq<Option<Line<Printed>>>)
    ensures AppendSlots(doc, a + b) == AppendSlots(AppendSlots(doc, a), b)
    decreases |a|
  {
    if a == [] {
      assert a + b == b;
    } else {
      assert (a + b)[0] == a[0];
      assert (a + b)[1..] == a[1..] + b;
      AppendSlotsConcat(doc + SlotHtml(a[0]), a[1..], b);
    }
  }

  /** The details table is opened, filled with its ten slots and closed. */
  lemma MainTableStatements(doc: string, t: Transaction)
    ensures AppendBlock(doc, Table(MainRows(t)))
            == AppendSlots(AppendSlots(doc + TableOpen, DetailRows(t)), AmountRows(t)) + TableClose
  {
    AppendSlotsConcat(doc + TableOpen, DetailRows(t), AmountRows(t));
  }

  /** The blocks after the header: separator, parties table, separator and footer. */
  lemma ClosingStatements(doc: string, t: Transaction, s: ThermalSettings)
    ensures AppendBlocks(doc, BodyBlocks(t, s)[1..])
            == doc + (Indent + SeparatorDiv + NewLine)
               + TableOpen + (RowIndent + SlotText(AdminRow(t, s)) + NewLine)
               + (RowIndent + SlotText(CustomerRow(t, s)) + NewLine) + TableClose
               + (Indent + SeparatorDiv + NewLine)
               + (Indent + (DivOpen + s.footer_text + DivClose) + NewLine)
  {
    var bs := BodyBlocks(t, s)[1..];
    assert bs == [Div(Rule(false)), Table(PartyRows(t, s)), Div(Rule(false)), Div(Centered(s.footer_text))];
    AppendFourBlocks(doc, bs[0], bs[1], bs[2], bs[3]);
    var d1 := doc + (Indent + SeparatorDiv + NewLine);
    AppendTwoSlots(d1 + TableOpen, AdminRow(t, s), CustomerRow(t, s));
  }

  /** Four blocks in a row are appended one after the other. */
  lemma AppendFourBlocks(doc: string, a: Block, b: Block, c: Block, d: Block)
    ensures AppendBlocks(doc, [a, b, c, d]) == AppendBlock(AppendBlock(AppendBlock(AppendBlock(doc, a), b), c), d)
  {
    var bs := [a, b, c, d];
    assert bs[0..] == bs;
    NextBlock(doc, bs, 0);
    NextBlock(AppendBlock(doc, a), bs, 1);
    NextBlock(AppendBlock(AppendBlock(doc, a), b), bs, 2);
    NextBlock(AppendBlock(AppendBlock(AppendBlock(doc, a), b), c), bs, 3);
    assert bs[4..] == [];
  }

  /** Two slots in a row are appended one after the other. */
  lemma AppendTwoSlots(doc: string, a: Option<Line<Printed>>, b: Option<Line<Printed>>)
    ensures AppendSlots(doc, [a, b]) == doc + SlotHtml(a) + SlotHtml(b)
  {
    var rows := [a, b];
    assert rows[0..] == rows;
    NextSlot(doc, rows, 0);
    NextSlot(doc + SlotHtml(a), rows, 1);
    assert rows[2..] == [];
  }

  /** The notes table, when there is one. */
  lemma NotesStatements(doc: string, t: Transaction, s: ThermalSettings)
    ensures PrintNotesShown(t, s) ==>
              AppendBlocks(doc, NotesBlocks(t, s))
              == doc + TableOpen + (RowIndent + (NoteOpen + t.catatan + RowClose) + NewLine) + TableClose
    ensures !PrintNotesShown(t, s) ==> AppendBlocks(doc, NotesBlocks(t, s)) == doc
  {
    var bs := NotesBlocks(t, s);
    if PrintNotesShown(t, s) {
      assert bs[0..] == bs;
      NextBlock(doc, bs, 0);
      var rows := bs[0].rows;
      assert rows[0..] == rows;
      NextSlot(doc + TableOpen, rows, 0);
      assert rows[1..] == [];
      assert bs[1..] == [];
    }
  }

  /** The receipt body splits into the header, the details table, the rest of the body and the notes. */
  lemma MarkupSections(t: Transaction, s: ThermalSettings)
    ensures var h := AppendBlocks(DocType + Head, HeaderBlocks(s));
            var m := AppendBlock(h, Table(MainRows(t)));
            var b := AppendBlocks(m, BodyBlocks(t, s)[1..]);
            Markup(PrintBlocks(t, s)) == AppendBlocks(b, NotesBlocks(t, s)) + BodyClose + HtmlClose
  {
    var doc := DocType + Head;
    var body := BodyBlocks(t, s);
    AppendBlocksConcat(doc, HeaderBlocks(s) + body, NotesBlocks(t, s));
    AppendBlocksConcat(doc, HeaderBlocks(s), body);
    var h := AppendBlocks(doc, HeaderBlocks(s));
    assert body[0..] == body;
    NextBlock(h, body, 0);
  }

  /** The company header of the template: two thick rules around the name, address and phone. */
  method WriteHeader(doc: string, s: ThermalSettings) returns (html: string)
    ensures html == AppendBlocks(doc, HeaderBlocks(s))
  {
    HeaderStatements(doc, s);
    html := doc;
    html := html + (Indent + ThickRuleDiv + NewLine);
    html := html + (Indent + (BoldDivOpen + s.company_name + DivClose) + NewLine);
    html := html + (Indent + (DivOpen + s.company_address + DivClose) + NewLine);
    html := html + (Indent + (DivOpen + ("HP: " + s.company_phone) + DivClose) + NewLine);
    html := html + (Indent + ThickRuleDiv + NewLine);
  }

  /** The details table of the template, with the two prepared deduction rows. */
  method WriteDetails(doc: string, t: Transaction, potPercentageSection: string, potKgSection: string)
    returns (html: string)
    requires potPercentageSection == SlotText(PotPercentageRow(t))
    requires potKgSection == SlotText(PotKgRow(t))
    ensures html == AppendBlock(doc, Table(MainRows(t)))
  {
    MainTableStatements(doc, t);
    html := doc + TableOpen;
    DetailStatements(html, t);
    html := html + (RowIndent + (RowOpen + "Tanggal" + CellSeparator + FormatSimpleDate(t.transaction_date) + RowClose) + NewLine);
    html := html + (RowIndent + (RowOpen + "Barang" + CellSeparator + t.jenis_barang + RowClose) + NewLine);
    html := html + (RowIndent + (RowOpen + "Bruto" + CellSeparator + (FormatWeight(t.bruto_kg) + " Kg") + RowClose) + NewLine);
    html := html + (RowIndent + (RowOpen + "Tare" + CellSeparator + (FormatWeight(t.tare_kg) + " Kg") + RowClose) + NewLine);
    html := html + (RowIndent + (RowOpen + "Netto" + CellSeparator + (FormatWeight(t.netto_kg) + " Kg") + RowClose) + NewLine);
    AmountStatements(html, t);
    html := html + (RowIndent + potPercentageSection + NewLine);
    html := html + (RowIndent + potKgSection + NewLine);
    html := html + (RowIndent + (RowOpen + "Total" + CellSeparator + (FormatWeight(t.total_kg) + " Kg") + RowClose) + NewLine);
    html := html + (RowIndent + (RowOpen + "Harga" + CellSeparator + FormatMoney(Finite(t.harga_per_kg)) + RowClose) + NewLine);
    html := html + (RowIndent + (TotalRowOpen + "Jumlah" + CellSeparator + FormatMoney(Finite(t.total_harga)) + RowClose) + NewLine);
    html := html + TableClose;
  }

  /** The rest of the template body: a separator, the parties table, a separator and the footer. */
  method WriteClosing(doc: string, t: Transaction, s: ThermalSettings, adminSection: string, customerSection: string)
    returns (html: string)
    requires adminSection == SlotText(AdminRow(t, s))
    requires customerSection == SlotText(CustomerRow(t, s))
    ensures html == AppendBlocks(doc, BodyBlocks(t, s)[1..])
  {
    ClosingStatements(doc, t, s);
    html := doc;
    html := html + (Indent + SeparatorDiv + NewLine);
    html := html + TableOpen;
    html := html + (RowIndent + adminSection + NewLine);
    html := html + (RowIndent + customerSection + NewLine);
    html := html + TableClose;
    html := html + (Indent + SeparatorDiv + NewLine);
    html := html + (Indent + (DivOpen + s.footer_text + DivClose) + NewLine);
  }

  /** The notes table of the template, written only when the prepared notes row is not empty. */
  method WriteNotes(doc: string, t: Transaction, s: ThermalSettings, notesSection: string) returns (html: string)
    requires notesSection == (if PrintNotesShown(t, s) then NoteOpen + t.catatan + RowClose else "")
    ensures html == AppendBlocks(doc, NotesBlocks(t, s))
  {
    NotesStatements(doc, t, s);
    html := doc;
    if notesSection != "" {
      html := html + TableOpen;
      html := html + (RowIndent + notesSection + NewLine);
      html := html + TableClose;
    }
  }

  /** The document around the prepared rows. */
  method WriteReceipt(t: Transaction, s: ThermalSettings, potPercentageSection: string, potKgSection: string,
                      adminSection: string, customerSection: string, notesSection: string)
    returns (html: string)
    requires potPercentageSection == SlotText(PotPercentageRow(t))
    requires potKgSection == SlotText(PotKgRow(t))
    requires adminSection == SlotText(AdminRow(t, s))
    requires customerSection == SlotText(CustomerRow(t, s))
    requires notesSection == (if PrintNotesShown(t, s) then NoteOpen + t.catatan + RowClose else "")
    ensures html == Markup(PrintBlocks(t, s))
  {
    MarkupSections(t, s);
    html := DocType;
    html := html + Head;
    html := WriteHeader(html, s);
    html := WriteDetails(html, t, potPercentageSection, potKgSection);
    html := WriteClosing(html, t, s, adminSection, customerSection);
    html := WriteNotes(html, t, s, notesSection);
    html := html + BodyClose;
    html := html + HtmlClose;
  }

  /** The markup of a plain (not bold) field row. */
  lemma FieldText(caption: string, v: Printed)
    ensures SlotText(Some(Field(caption, v, false))) == RowOpen + caption + CellSeparator + PrintedText(v) + RowClose
  {
  }

  /** `generateReceiptHTML`: the optional rows are prepared first, then the document is appended
      section by section (the style sheet lines as one piece, `Head`). */
  method GenerateReceiptHTML(t: Transaction, s: ThermalSettings) returns (html: string)
    ensures html == Markup(PrintBlocks(t, s))
  {
    var potPercentageSection := "";
    if t.pot_percentage > 0.0 {
      potPercentageSection := RowOpen + "Pot (%)" + CellSeparator + (JsString(t.pot_percentage) + "%") + RowClose;
      FieldText("Pot (%)", Percentage(t.pot_percentage));
    }
    assert potPercentageSection == SlotText(PotPercentageRow(t));
    var potKgSection := "";
    if t.pot_kg > 0.0 {
      potKgSection := RowOpen + "Pot (Kg)" + CellSeparator + (FormatWeight(t.pot_kg) + " Kg") + RowClose;
      FieldText("Pot (Kg)", Kilograms(t.pot_kg));
    }
    assert potKgSection == SlotText(PotKgRow(t));
    var adminSection := "";
    if s.show_admin {
      adminSection := RowOpen + "Admin" + CellSeparator + t.admin_name + RowClose;
      FieldText("Admin", Plain(t.admin_name));
    }
    assert adminSection == SlotText(AdminRow(t, s));
    var customerSection := "";
    if s.show_customer {
      customerSection := RowOpen + "Customer" + CellSeparator + t.customer_name + RowClose;
      FieldText("Customer", Plain(t.customer_name));
    }
    assert customerSection == SlotText(CustomerRow(t, s));
    var notesSection := "";
    if s.show_notes && t.catatan != "" {
      notesSection := NoteOpen + t.catatan + RowClose;
    }

    assert notesSection == (if PrintNotesShown(t, s) then NoteOpen + t.catatan + RowClose else "");
    html := WriteReceipt(t, s, potPercentageSection, potKgSection, adminSection, customerSection, notesSection);
  }

  /** The rows a table actually shows. */
  function Present(rows: seq<Option<Line<Printed>>>): (r: seq<Line<Printed>>)
    ensures |r| <= |rows|
  {
    if rows == [] then []
    else (if rows[0].Some? then [rows[0].value] else []) + Present(rows[1..])
  }

  lemma {:induction false} PresentAppend(a: seq<Option<Line<Printed>>>, b: seq<Option<Line<Printed>>>)
    ensures Present(a + b) == Present(a) + Present(b)
  {
    if a == [] {
      assert a + b == b;
    } else {
      assert (a + b)[0] == a[0];
      assert (a + b)[1..] == a[1..] + b;
      PresentAppend(a[1..], b);
    }
  }

  function BlockLines(b: Block): seq<Line<Printed>> {
    match b
    case Div(l) => [l]
    case Table(rows) => Present(rows)
  }

  /** The lines a sequence of blocks shows, top to bottom. */
  function Flatten(bs: seq<Block>): seq<Line<Printed>> {
    if bs == [] then [] else BlockLines(bs[0]) + Flatten(bs[1..])
  }

  lemma {:induction false} FlattenAppend(a: seq<Block>, b: seq<Block>)
    ensures Flatten(a + b) == Flatten(a) + Flatten(b)
  {
    if a == [] {
      assert a + b == b;
    } else {
      assert (a + b)[0] == a[0];
      assert (a + b)[1..] == a[1..] + b;
      FlattenAppend(a[1..], b);
    }
  }

  /** The lines of the printed receipt, part by part. */
  function PrintHeader(s: ThermalSettings): seq<Line<Printed>> {
    [Rule(true), Heading(s.company_name), Centered(s.company_address), Centered("HP: " + s.company_phone), Rule(true)]
  }

  function PrintDetails(t: Transaction): seq<Line<Printed>> {
    [Field("Tanggal", DayMonthYear(t.transaction_date), false),
     Field("Barang", Plain(t.jenis_barang), false),
     Field("Bruto", Kilograms(t.bruto_kg), false),
     Field("Tare", Kilograms(t.tare_kg), false),
     Field("Netto", Kilograms(t.netto_kg), false)]
  }

  function PrintDeductions(t: Transaction): seq<Line<Printed>> {
    When(t.pot_percentage > 0.0, Field("Pot (%)", Percentage(t.pot_percentage), false))
    + When(t.pot_kg > 0.0, Field("Pot (Kg)", Kilograms(t.pot_kg), false))
  }

  function PrintAmounts(t: Transaction): seq<Line<Printed>> {
    [Field("Total", Kilograms(t.total_kg), false),
     Field("Harga", Money(Finite(t.harga_per_kg)), false),
     Field("Jumlah", Money(Finite(t.total_harga)), true)]
  }

  /** A thin rule, then the admin line before the customer line, each shown whenever enabled. */
  function PrintParties(t: Transaction, s: ThermalSettings): seq<Line<Printed>> {
    [Rule(false)]
    + When(s.show_admin, Field("Admin", Plain(t.admin_name), false))
    + When(s.show_customer, Field("Customer", Plain(t.customer_name), false))
  }

  function PrintFooter(s: ThermalSettings): seq<Line<Printed>> {
    [Rule(false), Centered(s.footer_text)]
  }

  function PrintNotes(t: Transaction, s: ThermalSettings): seq<Line<Printed>> {
    When(PrintNotesShown(t, s), Note(t.catatan))
  }

  /** The lines the printed receipt shows, top to bottom: the note comes after the footer. */
  function PrintLines(t: Transaction, s: ThermalSettings): seq<Line<Printed>> {
    PrintHeader(s) + PrintDetails(t) + PrintDeductions(t) + PrintAmounts(t) + PrintParties(t, s)
    + PrintFooter(s) + PrintNotes(t, s)
  }

  lemma HeaderShows(s: ThermalSettings)
    ensures Flatten(HeaderBlocks(s)) == PrintHeader(s)
  {
    var bs := HeaderBlocks(s);
    assert Flatten(bs[4..]) == [Rule(true)];
    assert Flatten(bs[3..]) == [Centered("HP: " + s.company_phone), Rule(true)];
    assert Flatten(bs[2..]) == [Centered(s.company_address)] + Flatten(bs[3..]);
    assert Flatten(bs[1..]) == [Heading(s.company_name)] + Flatten(bs[2..]);
  }

  lemma DetailRowsShow(t: Transaction)
    ensures Present(DetailRows(t)) == PrintDetails(t)
  {
    var rows := DetailRows(t);
    assert Present(rows[4..]) == [Field("Netto", Kilograms(t.netto_kg), false)];
    assert Present(rows[3..]) == [Field("Tare", Kilograms(t.tare_kg), false)] + Present(rows[4..]);
    assert Present(rows[2..]) == [Field("Bruto", Kilograms(t.bruto_kg), false)] + Present(rows[3..]);
    assert Present(rows[1..]) == [Field("Barang", Plain(t.jenis_barang), false)] + Present(rows[2..]);
  }

  lemma AmountRowsShow(t: Transaction)
    ensures Present(AmountRows(t)) == PrintDeductions(t) + PrintAmounts(t)
  {
    var rows := AmountRows(t);
    assert Present(rows[4..]) == [Field("Jumlah", Money(Finite(t.total_harga)), true)];
    assert Present(rows[3..]) == [Field("Harga", Money(Finite(t.harga_per_kg)), false)] + Present(rows[4..]);
    assert Present(rows[2..]) == PrintAmounts(t);
    assert Present(rows[1..]) == When(t.pot_kg > 0.0, Field("Pot (Kg)", Kilograms(t.pot_kg), false)) + Present(rows[2..]);
  }

  lemma ClosingShows(t: Transaction, s: ThermalSettings)
    ensures Flatten(BodyBlocks(t, s)[1..]) == PrintParties(t, s) + PrintFooter(s)
  {
    var bs := BodyBlocks(t, s)[1..];
    assert bs == [Div(Rule(false)), Table(PartyRows(t, s)), Div(Rule(false)), Div(Centered(s.footer_text))];
    FlattenFour(bs[0], bs[1], bs[2], bs[3]);
    PresentTwo(AdminRow(t, s), CustomerRow(t, s));
    assert PrintFooter(s) == [Rule(false)] + [Centered(s.footer_text)];
  }

  lemma FlattenFour(a: Block, b: Block, c: Block, d: Block)
    ensures Flatten([a, b, c, d]) == BlockLines(a) + BlockLines(b) + BlockLines(c) + BlockLines(d)
  {
    assert [a, b, c, d] == [a, b, c] + [d];
    FlattenAppend([a, b, c], [d]);
    assert [a, b, c] == [a, b] + [c];
    FlattenAppend([a, b], [c]);
    assert [a, b] == [a] + [b];
    FlattenAppend([a], [b]);
    FlattenOne(a);
    FlattenOne(b);
    FlattenOne(c);
    FlattenOne(d);
  }

  lemma FlattenOne(b: Block)
    ensures Flatten([b]) == BlockLines(b)
  {
    assert [b][1..] == [];
  }

  lemma PresentTwo(x: Option<Line<Printed>>, y: Option<Line<Printed>>)
    ensures Present([x, y]) == (if x.Some? then [x.value] else []) + (if y.Some? then [y.value] else [])
  {
    assert [x, y][1..] == [y];
    assert [y][1..] == [];
  }

  lemma NotesShow(t: Transaction, s: ThermalSettings)
    ensures Flatten(NotesBlocks(t, s)) == PrintNotes(t, s)
  {
    if PrintNotesShown(t, s) {
      var rows: seq<Option<Line<Printed>>> := [Some(Note(t.catatan))];
      assert Present(rows[1..]) == [];
      assert NotesBlocks(t, s)[1..] == [];
    }
  }

  /** The blocks `generateReceiptHTML` writes show exactly the receipt lines, in order. */
  lemma BlocksShowLines(t: Transaction, s: ThermalSettings)
    ensures Flatten(PrintBlocks(t, s)) == PrintLines(t, s)
  {
    var h, b, n := HeaderBlocks(s), BodyBlocks(t, s), NotesBlocks(t, s);
    FlattenAppend(h + b, n);
    FlattenAppend(h, b);
    HeaderShows(s);
    NotesShow(t, s);
    BodyShows(t, s);
    Regroup(PrintHeader(s), PrintDetails(t), PrintDeductions(t), PrintAmounts(t), PrintParties(t, s),
            PrintFooter(s), PrintNotes(t, s));
  }

  lemma BodyShows(t: Transaction, s: ThermalSettings)
    ensures Flatten(BodyBlocks(t, s))
            == (PrintDetails(t) + (PrintDeductions(t) + PrintAmounts(t))) + (PrintParties(t, s) + PrintFooter(s))
  {
    var b := BodyBlocks(t, s);
    assert b == [b[0]] + b[1..];
    FlattenAppend([b[0]], b[1..]);
    ClosingShows(t, s);
    PresentAppend(DetailRows(t), AmountRows(t));
    DetailRowsShow(t);
    AmountRowsShow(t);
    assert Flatten([b[0]]) == Present(MainRows(t));
  }

  lemma Regroup<T>(h: seq<T>, d: seq<T>, p: seq<T>, a: seq<T>, q: seq<T>, f: seq<T>, n: seq<T>)
    ensures h + ((d + (p + a)) + (q + f)) + n == h + d + p + a + q + f + n
  {
  }

  /** Labels, notes and thin rules of the parts of the printed receipt. */
  lemma PrintFrameParts(s: ThermalSettings)
    ensures Labels(PrintHeader(s)) == [] && Notes(PrintHeader(s)) == [] && ThinRules(PrintHeader(s)) == 0
    ensures Labels(PrintFooter(s)) == [] && Notes(PrintFooter(s)) == [] && ThinRules(PrintFooter(s)) == 1
  {
    LabelsWithoutFields(PrintHeader(s));
    NotesWithoutNotes(PrintHeader(s));
    ThinRulesWithoutThin(PrintHeader(s));
    LabelsWithoutFields(PrintFooter(s));
    NotesWithoutNotes(PrintFooter(s));
    assert PrintFooter(s)[1..] == [Centered(s.footer_text)];
  }

  lemma PrintFieldParts(t: Transaction)
    ensures Labels(PrintDetails(t)) == ["Tanggal", "Barang", "Bruto", "Tare", "Netto"]
    ensures Labels(PrintAmounts(t)) == ["Total", "Harga", "Jumlah"]
    ensures Notes(PrintDetails(t)) == [] && Notes(PrintAmounts(t)) == []
    ensures ThinRules(PrintDetails(t)) == 0 && ThinRules(PrintAmounts(t)) == 0
  {
    LabelsOfFields(PrintDetails(t));
    LabelsOfFields(PrintAmounts(t));
    NotesWithoutNotes(PrintDetails(t));
    NotesWithoutNotes(PrintAmounts(t));
    ThinRulesWithoutThin(PrintDetails(t));
    ThinRulesWithoutThin(PrintAmounts(t));
  }

  lemma PrintDeductionParts(t: Transaction)
    ensures Labels(PrintDeductions(t)) == Template.OptionalLabel(t.pot_percentage > 0.0, "Pot (%)")
                                          + Template.OptionalLabel(t.pot_kg > 0.0, "Pot (Kg)")
    ensures Notes(PrintDeductions(t)) == [] && ThinRules(PrintDeductions(t)) == 0
  {
    LabelsAppend(When(t.pot_percentage > 0.0, Field("Pot (%)", Percentage(t.pot_percentage), false)),
                 When(t.pot_kg > 0.0, Field("Pot (Kg)", Kilograms(t.pot_kg), false)));
    NotesWithoutNotes(PrintDeductions(t));
    ThinRulesWithoutThin(PrintDeductions(t));
  }

  lemma PrintPartyParts(t: Transaction, s: ThermalSettings)
    ensures Labels(PrintParties(t, s)) == Template.OptionalLabel(s.show_admin, "Admin")
                                          + Template.OptionalLabel(s.show_customer, "Customer")
    ensures Notes(PrintParties(t, s)) == [] && ThinRules(PrintParties(t, s)) == 1
  {
    var admin := When(s.show_admin, Field("Admin", Plain(t.admin_name), false));
    var customer := When(s.show_customer, Field("Customer", Plain(t.customer_name), false));
    LabelsAppend([Rule(false)] + admin, customer);
    LabelsAppend([Rule(false)], admin);
    NotesWithoutNotes(PrintParties(t, s));
    ThinRulesAppend([Rule(false)], admin + customer);
    ThinRulesWithoutThin(admin + customer);
  }

  lemma PrintNotesPart(t: Transaction, s: ThermalSettings)
    ensures Labels(PrintNotes(t, s)) == [] && ThinRules(PrintNotes(t, s)) == 0
    ensures Notes(PrintNotes(t, s)) == (if PrintNotesShown(t, s) then [t.catatan] else [])
  {
  }

  lemma PrintLabelsByPart(t: Transaction, s: ThermalSettings)
    ensures Labels(PrintLines(t, s))
      == Labels(PrintDetails(t)) + Labels(PrintDeductions(t)) + Labels(PrintAmounts(t)) + Labels(PrintParties(t, s))
  {
    var h, d, p, a, q, f, n := PrintHeader(s), PrintDetails(t), PrintDeductions(t), PrintAmounts(t),
                               PrintParties(t, s), PrintFooter(s), PrintNotes(t, s);
    LabelsAppend7(h, d, p, a, q, f, n);
    PrintFrameParts(s);
    LabelsWithoutFields(n);
    Template.DropEmptyEnds(Labels(h), Labels(d), Labels(p), Labels(a), Labels(q), Labels(f), Labels(n));
  }

  /** The field lines in order: the fixed details with the two deduction rows only when positive,
      then the admin before the customer, each whenever its setting is on. */
  lemma PrintLabels(t: Transaction, s: ThermalSettings)
    ensures Labels(PrintLines(t, s))
      == ["Tanggal", "Barang", "Bruto", "Tare", "Netto"]
         + Template.OptionalLabel(t.pot_percentage > 0.0, "Pot (%)")
         + Template.OptionalLabel(t.pot_kg > 0.0, "Pot (Kg)")
         + ["Total", "Harga", "Jumlah"]
         + Template.OptionalLabel(s.show_admin, "Admin")
         + Template.OptionalLabel(s.show_customer, "Customer")
  {
    PrintLabelsByPart(t, s);
    PrintFieldParts(t);
    PrintDeductionParts(t);
    PrintPartyParts(t, s);
    PrintNotesPart(t, s);
    RegroupLabels(Labels(PrintDetails(t)), Template.OptionalLabel(t.pot_percentage > 0.0, "Pot (%)"),
                  Template.OptionalLabel(t.pot_kg > 0.0, "Pot (Kg)"), Labels(PrintAmounts(t)),
                  Template.OptionalLabel(s.show_admin, "Admin"), Template.OptionalLabel(s.show_customer, "Customer"));
  }

  lemma RegroupLabels<T>(d: seq<T>, p1: seq<T>, p2: seq<T>, a: seq<T>, q1: seq<T>, q2: seq<T>)
    ensures d + (p1 + p2) + a + (q1 + q2) == d + p1 + p2 + a + q1 + q2
  {
  }

  /** The admin row is printed exactly when the setting is on, even for an empty name. */
  lemma PrintAdminLineIff(t: Transaction, s: ThermalSettings)
    ensures HasField(PrintLines(t, s), "Admin") <==> s.show_admin
  {
    PrintLabels(t, s);
    HasFieldIffLabel(PrintLines(t, s), "Admin");
  }

  /** The customer row is printed exactly when the setting is on, even for an empty name. */
  lemma PrintCustomerLineIff(t: Transaction, s: ThermalSettings)
    ensures HasField(PrintLines(t, s), "Customer") <==> s.show_customer
  {
    PrintLabels(t, s);
    HasFieldIffLabel(PrintLines(t, s), "Customer");
  }

  /** The deduction rows are printed exactly when their amounts are positive. */
  lemma PrintDeductionLinesIff(t: Transaction, s: ThermalSettings)
    ensures HasField(PrintLines(t, s), "Pot (%)") <==> t.pot_percentage > 0.0
    ensures HasField(PrintLines(t, s), "Pot (Kg)") <==> t.pot_kg > 0.0
  {
    PrintLabels(t, s);
    HasFieldIffLabel(PrintLines(t, s), "Pot (%)");
    HasFieldIffLabel(PrintLines(t, s), "Pot (Kg)");
  }

  /** The note is printed, once and with the transaction's text, exactly when notes are on and
      the note is a non-empty string. */
  lemma PrintNoteIff(t: Transaction, s: ThermalSettings)
    ensures Notes(PrintLines(t, s)) == (if s.show_notes && t.catatan != "" then [t.catatan] else [])
  {
    NotesAppend7(PrintHeader(s), PrintDetails(t), PrintDeductions(t), PrintAmounts(t), PrintParties(t, s),
                 PrintFooter(s), PrintNotes(t, s));
    PrintFrameParts(s);
    PrintFieldParts(t);
    PrintDeductionParts(t);
    PrintPartyParts(t, s);
    PrintNotesPart(t, s);
  }

  /** Exactly two dashed separators are printed: under the amount due and under the parties. */
  lemma PrintThinRuleCount(t: Transaction, s: ThermalSettings)
    ensures ThinRules(PrintLines(t, s)) == 2
  {
    ThinRulesAppend7(PrintHeader(s), PrintDetails(t), PrintDeductions(t), PrintAmounts(t), PrintParties(t, s),
                     PrintFooter(s), PrintNotes(t, s));
    PrintFrameParts(s);
    PrintFieldParts(t);
    PrintDeductionParts(t);
    PrintPartyParts(t, s);
    PrintNotesPart(t, s);
  }

  /** The printed receipt opens with the company header; the footer text is the last line, or the
      line just above the note when the note is printed. */
  lemma PrintNotePlacement(t: Transaction, s: ThermalSettings)
    ensures var lines := PrintLines(t, s);
            |lines| >= 7 && lines[..5] == PrintHeader(s)
            && (PrintNotesShown(t, s) ==> lines[|lines| - 1] == Note(t.catatan)
                                          && lines[|lines| - 2] == Centered(s.footer_text))
            && (!PrintNotesShown(t, s) ==> lines[|lines| - 1] == Centered(s.footer_text))
  {
    var f, n := PrintFooter(s), PrintNotes(t, s);
    EndsOfSeven(PrintHeader(s), PrintDetails(t), PrintDeductions(t), PrintAmounts(t), PrintParties(t, s), f, n);
    var lines := PrintLines(t, s);
    assert lines[|lines| - |n| - 1] == f[1];
    if PrintNotesShown(t, s) {
      assert n == [Note(t.catatan)];
      assert lines[|lines| - 1] == n[0];
    } else {
      assert n == [];
    }
  }

  /** In seven parts laid end to end, the first part stays at the front and the last two at the end. */
  lemma EndsOfSeven<T>(h: seq<T>, d: seq<T>, p: seq<T>, a: seq<T>, q: seq<T>, f: seq<T>, n: seq<T>)
    ensures var all := h + d + p + a + q + f + n;
            |all| == |h| + |d| + |p| + |a| + |q| + |f| + |n|
            && all[..|h|] == h
            && (forall i :: 0 <= i < |f| ==> all[|all| - |n| - |f| + i] == f[i])
            && (forall i :: 0 <= i < |n| ==> all[|all| - |n| + i] == n[i])
  {
  }

  /** The printed document depends on neither the currency symbol, nor the decimal separator,
      nor the date pattern, nor the time setting. */
  lemma PrintIgnoresFormatSettings(t: Transaction, s: ThermalSettings, symbol: string, separator: string,
                                   format: string, showTime: bool)
    ensures var s' := s.(currency_symbol := symbol, thousand_separator := separator,
                         date_format := format, show_time := showTime);
            PrintBlocks(t, s') == PrintBlocks(t, s)
  {
  }

  /** A NaN amount prints as "Rp 0". */
  lemma MoneyNaN()
    ensures FormatMoney(NaN) == "Rp 0"
  {
    WholeIdLocaleHasNoComma(0, 3);
  }

  /** A whole amount prints exactly as the on-screen receipt shows it with the symbol "Rp", whatever
      the separator setting. */
  lemma WholeMoneyMatchesTemplate(n: nat, separator: string)
    ensures FormatMoney(Finite(n as real)) == "Rp " + Grouped(n, ".")
    ensures FormatMoney(Finite(n as real)) == Template.FormatCurrency(Finite(n as real), "Rp", separator)
  {
    WholeIdLocaleHasNoComma(n, 3);
    Template.WholeAmountIgnoresSeparator(n, "Rp", separator);
  }

  /** A whole weight prints with '.' grouping and no decimal comma. */
  lemma WholeWeight(n: nat)
    ensures PrintedText(Kilograms(n as real)) == Grouped(n, ".") + " Kg"
    ensures ',' !in FormatWeight(n as real)
  {
    WholeIdLocaleHasNoComma(n, 2);
  }

  /** The printed date agrees with the on-screen default pattern "DD/MM/YYYY" exactly when the day
      and the month have two digits; otherwise the printed one is shorter, as it is not padded. */
  lemma SimpleDateAgainstDefaultPattern(d: DateTime)
    requires d.day < 100 && d.month < 100
    ensures FormatSimpleDate(d) == Template.DatePart(d, "DD/MM/YYYY") <==> d.day >= 10 && d.month >= 10
  {
    Template.DefaultPattern(d);
    var dd, mm := Template.Pad2(d.day), Template.Pad2(d.month);
    TwoDigits(d.day);
    TwoDigits(d.month);
    var y := NatToString(d.year);
    if d.day >= 10 && d.month >= 10 {
      assert dd == NatToString(d.day) && mm == NatToString(d.month);
    } else {
      assert |FormatSimpleDate(d)| < |dd + "/" + mm + "/" + y|;
    }
  }

  /** A number below 100 is written with two digits exactly when it is at least 10, and
      padding it to two characters changes it exactly when it is below 10. */
  lemma TwoDigits(n: nat)
    requires n < 100
    ensures |NatToString(n)| == (if n < 10 then 1 else 2)
    ensures n >= 10 ==> Template.Pad2(n) == NatToString(n)
    ensures |Template.Pad2(n)| == 2
  {
    if n >= 10 {
      assert NatToString(n) == NatToString(n / 10) + [DigitChar(n % 10)];
    }
  }

  /** An enabled admin row with an empty name is printed but not shown on screen. */
  lemma EmptyAdminDrift(t: Transaction, s: ThermalSettings)
    requires s.show_admin && t.admin_name == ""
    ensures HasField(PrintLines(t, s), "Admin")
    ensures !HasField(Template.TemplateLines(t, s), "Admin")
  {
    PrintAdminLineIff(t, s);
    Template.AdminLineIff(t, s);
  }

  /** An enabled customer row with an empty name is printed but not shown on screen. */
  lemma EmptyCustomerDrift(t: Transaction, s: ThermalSettings)
    requires s.show_customer && t.customer_name == ""
    ensures HasField(PrintLines(t, s), "Customer")
    ensures !HasField(Template.TemplateLines(t, s), "Customer")
  {
    PrintCustomerLineIff(t, s);
    Template.CustomerLineIff(t, s);
  }

  /** A note made only of white space is printed but not shown on screen. */
  lemma BlankNoteDrift(t: Transaction, s: ThermalSettings)
    requires s.show_notes && t.catatan != "" && IsBlank(t.catatan)
    ensures Notes(PrintLines(t, s)) == [t.catatan]
    ensures Notes(Template.TemplateLines(t, s)) == []
  {
    PrintNoteIff(t, s);
    Template.NoteIff(t, s);
  }

  /** With both names shown, the printed receipt ends its fields with the admin then the customer,
      the on-screen receipt with the customer then the admin; the amount due is captioned
      "Jumlah" on paper and "Jumlah Uang" on screen. */
  lemma PartyOrderDrift(t: Transaction, s: ThermalSettings)
    requires s.show_admin && s.show_customer && t.admin_name != "" && t.customer_name != ""
    ensures var p := Labels(PrintLines(t, s));
            |p| >= 10 && p[|p| - 2..] == ["Admin", "Customer"] && p[|p| - 3] == "Jumlah"
    ensures var v := Labels(Template.TemplateLines(t, s));
            |v| >= 10 && v[|v| - 2..] == ["Customer", "Admin"] && v[|v| - 3] == "Jumlah Uang"
  {
    PrintLabels(t, s);
    LastThree(["Tanggal", "Barang", "Bruto", "Tare", "Netto"], Template.OptionalLabel(t.pot_percentage > 0.0, "Pot (%)"),
              Template.OptionalLabel(t.pot_kg > 0.0, "Pot (Kg)"), ["Total", "Harga", "Jumlah"], "Admin", "Customer");
    Template.TemplateLabels(t, s);
    LastThree(["Tanggal", "Barang", "Bruto", "Tare", "Netto"], Template.OptionalLabel(t.pot_percentage > 0.0, "Pot (%)"),
              Template.OptionalLabel(t.pot_kg > 0.0, "Pot (Kg)"), ["Total", "Harga", "Jumlah Uang"], "Customer", "Admin");
  }

  /** Five fixed entries, two optional parts and three fixed entries, then two more: the last two
      follow the third of the fixed three. */
  lemma LastThree<T>(d: seq<T>, p1: seq<T>, p2: seq<T>, a: seq<T>, x: T, y: T)
    requires |d| == 5 && |a| == 3
    ensures var all := d + p1 + p2 + a + [x] + [y];
            |all| >= 10 && all[|all| - 2..] == [x, y] && all[|all| - 3] == a[2]
  {
    var all := d + p1 + p2 + a + [x] + [y];
    assert all[|all| - 2..] == [x, y];
  }

  /** What a failed step throws: an `Error` with its message, or any other value. */
  datatype Thrown = ErrorValue(message: string) | OtherValue

  /** `error instanceof Error ? error.message : 'Unknown error'`. */
  function ErrorText(e: Thrown): string {
    match e
    case ErrorValue(m) => m
    case OtherValue => "Unknown error"
  }

  /** How a step that may throw ended. */
  datatype Attempt = Done | Threw(thrown: Thrown)

  /** The `{ success, message }` result of printing and of sharing. */
  datatype ServiceResult = ServiceResult(success: bool, message: string)

  const PrintSent := "Struk berhasil dikirim ke printer"
  const PrintUnavailable := "Pencetakan tidak tersedia di perangkat ini."
  const PrintFailedPrefix := "Gagal mencetak: "

  /** `printReceipt`, given how the platform print call ended: success, the unavailability
      message when the error text mentions it, and otherwise the error text after a fixed prefix. */
  function PrintResult(printCall: Attempt): (r: ServiceResult)
    ensures r.success <==> printCall.Done?
    ensures printCall.Done? ==> r.message == PrintSent
    ensures printCall.Threw? ==>
              if Contains(ErrorText(printCall.thrown), "print is not available") then r.message == PrintUnavailable
              else StartsWith(r.message, PrintFailedPrefix)
                   && r.message[|PrintFailedPrefix|..] == ErrorText(printCall.thrown)
  {
    match printCall
    case Done => ServiceResult(true, PrintSent)
    case Threw(e) =>
      var text := ErrorText(e);
      if Contains(text, "print is not available") then ServiceResult(false, PrintUnavailable)
      else
        var m := PrintFailedPrefix + text;
        assert m[..|PrintFailedPrefix|] == PrintFailedPrefix && m[|PrintFailedPrefix|..] == text;
        ServiceResult(false, m)
  }

  /** `printReceipt`: the document is generated, then handed to the printer. */
  method PrintReceipt(t: Transaction, s: ThermalSettings, printCall: Attempt)
    returns (html: string, r: ServiceResult)
    ensures html == Markup(PrintBlocks(t, s))
    ensures r == PrintResult(printCall)
  {
    html := GenerateReceiptHTML(t, s);
    r := PrintResult(printCall);
  }

  /** The message alone tells the three outcomes of printing apart, and a generic failure message
      gives back the error text. */
  lemma PrintMessagesDistinct(a: Attempt, b: Attempt)
    requires PrintResult(a).message == PrintResult(b).message
    ensures PrintResult(a).success == PrintResult(b).success
    ensures a.Threw? && b.Threw? && !Contains(ErrorText(a.thrown), "print is not available") ==>
              !Contains(ErrorText(b.thrown), "print is not available") && ErrorText(a.thrown) == ErrorText(b.thrown)
  {
    SentIsNotAFailure();
    if a.Threw? && b.Threw? && !Contains(ErrorText(a.thrown), "print is not available") {
      if Contains(ErrorText(b.thrown), "print is not available") {
        UnavailableIsNotAFailure(PrintResult(a).message);
        assert false;
      }
    }
  }

  lemma SentIsNotAFailure()
    ensures !StartsWith(PrintSent, PrintFailedPrefix) && PrintSent != PrintUnavailable
  {
    assert PrintSent[0] != PrintFailedPrefix[0];
    assert PrintSent[0] != PrintUnavailable[0];
  }

  lemma UnavailableIsNotAFailure(m: string)
    requires StartsWith(m, PrintFailedPrefix)
    ensures m != PrintUnavailable
  {
    assert m[0] == PrintFailedPrefix[0];
    assert PrintUnavailable[0] != PrintFailedPrefix[0];
  }

  /** The PDF generation races a 30-second timer. */
  const PdfTimeoutMs := 30000
  const TimeoutMessage := "PDF generation timeout"

  /** `Promise.race([pdfPromise, timeoutPromise])`: the file step's own result when it settles first,
      otherwise the timer's error. A step settling exactly at the deadline is taken to lose. */
  function RaceWithTimer(elapsedMs: nat, fileCall: Attempt): (r: Attempt)
    ensures elapsedMs < PdfTimeoutMs ==> r == fileCall
    ensures elapsedMs >= PdfTimeoutMs ==> r == Threw(ErrorValue(TimeoutMessage))
  {
    if elapsedMs < PdfTimeoutMs then fileCall else Threw(ErrorValue(TimeoutMessage))
  }

  /** What `Sharing.isAvailableAsync()` answered, or what it threw. */
  datatype Availability = Available | Unavailable | CheckThrew(thrown: Thrown)

  const PdfShared := "PDF berhasil dibuat dan dibagikan"
  const SharingUnavailable := "Sharing tidak tersedia pada perangkat ini"
  const PdfTimedOut := "Proses pembuatan PDF timeout. Silakan coba lagi."
  const PdfFailed := "Gagal membuat PDF. Silakan coba lagi."

  /** The `catch` of `generateAndSharePDF`: only an `Error` whose message is exactly the timer's
      gets the timeout message. */
  function PdfFailure(e: Thrown): (r: ServiceResult)
    ensures !r.success
    ensures r.message == PdfTimedOut <==> e == ErrorValue(TimeoutMessage)
    ensures r.message == PdfFailed <==> e != ErrorValue(TimeoutMessage)
  {
    if e == ErrorValue(TimeoutMessage) then ServiceResult(false, PdfTimedOut) else ServiceResult(false, PdfFailed)
  }

  /** `generateAndSharePDF`, given how its platform steps ended: the file step (after the race with
      the timer), the availability check and the share sheet. The file-size probe only logs and is
      left out. */
  function SharePdfResult(fileStep: Attempt, availability: Availability, shareCall: Attempt): (r: ServiceResult)
    ensures r.success <==> fileStep.Done? && availability.Available? && shareCall.Done?
    ensures r.message == SharingUnavailable <==> fileStep.Done? && availability.Unavailable?
  {
    if fileStep.Threw? then PdfFailure(fileStep.thrown)
    else if availability.CheckThrew? then PdfFailure(availability.thrown)
    else if availability.Unavailable? then ServiceResult(false, SharingUnavailable)
    else if shareCall.Threw? then PdfFailure(shareCall.thrown)
    else ServiceResult(true, PdfShared)
  }

  /** `generateAndSharePDF`: the document is generated and turned into a file, which is shared. */
  method GenerateAndSharePDF(t: Transaction, s: ThermalSettings, elapsedMs: nat, fileCall: Attempt,
                             availability: Availability, shareCall: Attempt)
    returns (html: string, r: ServiceResult)
    ensures html == Markup(PrintBlocks(t, s))
    ensures r == SharePdfResult(RaceWithTimer(elapsedMs, fileCall), availability, shareCall)
  {
    html := GenerateReceiptHTML(t, s);
    var fileStep := RaceWithTimer(elapsedMs, fileCall);
    r := SharePdfResult(fileStep, availability, shareCall);
  }

  /** A file step slower than the timer always ends with the timeout message, whatever follows. */
  lemma SlowPdfTimesOut(elapsedMs: nat, fileCall: Attempt, availability: Availability, shareCall: Attempt)
    requires elapsedMs >= PdfTimeoutMs
    ensures SharePdfResult(RaceWithTimer(elapsedMs, fileCall), availability, shareCall)
            == ServiceResult(false, PdfTimedOut)
  {
  }

  /** Every result of `generateAndSharePDF` carries one of its four messages, the success one
      exactly when it succeeded. */
  lemma PdfMessages(fileStep: Attempt, availability: Availability, shareCall: Attempt)
    ensures var r := SharePdfResult(fileStep, availability, shareCall);
            r.message in {PdfShared, SharingUnavailable, PdfTimedOut, PdfFailed}
            && (r.success <==> r.message == PdfShared)
  {
    assert |PdfShared| == 33 && |PdfTimedOut| == 48 && |PdfFailed| == 37 && |SharingUnavailable| == 41;
  }

  /** The data the preview dialog shows: the date and the two amounts as the on-screen receipt
      formats them. */
  datatype PreviewData = PreviewData(transaction: Transaction, settings: ThermalSettings,
                                     date: string, totalAmount: string, pricePerKg: string)

  /** `getReceiptPreviewData`: the date through `formatDate` and the two amounts through
      `formatCurrency`, with the receipt settings (written as the on-screen field texts, which are
      exactly those calls). */
  function GetReceiptPreviewData(t: Transaction, s: ThermalSettings): (p: PreviewData)
    ensures p.transaction == t && p.settings == s
    ensures StartsWith(p.totalAmount, s.currency_symbol + " ") && StartsWith(p.pricePerKg, s.currency_symbol + " ")
  {
    PreviewData(t, s, Template.ShownText(Template.Date(t.transaction_date, s.date_format, s.show_time)),
                Template.ShownText(Template.Currency(Finite(t.total_harga), s.currency_symbol, s.thousand_separator)),
                Template.ShownText(Template.Currency(Finite(t.harga_per_kg), s.currency_symbol, s.thousand_separator)))
  }

  /** The preview shows exactly what the on-screen receipt shows for the date, the amount due and
      the price per kilogram. */
  lemma PreviewMatchesTemplate(t: Transaction, s: ThermalSettings)
    ensures var p := GetReceiptPreviewData(t, s);
            var lines := Template.TemplateLines(t, s);
            FieldValue(lines, "Tanggal") == Some(Template.Date(t.transaction_date, s.date_format, s.show_time))
            && Template.ShownText(FieldValue(lines, "Tanggal").value) == p.date
            && FieldValue(lines, "Harga")
               == Some(Template.Currency(Finite(t.harga_per_kg), s.currency_symbol, s.thousand_separator))
            && Template.ShownText(FieldValue(lines, "Harga").value) == p.pricePerKg
            && FieldValue(lines, "Jumlah Uang")
               == Some(Template.Currency(Finite(t.total_harga), s.currency_symbol, s.thousand_separator))
            && Template.ShownText(FieldValue(lines, "Jumlah Uang").value) == p.totalAmount
  {
    TemplateDateField(t, s);
    TemplatePriceField(t, s);
    TemplateTotalField(t, s);
  }

  lemma TemplateDateField(t: Transaction, s: ThermalSettings)
    ensures FieldValue(Template.TemplateLines(t, s), "Tanggal")
            == Some(Template.Date(t.transaction_date, s.date_format, s.show_time))
  {
    HeaderHasNoField(s, "Tanggal");
    FoundInSecond(Template.Header(s), Template.Details(t, s), Template.Deductions(t), Template.Amounts(t, s),
                  Template.Identity(t, s), Template.NotesBlock(t, s), Template.Footer(s), "Tanggal");
  }

  lemma TemplatePriceField(t: Transaction, s: ThermalSettings)
    ensures FieldValue(Template.TemplateLines(t, s), "Harga")
            == Some(Template.Currency(Finite(t.harga_per_kg), s.currency_symbol, s.thousand_separator))
  {
    var a := Template.Amounts(t, s);
    HeaderHasNoField(s, "Harga");
    NotADetail(t, s, "Harga");
    NotADeduction(t, "Harga");
    assert FieldValue(a, "Harga") == FieldValue(a[1..], "Harga");
    FoundInFourth(Template.Header(s), Template.Details(t, s), Template.Deductions(t), a,
                  Template.Identity(t, s), Template.NotesBlock(t, s), Template.Footer(s), "Harga");
  }

  lemma TemplateTotalField(t: Transaction, s: ThermalSettings)
    ensures FieldValue(Template.TemplateLines(t, s), "Jumlah Uang")
            == Some(Template.Currency(Finite(t.total_harga), s.currency_symbol, s.thousand_separator))
  {
    var a := Template.Amounts(t, s);
    HeaderHasNoField(s, "Jumlah Uang");
    NotADetail(t, s, "Jumlah Uang");
    NotADeduction(t, "Jumlah Uang");
    assert FieldValue(a, "Jumlah Uang") == FieldValue(a[1..], "Jumlah Uang");
    assert FieldValue(a[1..], "Jumlah Uang") == FieldValue(a[2..], "Jumlah Uang");
    FoundInFourth(Template.Header(s), Template.Details(t, s), Template.Deductions(t), a,
                  Template.Identity(t, s), Template.NotesBlock(t, s), Template.Footer(s), "Jumlah Uang");
  }

  lemma HeaderHasNoField(s: ThermalSettings, c: string)
    ensures FieldValue(Template.Header(s), c) == None
  {
    Template.HeaderFooterParts(s);
    NoFieldNone(Template.Header(s), c);
  }

  lemma NotADetail(t: Transaction, s: ThermalSettings, c: string)
    requires c == "Harga" || c == "Jumlah Uang"
    ensures FieldValue(Template.Details(t, s), c) == None
  {
    Template.BodyParts(t, s);
    NoFieldNone(Template.Details(t, s), c);
  }

  lemma NotADeduction(t: Transaction, c: string)
    requires c == "Harga" || c == "Jumlah Uang"
    ensures FieldValue(Template.Deductions(t), c) == None
  {
    LabelsAppend(When(t.pot_percentage > 0.0, Field("Pot (%)", Template.Percent(t.pot_percentage), false)),
                 When(t.pot_kg > 0.0, Field("Pot (Kg)", Template.Weight(t.pot_kg), false)));
    NoFieldNone(Template.Deductions(t), c);
  }

  /** Looking a field up in a receipt made of seven parts when it is first found in the second part. */
  lemma FoundInSecond<V>(h: seq<Line<V>>, d: seq<Line<V>>, q: seq<Line<V>>, a: seq<Line<V>>,
                         i: seq<Line<V>>, n: seq<Line<V>>, f: seq<Line<V>>, c: string)
    requires FieldValue(h, c) == None && FieldValue(d, c).Some?
    ensures FieldValue(h + d + q + a + i + n + f, c) == FieldValue(d, c)
  {
    FieldValueAppend(h, d, c);
    FoundBefore(h + d, q, a, i, n, f, c);
  }

  /** Looking a field up in a receipt made of seven parts when it is first found in the fourth part. */
  lemma FoundInFourth<V>(h: seq<Line<V>>, d: seq<Line<V>>, q: seq<Line<V>>, a: seq<Line<V>>,
                         i: seq<Line<V>>, n: seq<Line<V>>, f: seq<Line<V>>, c: string)
    requires FieldValue(h, c) == None && FieldValue(d, c) == None && FieldValue(q, c) == None
    requires FieldValue(a, c).Some?
    ensures FieldValue(h + d + q + a + i + n + f, c) == FieldValue(a, c)
  {
    FieldValueAppend(h, d, c);
    FieldValueAppend(h + d, q, c);
    FieldValueAppend(h + d + q, a, c);
    FieldValueAppend(h + d + q + a, i, c);
    FieldValueAppend(h + d + q + a + i, n, c);
    FieldValueAppend(h + d + q + a + i + n, f, c);
  }

  /** A field found in `x` is found there whatever follows. */
  lemma FoundBefore<V>(x: seq<Line<V>>, q: seq<Line<V>>, a: seq<Line<V>>, i: seq<Line<V>>,
                       n: seq<Line<V>>, f: seq<Line<V>>, c: string)
    requires FieldValue(x, c).Some?
    ensures FieldValue(x + q + a + i + n + f, c) == FieldValue(x, c)
  {
    FieldValueAppend(x, q, c);
    FieldValueAppend(x + q, a, c);
    FieldValueAppend(x + q + a, i, c);
    FieldValueAppend(x + q + a + i, n, c);
    FieldValueAppend(x + q + a + i + n, f, c);
  }

  /** A caption that is not among the labels finds nothing. */
  lemma NoFieldNone<V>(lines: seq<Line<V>>, c: string)
    requires c !in Labels(lines)
    ensures FieldValue(lines, c) == None
  {
    HasFieldIffLabel(lines, c);
  }
}
