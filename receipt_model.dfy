/** The records both receipt renderers read (a stored weighing transaction and the thermal
    printer settings) and the receipt line vocabulary they are described with. */
module ReceiptModel {
  import opened Strings

  /** A calendar date and wall-clock time, as `Date.getDate()`, `getMonth() + 1`,
      `getFullYear()`, `getHours()` and `getMinutes()` report them. */
  datatype DateTime = DateTime(year: nat, month: nat, day: nat, hour: nat, minute: nat)

  predicate ValidDateTime(d: DateTime) {
    1 <= d.month <= 12 && 1 <= d.day <= 31 && d.hour < 24 && d.minute < 60
  }

  /** A stored weighing transaction; amounts are exact reals, the date is already decomposed. */
  datatype Transaction = Transaction(
    id: int,
    user_id: int,
    transaction_date: DateTime,
    jenis_barang: string,
    bruto_kg: real,
    tare_kg: real,
    netto_kg: real,
    pot_percentage: real,
    pot_kg: real,
    harga_per_kg: real,
    total_kg: real,
    total_harga: real,
    admin_name: string,
    customer_name: string,
    alamat: string,
    phone: string,
    catatan: string,
    created_at: string,
    updated_at: string)

  /** The receipt settings the user edits. */
  datatype ThermalSettings = ThermalSettings(
    company_name: string,
    company_address: string,
    company_phone: string,
    footer_text: string,
    show_admin: bool,
    show_customer: bool,
    show_notes: bool,
    currency_symbol: string,
    thousand_separator: string,
    date_format: string,
    show_time: bool)

  /** One printed line of a receipt. A rule is a thick (`====`) or thin (dashed) separator;
      a field is a label and its value, bold for the amount due; a note is the free-text remark.
      Each renderer has its own kind of value `V`: what it formats and how. */
  datatype Line<V> =
    | Rule(thick: bool)
    | Heading(text: string)
    | Centered(text: string)
    | Field(caption: string, value: V, bold: bool)
    | Note(text: string)

  /** The labels of the fields of `lines`, in order. */
  function Labels<V>(lines: seq<Line<V>>): (r: seq<string>)
    ensures |r| <= |lines|
  {
    if lines == [] then []
    else (if lines[0].Field? then [lines[0].caption] else []) + Labels(lines[1..])
  }

  lemma {:induction false} LabelsAppend<V>(a: seq<Line<V>>, b: seq<Line<V>>)
    ensures Labels(a + b) == Labels(a) + Labels(b)
  {
    if a == [] {
      assert a + b == b;
    } else {
      assert (a + b)[0] == a[0];
      assert (a + b)[1..] == a[1..] + b;
      LabelsAppend(a[1..], b);
    }
  }

  /** The labels of lines that are all fields are their captions, one for one. */
  lemma {:induction false} LabelsOfFields<V>(lines: seq<Line<V>>)
    requires forall i :: 0 <= i < |lines| ==> lines[i].Field?
    ensures Labels(lines) == seq(|lines|, i requires 0 <= i < |lines| => lines[i].caption)
  {
    if lines != [] {
      LabelsOfFields(lines[1..]);
    }
  }

  lemma {:induction false} LabelsWithoutFields<V>(lines: seq<Line<V>>)
    requires forall i :: 0 <= i < |lines| ==> !lines[i].Field?
    ensures Labels(lines) == []
  {
    if lines != [] {
      LabelsWithoutFields(lines[1..]);
    }
  }

  /** Some field of `lines` carries `caption`. */
  predicate HasField<V>(lines: seq<Line<V>>, caption: string) {
    exists i :: 0 <= i < |lines| && lines[i].Field? && lines[i].caption == caption
  }

  /** A field label is present exactly when it is among the labels. */
  lemma {:induction false} HasFieldIffLabel<V>(lines: seq<Line<V>>, caption: string)
    ensures HasField(lines, caption) <==> caption in Labels(lines)
  {
    if lines != [] {
      HasFieldIffLabel(lines[1..], caption);
      if HasField(lines, caption) {
        var i :| 0 <= i < |lines| && lines[i].Field? && lines[i].caption == caption;
        if i > 0 {
          assert lines[1..][i - 1] == lines[i];
        }
      }
      if HasField(lines[1..], caption) {
        var j :| 0 <= j < |lines[1..]| && lines[1..][j].Field? && lines[1..][j].caption == caption;
        assert lines[j + 1] == lines[1..][j];
      }
    }
  }

  /** The value of the first field of `lines` captioned `caption`, if any. */
  function FieldValue<V>(lines: seq<Line<V>>, caption: string): (r: Option<V>)
    ensures r.Some? ==> HasField(lines, caption)
  {
    if lines == [] then None
    else if lines[0].Field? && lines[0].caption == caption then Some(lines[0].value)
    else
      var r := FieldValue(lines[1..], caption);
      assert r.Some? ==> HasField(lines, caption) by {
        if r.Some? {
          var i :| 0 <= i < |lines[1..]| && lines[1..][i].Field? && lines[1..][i].caption == caption;
          assert lines[i + 1] == lines[1..][i];
        }
      }
      r
  }

  /** Looking a field up in two parts: the first part wins. */
  lemma {:induction false} FieldValueAppend<V>(a: seq<Line<V>>, b: seq<Line<V>>, caption: string)
    ensures FieldValue(a + b, caption)
            == if FieldValue(a, caption).Some? then FieldValue(a, caption) else FieldValue(b, caption)
  {
    if a == [] {
      assert a + b == b;
    } else {
      assert (a + b)[0] == a[0];
      assert (a + b)[1..] == a[1..] + b;
      FieldValueAppend(a[1..], b, caption);
    }
  }

  /** The texts of the notes of `lines`, in order. */
  function Notes<V>(lines: seq<Line<V>>): (r: seq<string>)
    ensures |r| <= |lines|
  {
    if lines == [] then []
    else (if lines[0].Note? then [lines[0].text] else []) + Notes(lines[1..])
  }

  lemma {:induction false} NotesAppend<V>(a: seq<Line<V>>, b: seq<Line<V>>)
    ensures Notes(a + b) == Notes(a) + Notes(b)
  {
    if a == [] {
      assert a + b == b;
    } else {
      assert (a + b)[0] == a[0];
      assert (a + b)[1..] == a[1..] + b;
      NotesAppend(a[1..], b);
    }
  }

  lemma {:induction false} NotesWithoutNotes<V>(lines: seq<Line<V>>)
    requires forall i :: 0 <= i < |lines| ==> !lines[i].Note?
    ensures Notes(lines) == []
  {
    if lines != [] {
      NotesWithoutNotes(lines[1..]);
    }
  }

  /** How many thin rules `lines` holds. */
  function ThinRules<V>(lines: seq<Line<V>>): (r: nat)
    ensures r <= |lines|
  {
    if lines == [] then 0 else (if lines[0].Rule? && !lines[0].thick then 1 else 0) + ThinRules(lines[1..])
  }

  lemma {:induction false} ThinRulesAppend<V>(a: seq<Line<V>>, b: seq<Line<V>>)
    ensures ThinRules(a + b) == ThinRules(a) + ThinRules(b)
  {
    if a == [] {
      assert a + b == b;
    } else {
      assert (a + b)[0] == a[0];
      assert (a + b)[1..] == a[1..] + b;
      ThinRulesAppend(a[1..], b);
    }
  }

  lemma {:induction false} ThinRulesWithoutThin<V>(lines: seq<Line<V>>)
    requires forall i :: 0 <= i < |lines| ==> !(lines[i].Rule? && !lines[i].thick)
    ensures ThinRules(lines) == 0
  {
    if lines != [] {
      ThinRulesWithoutThin(lines[1..]);
    }
  }

  /** The projections of a receipt assembled from seven parts, part by part. */
  lemma LabelsAppend7<V>(a: seq<Line<V>>, b: seq<Line<V>>, c: seq<Line<V>>, d: seq<Line<V>>,
                         e: seq<Line<V>>, f: seq<Line<V>>, g: seq<Line<V>>)
    ensures Labels(a + b + c + d + e + f + g)
            == Labels(a) + Labels(b) + Labels(c) + Labels(d) + Labels(e) + Labels(f) + Labels(g)
  {
    LabelsAppend(a + b + c + d + e + f, g);
    LabelsAppend(a + b + c + d + e, f);
    LabelsAppend(a + b + c + d, e);
    LabelsAppend(a + b + c, d);
    LabelsAppend(a + b, c);
    LabelsAppend(a, b);
  }

  lemma NotesAppend7<V>(a: seq<Line<V>>, b: seq<Line<V>>, c: seq<Line<V>>, d: seq<Line<V>>,
                        e: seq<Line<V>>, f: seq<Line<V>>, g: seq<Line<V>>)
    ensures Notes(a + b + c + d + e + f + g)
            == Notes(a) + Notes(b) + Notes(c) + Notes(d) + Notes(e) + Notes(f) + Notes(g)
  {
    NotesAppend(a + b + c + d + e + f, g);
    NotesAppend(a + b + c + d + e, f);
    NotesAppend(a + b + c + d, e);
    NotesAppend(a + b + c, d);
    NotesAppend(a + b, c);
    NotesAppend(a, b);
  }

  lemma ThinRulesAppend7<V>(a: seq<Line<V>>, b: seq<Line<V>>, c: seq<Line<V>>, d: seq<Line<V>>,
                            e: seq<Line<V>>, f: seq<Line<V>>, g: seq<Line<V>>)
    ensures ThinRules(a + b + c + d + e + f + g)
            == ThinRules(a) + ThinRules(b) + ThinRules(c) + ThinRules(d) + ThinRules(e) + ThinRules(f) + ThinRules(g)
  {
    ThinRulesAppend(a + b + c + d + e + f, g);
    ThinRulesAppend(a + b + c + d + e, f);
    ThinRulesAppend(a + b + c + d, e);
    ThinRulesAppend(a + b + c, d);
    ThinRulesAppend(a + b, c);
    ThinRulesAppend(a, b);
  }

  /** `l` as a one-element sequence when `b` holds, else nothing (a JSX `cond && <Text/>`). */
  function When<V>(b: bool, l: Line<V>): (r: seq<Line<V>>)
    ensures b ==> r == [l]
    ensures !b ==> r == []
  {
    if b then [l] else []
  }
}
