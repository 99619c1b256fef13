/** The weighing arithmetic of the transaction form (`calculateValues`): gross minus tare gives
    the net weight, a percentage deduction is taken from it, and the billed weight times the
    price per kilogram gives the amount due. */
module Calculation {
  import opened Strings
  import opened Numbers

  /** The raw text fields of the transaction form. `pot_kg` is present on the form but unused. */
  datatype FormData = FormData(
    bruto_kg: string,
    tare_kg: string,
    pot_percentage: string,
    pot_kg: string,
    harga_per_kg: string)

  datatype Calculated = Calculated(netto_kg: real, pot_kg: real, total_kg: real, total_harga: real)

  function Max0(x: real): (r: real)
    ensures r >= 0.0 && r >= x && (r == x || r == 0.0)
  {
    if x > 0.0 then x else 0.0
  }

  /** `parseFloat(field) || 0`: the number the text starts with, or 0 when it holds none. */
  function Field(s: string): (r: real)
    ensures ParseFloat(s).Finite? ==> r == ParseFloat(s).value
    ensures ParseFloat(s).NaN? ==> r == 0.0
  {
    OrZero(ParseFloat(s))
  }

  /** `x * pct / 100`: `pct` percent of `x`. */
  function Percent(x: real, pct: real): real {
    x * pct / 100.0
  }

  /** The amount for `kg` kilograms at `pricePerKg`. */
  function Charge(kg: real, pricePerKg: real): real {
    kg * pricePerKg
  }

  /** `calculateValues`: the deduction and the billed weight are taken from the net weight
      before it is clamped at zero; only the three reported totals are clamped. */
  function CalculateValues(f: FormData): (c: Calculated)
    ensures c.netto_kg == Max0(Field(f.bruto_kg) - Field(f.tare_kg))
    ensures c.pot_kg == Percent(Field(f.bruto_kg) - Field(f.tare_kg), Field(f.pot_percentage))
    ensures c.total_kg == Max0((Field(f.bruto_kg) - Field(f.tare_kg)) - c.pot_kg)
    ensures c.total_harga == Max0(Charge((Field(f.bruto_kg) - Field(f.tare_kg)) - c.pot_kg, Field(f.harga_per_kg)))
    ensures c.netto_kg >= 0.0 && c.total_kg >= 0.0 && c.total_harga >= 0.0
  {
    Compute(Field(f.bruto_kg), Field(f.tare_kg), Field(f.pot_percentage), Field(f.harga_per_kg))
  }

  /** The arithmetic of `calculateValues` once the four fields are read. */
  function Compute(bruto: real, tare: real, potPercentage: real, hargaPerKg: real): (c: Calculated)
    ensures c.netto_kg >= 0.0 && c.total_kg >= 0.0 && c.total_harga >= 0.0
    ensures c.netto_kg == Max0(bruto - tare)
    ensures c.pot_kg == Percent(bruto - tare, potPercentage)
    ensures c.total_kg == Max0((bruto - tare) - c.pot_kg)
    ensures c.total_harga == Max0(Charge((bruto - tare) - c.pot_kg, hargaPerKg))
  {
    var netto := bruto - tare;
    var potKg := Percent(netto, potPercentage);
    var total := netto - potKg;
    var totalHarga := Charge(total, hargaPerKg);
    Calculated(Max0(netto), potKg, Max0(total), Max0(totalHarga))
  }

  /** With tare above gross and a positive percentage the deduction is negative: it is taken
      from the unclamped net weight and is not clamped itself. */
  lemma NegativeDeduction(bruto: real, tare: real, pct: real, harga: real)
    requires tare > bruto && pct > 0.0
    ensures Compute(bruto, tare, pct, harga).pot_kg < 0.0
    ensures Compute(bruto, tare, pct, harga).netto_kg == 0.0
  {
    var m := (bruto - tare) * pct;
    NegTimesPos(bruto - tare, pct);
    assert m / 100.0 < 0.0;
    assert Compute(bruto, tare, pct, harga).pot_kg == m / 100.0;
  }

  lemma NegTimesPos(x: real, y: real)
    requires x < 0.0 && y > 0.0
    ensures x * y < 0.0
  {
  }

  /** Without a percentage there is no deduction and the billed weight is the net weight. */
  lemma ZeroPercentage(bruto: real, tare: real, harga: real)
    ensures Compute(bruto, tare, 0.0, harga).pot_kg == 0.0
    ensures Compute(bruto, tare, 0.0, harga).total_kg == Compute(bruto, tare, 0.0, harga).netto_kg
  {
  }

  /** Nothing is charged for a zero billed weight at a non-negative price. */
  lemma NothingBilledNothingCharged(bruto: real, tare: real, pct: real, harga: real)
    requires harga >= 0.0
    requires Compute(bruto, tare, pct, harga).total_kg == 0.0
    ensures Compute(bruto, tare, pct, harga).total_harga == 0.0
  {
    var netto := bruto - tare;
    var total := netto - netto * pct / 100.0;
    NonPosTimesNonNeg(total, harga);
  }

  lemma NonPosTimesNonNeg(x: real, y: real)
    requires x <= 0.0 && y >= 0.0
    ensures x * y <= 0.0
  {
  }

  /** A deduction of at most 100% never bills more than the net weight. */
  lemma BilledAtMostNet(bruto: real, tare: real, pct: real, harga: real)
    requires 0.0 <= pct <= 100.0
    ensures Compute(bruto, tare, pct, harga).total_kg <= Compute(bruto, tare, pct, harga).netto_kg
  {
    var netto := bruto - tare;
    if netto >= 0.0 {
      MulNonnegative(netto, pct);
    } else {
      NonPosTimesNonNeg(netto, 100.0 - pct);
      assert netto - netto * pct / 100.0 == netto * (100.0 - pct) / 100.0;
    }
  }

  /** The form's own `pot_kg` field has no influence on the result. */
  lemma FlatDeductionIgnored(f: FormData, potKg: string)
    ensures CalculateValues(f.(pot_kg := potKg)) == CalculateValues(f)
  {
  }

  /** Empty or unparseable fields count as zero, so an empty form computes all zeros. */
  lemma EmptyFormIsZero()
    ensures CalculateValues(FormData("", "", "", "", "")) == Calculated(0.0, 0.0, 0.0, 0.0)
  {
    ParseFloatWithoutDigits("");
  }

  /** A field holding text with no digit at all counts as zero. */
  lemma UnparseableFieldIsZero(s: string)
    requires forall i :: 0 <= i < |s| ==> !IsDigit(s[i])
    ensures Field(s) == 0.0
  {
    ParseFloatWithoutDigits(s);
  }

  /** Gross 1500, tare 1000, 3% and 1000 per kg give 500, 15, 485 and 485000. */
  lemma TestVector()
    ensures CalculateValues(FormData("1500", "1000", "3", "", "1000"))
            == Calculated(500.0, 15.0, 485.0, 485000.0)
  {
    TestFields();
    var c := Compute(1500.0, 1000.0, 3.0, 1000.0);
    assert c.pot_kg == 15.0;
  }

  lemma TestFields()
    ensures Field("1500") == 1500.0 && Field("1000") == 1000.0 && Field("3") == 3.0
  {
    FieldOfNat(1500);
    FieldOfNat(1000);
    FieldOfNat(3);
    Digits1500();
    assert NatToString(3) == "3";
  }

  lemma Digits1500()
    ensures NatToString(1500) == "1500" && NatToString(1000) == "1000"
  {
    assert NatToString(1) == "1";
    assert NatToString(15) == "15";
    assert NatToString(150) == "150";
    assert NatToString(10) == "10";
    assert NatToString(100) == "100";
  }

  lemma FieldOfNat(n: nat)
    ensures Field(NatToString(n)) == n as real
  {
    ParseFloatOfNatString(n);
  }
}
