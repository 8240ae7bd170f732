/**
 * The catalogue record of an item and the unit-of-measure helpers that the three
 * transaction forms share: the list of units an item may be entered in, and the
 * conversions between a chosen unit and the item's default unit.
 *
 * The forms hold these helpers as copies of one another; this module states them once.
 */
module Units {
  import opened Wrappers

  /**
   * An item of the catalogue. `stok` and `minStok` are amounts in the default unit.
   * One `satuanAlternatifN` stands for `konversiAlternatifN` default units; an empty
   * name means the alternate is absent, and a factor of zero means it is not convertible.
   */
  datatype Barang = Barang(
    id: string,
    kode: string,
    nama: string,
    satuanDefault: string,
    satuanAlternatif1: string,
    konversiAlternatif1: real,
    satuanAlternatif2: string,
    konversiAlternatif2: real,
    stok: real,
    minStok: real)

  /** The number of alternate units that have a non-empty name. */
  function AlternateCount(b: Barang): nat
  {
    (if b.satuanAlternatif1 != "" then 1 else 0) + (if b.satuanAlternatif2 != "" then 1 else 0)
  }

  /**
   * The units `b` may be entered in: the default unit, then each alternate whose name is
   * not empty, in slot order. Names are not de-duplicated, so the length depends only on
   * which slots are filled.
   */
  function LegalUnits(b: Barang): (r: seq<string>)
    ensures |r| == 1 + AlternateCount(b)
    ensures r[0] == b.satuanDefault
    ensures b.satuanAlternatif1 != "" ==> r[1] == b.satuanAlternatif1
    ensures b.satuanAlternatif2 != "" ==> r[|r| - 1] == b.satuanAlternatif2
    ensures forall u :: u in r <==>
      u == b.satuanDefault || (u != "" && (u == b.satuanAlternatif1 || u == b.satuanAlternatif2))
  {
    [b.satuanDefault]
      + (if b.satuanAlternatif1 != "" then [b.satuanAlternatif1] else [])
      + (if b.satuanAlternatif2 != "" then [b.satuanAlternatif2] else [])
  }

  /** Builds the unit list by pushing onto a list that starts with the default unit; no item gives no units. */
  method GetSatuanOptions(barang: Option<Barang>) returns (options: seq<string>)
    ensures barang.None? ==> options == []
    ensures barang.Some? ==> options == LegalUnits(barang.value)
  {
    if barang.None? {
      return [];
    }
    var b := barang.value;
    options := [b.satuanDefault];
    if b.satuanAlternatif1 != "" {
      options := options + [b.satuanAlternatif1];
    }
    if b.satuanAlternatif2 != "" {
      options := options + [b.satuanAlternatif2];
    }
  }

  /** A duplicate name is kept: an alternate named like the default unit appears twice. */
  lemma LegalUnitsKeepsDuplicates(b: Barang)
    requires b.satuanAlternatif1 == b.satuanDefault != ""
    ensures |LegalUnits(b)| >= 2 && LegalUnits(b)[0] == LegalUnits(b)[1] == b.satuanDefault
  {
  }

  /**
   * How many default units one `satuan` stands for, as the conversions apply it. The
   * default unit is matched first, then alternate 1, then alternate 2, each alternate only
   * when its factor is non-zero; any other name stands for one default unit.
   */
  function UnitFactor(satuan: string, b: Barang): (f: real)
    ensures f != 0.0
    ensures satuan == b.satuanDefault ==> f == 1.0
    ensures satuan != "" && satuan !in LegalUnits(b) ==> f == 1.0
    ensures satuan != b.satuanDefault && satuan == b.satuanAlternatif1 && b.konversiAlternatif1 != 0.0 ==>
      f == b.konversiAlternatif1
    ensures (&& satuan != b.satuanDefault
             && !(satuan == b.satuanAlternatif1 && b.konversiAlternatif1 != 0.0)
             && satuan == b.satuanAlternatif2 && b.konversiAlternatif2 != 0.0)
            ==> f == b.konversiAlternatif2
    ensures (&& satuan != b.satuanDefault
             && !(satuan == b.satuanAlternatif1 && b.konversiAlternatif1 != 0.0)
             && !(satuan == b.satuanAlternatif2 && b.konversiAlternatif2 != 0.0))
            ==> f == 1.0
  {
    if satuan == b.satuanDefault then 1.0
    else if satuan == b.satuanAlternatif1 && b.konversiAlternatif1 != 0.0 then b.konversiAlternatif1
    else if satuan == b.satuanAlternatif2 && b.konversiAlternatif2 != 0.0 then b.konversiAlternatif2
    else 1.0
  }

  /** Converts a stock held in the default unit into `selectedSatuan`, dividing by the matched factor. */
  function StokInUnit(stokDefault: real, selectedSatuan: string, b: Barang): (r: real)
    ensures r * UnitFactor(selectedSatuan, b) == stokDefault
  {
    if selectedSatuan == b.satuanDefault then stokDefault
    else if selectedSatuan == b.satuanAlternatif1 && b.konversiAlternatif1 != 0.0 then stokDefault / b.konversiAlternatif1
    else if selectedSatuan == b.satuanAlternatif2 && b.konversiAlternatif2 != 0.0 then stokDefault / b.konversiAlternatif2
    else stokDefault
  }

  /** Converts a quantity entered in `selectedSatuan` into the default unit, multiplying by the matched factor. */
  function QuantityDefault(qty: real, selectedSatuan: string, b: Barang): (r: real)
    ensures r == qty * UnitFactor(selectedSatuan, b)
  {
    if selectedSatuan == b.satuanDefault then qty
    else if selectedSatuan == b.satuanAlternatif1 && b.konversiAlternatif1 != 0.0 then qty * b.konversiAlternatif1
    else if selectedSatuan == b.satuanAlternatif2 && b.konversiAlternatif2 != 0.0 then qty * b.konversiAlternatif2
    else qty
  }

  /** Converting a default-unit amount into any unit and back gives the amount again. */
  lemma StokInUnitThenBack(x: real, satuan: string, b: Barang)
    ensures QuantityDefault(StokInUnit(x, satuan, b), satuan, b) == x
  {
  }

  /** Converting a quantity into the default unit and back gives the quantity again. */
  lemma QuantityDefaultThenBack(x: real, satuan: string, b: Barang)
    ensures StokInUnit(QuantityDefault(x, satuan, b), satuan, b) == x
  {
  }

  /** The default unit converts as itself, even when an alternate carries the same name. */
  lemma DefaultUnitIsIdentity(x: real, b: Barang)
    ensures QuantityDefault(x, b.satuanDefault, b) == x
    ensures StokInUnit(x, b.satuanDefault, b) == x
  {
  }

  /** A non-empty name that is not among the item's units passes through both conversions unchanged. */
  lemma UnlistedUnitPassesThrough(x: real, satuan: string, b: Barang)
    requires satuan != "" && satuan !in LegalUnits(b)
    ensures QuantityDefault(x, satuan, b) == x
    ensures StokInUnit(x, satuan, b) == x
  {
  }

  /** Alternate 1 with a zero factor is not convertible: the value passes through unchanged. */
  lemma ZeroFactorPassesThrough(x: real, b: Barang)
    requires b.satuanAlternatif1 != b.satuanDefault && b.konversiAlternatif1 == 0.0
    requires b.satuanAlternatif1 != b.satuanAlternatif2 || b.konversiAlternatif2 == 0.0
    ensures QuantityDefault(x, b.satuanAlternatif1, b) == x
    ensures StokInUnit(x, b.satuanAlternatif1, b) == x
  {
  }

  /** Alternate 2 with a zero factor is not convertible: the value passes through unchanged. */
  lemma SecondZeroFactorPassesThrough(x: real, b: Barang)
    requires b.satuanAlternatif2 != b.satuanDefault && b.konversiAlternatif2 == 0.0
    requires b.satuanAlternatif2 != b.satuanAlternatif1 || b.konversiAlternatif1 == 0.0
    ensures QuantityDefault(x, b.satuanAlternatif2, b) == x
    ensures StokInUnit(x, b.satuanAlternatif2, b) == x
  {
  }

  /** Alternate 2 with a non-zero factor is applied when neither the default unit nor a convertible alternate 1 matches. */
  lemma SecondAlternateApplied(x: real, b: Barang)
    requires b.satuanAlternatif2 != b.satuanDefault && b.konversiAlternatif2 != 0.0
    requires b.satuanAlternatif2 != b.satuanAlternatif1 || b.konversiAlternatif1 == 0.0
    ensures QuantityDefault(x, b.satuanAlternatif2, b) == x * b.konversiAlternatif2
    ensures StokInUnit(x, b.satuanAlternatif2, b) == x / b.konversiAlternatif2
  {
  }

  /** Alternate 1 is tried before alternate 2 when both carry the same name. */
  lemma FirstAlternateWins(x: real, b: Barang)
    requires b.satuanAlternatif1 != b.satuanDefault && b.konversiAlternatif1 != 0.0
    ensures QuantityDefault(x, b.satuanAlternatif1, b) == x * b.konversiAlternatif1
    ensures StokInUnit(x, b.satuanAlternatif1, b) == x / b.konversiAlternatif1
  {
  }
}
