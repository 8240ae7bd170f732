/**
 * The stock-count ("stock opname") form: the variance between a physical count and the
 * system figure in the unit the counter chose, the batch of counted lines, and the
 * conversion of that batch back to default units when it is submitted.
 *
 * The system figure the form compares against is the item's `minStok`, not its `stok`.
 */
module StockOpname {
  import opened Wrappers
  import opened Units
  import opened Batch

  /** One counted line; `stokSistem`, `stokFisik` and `selisih` are in the unit `satuan`. */
  datatype Line = Line(
    barangId: string,
    barangNama: string,
    barangKode: string,
    stokSistem: real,
    stokFisik: real,
    selisih: real,
    satuan: string,
    satuanOptions: seq<string>,
    keterangan: string)

  function LineId(l: Line): string { l.barangId }

  /** The system figure of `b` expressed in `selectedSatuan`; it is the minimum stock converted. */
  function StokSistemInUnit(b: Barang, selectedSatuan: string): (r: real)
    ensures r * UnitFactor(selectedSatuan, b) == b.minStok
  {
    StokInUnit(b.minStok, selectedSatuan, b)
  }

  /**
   * The variance shown while counting: the physical count minus the system figure, both
   * in the chosen unit. Positive means more was counted than the system holds.
   */
  function SelisihDisplay(stokFisik: real, selectedSatuan: string, b: Barang): (r: real)
    ensures r == stokFisik - StokSistemInUnit(b, selectedSatuan)
    ensures r > 0.0 <==> stokFisik > StokSistemInUnit(b, selectedSatuan)
    ensures r < 0.0 <==> stokFisik < StokSistemInUnit(b, selectedSatuan)
  {
    if selectedSatuan == b.satuanDefault then
      stokFisik - b.minStok
    else if selectedSatuan == b.satuanAlternatif1 && b.konversiAlternatif1 != 0.0 then
      var stokSistemInUnit := b.minStok / b.konversiAlternatif1;
      stokFisik - stokSistemInUnit
    else if selectedSatuan == b.satuanAlternatif2 && b.konversiAlternatif2 != 0.0 then
      var stokSistemInUnit := b.minStok / b.konversiAlternatif2;
      stokFisik - stokSistemInUnit
    else
      stokFisik - b.minStok
  }

  /** A variance needs correction when it is more than 0.01 away from zero, in the unit it is shown in. */
  predicate NeedsCorrection(selisih: real): (r: bool)
    ensures r <==> selisih > 0.01 || selisih < -0.01
  {
    (if selisih < 0.0 then -selisih else selisih) > 0.01
  }

  /** The flag holds exactly when count and system figure differ by more than 0.01 in the chosen unit. */
  lemma NeedsCorrectionIff(stokFisik: real, satuan: string, b: Barang)
    ensures NeedsCorrection(SelisihDisplay(stokFisik, satuan, b)) <==>
      stokFisik - StokSistemInUnit(b, satuan) > 0.01 || StokSistemInUnit(b, satuan) - stokFisik > 0.01
  {
  }

  /** The variance does not depend on the on-hand stock `stok`: only `minStok` is compared against. */
  lemma VarianceIgnoresOnHandStock(stokFisik: real, satuan: string, b: Barang, stok: real)
    ensures SelisihDisplay(stokFisik, satuan, b) == SelisihDisplay(stokFisik, satuan, b.(stok := stok))
  {
  }

  /**
   * The threshold is not rescaled with the unit: with a carton of 1000 boxes and a system
   * figure of 1000 boxes, a shortfall of 5 boxes is flagged when counted in boxes but not
   * when the same count is entered as 0.995 cartons.
   */
  lemma ThresholdInChosenUnit()
    ensures var b := Barang("B1", "K1", "Kertas", "box", "karton", 1000.0, "", 0.0, 0.0, 1000.0);
      && SelisihDisplay(995.0, "box", b) == -5.0
      && NeedsCorrection(SelisihDisplay(995.0, "box", b))
      && SelisihDisplay(0.995, "karton", b) == -0.005
      && !NeedsCorrection(SelisihDisplay(0.995, "karton", b))
  {
  }

  /** The scenario of a count of 97 against a system figure of 100, in the default unit: variance -3, flagged. */
  lemma ShortfallOfThree(b: Barang)
    requires b.minStok == 100.0
    ensures SelisihDisplay(97.0, b.satuanDefault, b) == -3.0
    ensures NeedsCorrection(SelisihDisplay(97.0, b.satuanDefault, b))
  {
  }

  /** The first item of `barangList` whose id is `id`, if any. */
  function FindBarang(barangList: seq<Barang>, id: string): (r: Option<Barang>)
    ensures r.None? <==> forall k :: 0 <= k < |barangList| ==> barangList[k].id != id
    ensures r.Some? ==> exists k :: 0 <= k < |barangList| && barangList[k] == r.value && r.value.id == id &&
                                    forall j :: 0 <= j < k ==> barangList[j].id != id
  {
    if barangList == [] then None
    else if barangList[0].id == id then Some(barangList[0])
    else
      var r := FindBarang(barangList[1..], id);
      assert forall k :: 1 <= k < |barangList| ==> barangList[k] == barangList[1..][k - 1];
      r
  }

  /** A line as submitted: converted to the default unit, or passed on as entered when its item is not in the catalogue. */
  datatype SubmitLine =
    | Normalized(barangId: string, stokFisik: real, satuan: string, keterangan: string)
    | AsEntered(line: Line)

  /**
   * The conversion of one counted line at submission. Alternate 1, then alternate 2, is
   * tried by name and non-zero factor; the default unit is not tried first.
   */
  function NormalizeLine(item: Line, barangList: seq<Barang>): (r: SubmitLine)
    ensures FindBarang(barangList, item.barangId).None? ==> r == AsEntered(item)
    ensures FindBarang(barangList, item.barangId).Some? ==>
      var b := FindBarang(barangList, item.barangId).value;
      && r.Normalized?
      && r.barangId == item.barangId && r.satuan == b.satuanDefault && r.keterangan == item.keterangan
      && (item.satuan != b.satuanDefault ==> r.stokFisik == QuantityDefault(item.stokFisik, item.satuan, b))
  {
    var found := FindBarang(barangList, item.barangId);
    if found.None? then AsEntered(item)
    else
      var barang := found.value;
      var stokFisikDefault :=
        if item.satuan == barang.satuanAlternatif1 && barang.konversiAlternatif1 != 0.0 then
          item.stokFisik * barang.konversiAlternatif1
        else if item.satuan == barang.satuanAlternatif2 && barang.konversiAlternatif2 != 0.0 then
          item.stokFisik * barang.konversiAlternatif2
        else
          item.stokFisik;
      Normalized(item.barangId, stokFisikDefault, barang.satuanDefault, item.keterangan)
  }

  /** A count entered in the default unit is submitted unchanged, unless that name also names a convertible alternate. */
  lemma DefaultUnitSubmittedUnchanged(item: Line, barangList: seq<Barang>)
    requires FindBarang(barangList, item.barangId).Some?
    requires var b := FindBarang(barangList, item.barangId).value;
      && item.satuan == b.satuanDefault
      && !(item.satuan == b.satuanAlternatif1 && b.konversiAlternatif1 != 0.0)
      && !(item.satuan == b.satuanAlternatif2 && b.konversiAlternatif2 != 0.0)
    ensures NormalizeLine(item, barangList).stokFisik == item.stokFisik
  {
  }

  /**
   * Because the default unit is not tried first, an alternate named like the default unit
   * is applied at submission although the count was shown and entered as default units.
   */
  lemma SubmissionSkipsDefaultCheck()
    ensures var b := Barang("B1", "K1", "Baut", "pcs", "pcs", 12.0, "", 0.0, 0.0, 0.0);
      var item := Line("B1", "Baut", "K1", 0.0, 2.0, 2.0, "pcs", ["pcs", "pcs"], "");
      && StokInUnit(2.0, "pcs", b) == 2.0
      && QuantityDefault(2.0, "pcs", b) == 2.0
      && NormalizeLine(item, [b]).stokFisik == 24.0
  {
  }

  /** The submitted batch: each line normalised, in the same order. */
  function NormalizeBatch(items: seq<Line>, barangList: seq<Barang>): (r: seq<SubmitLine>)
    ensures |r| == |items|
    ensures forall k :: 0 <= k < |items| ==> r[k] == NormalizeLine(items[k], barangList)
  {
    if items == [] then []
    else [NormalizeLine(items[0], barangList)] + NormalizeBatch(items[1..], barangList)
  }

  /** A parsed count passes the check: it is a number and not negative (zero is allowed). */
  predicate IsCount(qty: Option<real>)
  {
    qty.Some? && qty.value >= 0.0
  }

  /**
   * The checks of "add item", in order; the first that fails decides the error. The
   * variance is computed but never refuses a line.
   */
  function CheckAdd(selected: Option<Barang>, qty: Option<real>, satuan: string, items: seq<Line>): (r: Option<AddError>)
    ensures r.None? <==> selected.Some? && IsCount(qty) && satuan != "" && !HasKey(items, LineId, selected.value.id)
    ensures r == Some(NoItemSelected) <==> selected.None?
    ensures r == Some(InvalidQuantity) <==> selected.Some? && !IsCount(qty)
    ensures r == Some(NoUnitSelected) <==> selected.Some? && IsCount(qty) && satuan == ""
    ensures r == Some(AlreadyInList) <==>
      selected.Some? && IsCount(qty) && satuan != "" && HasKey(items, LineId, selected.value.id)
    ensures r.Some? ==> !r.value.InsufficientStock?
  {
    if selected.None? then Some(NoItemSelected)
    else if !IsCount(qty) then Some(InvalidQuantity)
    else if satuan == "" then Some(NoUnitSelected)
    else if HasKey(items, LineId, selected.value.id) then Some(AlreadyInList)
    else None
  }

  /** The check does not look at either stock figure, so any variance is accepted. */
  lemma CheckIgnoresStock(b: Barang, qty: Option<real>, satuan: string, items: seq<Line>, stok: real, minStok: real)
    ensures CheckAdd(Some(b), qty, satuan, items) == CheckAdd(Some(b.(stok := stok, minStok := minStok)), qty, satuan, items)
  {
  }

  /** The line "add item" appends: system figure and variance in the chosen unit. */
  function NewLine(b: Barang, stokFisik: real, satuan: string, keterangan: string): (l: Line)
    ensures l.barangId == b.id && l.barangNama == b.nama && l.barangKode == b.kode
    ensures l.stokFisik == stokFisik && l.satuan == satuan && l.keterangan == keterangan
    ensures l.stokSistem == StokSistemInUnit(b, satuan) && l.selisih == l.stokFisik - l.stokSistem
    ensures l.satuanOptions == LegalUnits(b)
  {
    Line(b.id, b.nama, b.kode, StokSistemInUnit(b, satuan), stokFisik, SelisihDisplay(stokFisik, satuan, b),
         satuan, LegalUnits(b), keterangan)
  }

  /** Lines that passed "add item": a count of at least zero, a unit, a consistent variance, one line per item. */
  ghost predicate ValidBatch(items: seq<Line>)
  {
    && DistinctKeys(items, LineId)
    && forall k :: 0 <= k < |items| ==>
         items[k].stokFisik >= 0.0 && items[k].satuan != "" && items[k].selisih == items[k].stokFisik - items[k].stokSistem
  }

  /** Accepting a line keeps the batch valid. */
  lemma AcceptedLineKeepsBatchValid(items: seq<Line>, selected: Option<Barang>, qty: Option<real>,
                                    satuan: string, keterangan: string)
    requires ValidBatch(items)
    requires CheckAdd(selected, qty, satuan, items) == None
    ensures ValidBatch(items + [NewLine(selected.value, qty.value, satuan, keterangan)])
  {
  }

  /** Removing a line keeps the batch valid. */
  lemma RemovalKeepsBatchValid(items: seq<Line>, index: int)
    requires ValidBatch(items)
    ensures ValidBatch(RemoveAt(items, index))
  {
  }

  /** The state of the stock-count form: the catalogue, the batch and the fields of the add-item row. */
  class OpnameForm {
    /** The browser's number parser; `None` stands for NaN. */
    const parseFloat: string -> Option<real>
    var barangList: seq<Barang>
    var items: seq<Line>
    var barangSearch: string
    var selectedBarang: Option<Barang>
    var stokFisik: string
    var satuan: string
    var itemKeterangan: string

    ghost predicate Valid()
      reads this
    {
      ValidBatch(items)
    }

    constructor (parseFloat: string -> Option<real>)
      ensures Valid() && this.parseFloat == parseFloat
      ensures barangList == [] && items == [] && barangSearch == "" && selectedBarang == None
      ensures stokFisik == "" && satuan == "" && itemKeterangan == ""
    {
      this.parseFloat := parseFloat;
      barangList := [];
      items := [];
      barangSearch := "";
      selectedBarang := None;
      stokFisik := "";
      satuan := "";
      itemKeterangan := "";
    }

    /** Storing the catalogue returned by the remote lookup. */
    method LoadBarangList(list: seq<Barang>)
      requires Valid()
      modifies this`barangList
      ensures Valid() && barangList == list
    {
      barangList := list;
    }

    /** Picking an item from the list: the unit becomes its default unit. */
    method SelectBarang(b: Barang)
      requires Valid()
      modifies this
      ensures Valid()
      ensures selectedBarang == Some(b) && barangSearch == b.nama && satuan == b.satuanDefault
      ensures barangList == old(barangList) && items == old(items)
      ensures stokFisik == old(stokFisik) && itemKeterangan == old(itemKeterangan)
    {
      selectedBarang := Some(b);
      barangSearch := b.nama;
      satuan := b.satuanDefault;
    }

    /** Typing into the physical-count field. */
    method SetStokFisik(text: string)
      requires Valid()
      modifies this`stokFisik
      ensures Valid() && stokFisik == text
    {
      stokFisik := text;
    }

    /** Choosing a unit in the unit selector. */
    method SetSatuan(unit: string)
      requires Valid()
      modifies this`satuan
      ensures Valid() && satuan == unit
    {
      satuan := unit;
    }

    /** Typing into the line's note field. */
    method SetItemKeterangan(text: string)
      requires Valid()
      modifies this`itemKeterangan
      ensures Valid() && itemKeterangan == text
    {
      itemKeterangan := text;
    }

    /** The system figure shown beside the count: in the chosen unit once an item and a unit are chosen, otherwise 0. */
    function StokSistemDisplay(): (r: real)
      reads this
      ensures selectedBarang.Some? && satuan != "" ==> r * UnitFactor(satuan, selectedBarang.value) == selectedBarang.value.minStok
      ensures !(selectedBarang.Some? && satuan != "") ==> r == 0.0
    {
      if selectedBarang.Some? && satuan != "" then StokSistemInUnit(selectedBarang.value, satuan) else 0.0
    }

    /**
     * Whether the form highlights a variance: an item, a unit and a count must be entered,
     * the count must be a number, and the variance must need correction.
     */
    function HasSelisihDisplay(): (r: bool)
      reads this
      ensures r <==>
        && selectedBarang.Some? && satuan != "" && stokFisik != "" && parseFloat(stokFisik).Some?
        && (parseFloat(stokFisik).value - StokSistemInUnit(selectedBarang.value, satuan) > 0.01 ||
            StokSistemInUnit(selectedBarang.value, satuan) - parseFloat(stokFisik).value > 0.01)
    {
      if selectedBarang.Some? && satuan != "" && stokFisik != "" then
        var counted := parseFloat(stokFisik);
        counted.Some? && NeedsCorrection(SelisihDisplay(counted.value, satuan, selectedBarang.value))
      else
        NeedsCorrection(0.0)
    }

    /**
     * "Add item": runs the checks in order and stops at the first failure, changing
     * nothing; on success appends one line with the system figure and variance in the
     * chosen unit, and clears the add-item row.
     */
    method AddItem() returns (error: Option<AddError>)
      requires Valid()
      modifies this
      ensures Valid()
      ensures error == CheckAdd(old(selectedBarang), parseFloat(old(stokFisik)), old(satuan), old(items))
      ensures error.Some? ==> unchanged(this)
      ensures error.None? ==>
        && items == old(items) + [NewLine(old(selectedBarang).value, parseFloat(old(stokFisik)).value, old(satuan), old(itemKeterangan))]
        && selectedBarang == None && barangSearch == "" && stokFisik == "" && satuan == "" && itemKeterangan == ""
        && barangList == old(barangList)
    {
      if selectedBarang.None? {
        return Some(NoItemSelected);
      }
      var b := selectedBarang.value;

      var stokFisikNum := parseFloat(stokFisik);
      if stokFisikNum.None? || stokFisikNum.value < 0.0 {
        return Some(InvalidQuantity);
      }

      if satuan == "" {
        return Some(NoUnitSelected);
      }

      var stokSistemInUnit := StokSistemInUnit(b, satuan);
      var selisihDisplay := SelisihDisplay(stokFisikNum.value, satuan, b);

      var existingIndex := FindIndex(items, LineId, b.id);
      if existingIndex >= 0 {
        return Some(AlreadyInList);
      }

      var options := GetSatuanOptions(selectedBarang);
      var newItem := Line(b.id, b.nama, b.kode, stokSistemInUnit, stokFisikNum.value, selisihDisplay,
                          satuan, options, itemKeterangan);
      AcceptedLineKeepsBatchValid(items, selectedBarang, stokFisikNum, satuan, itemKeterangan);
      items := items + [newItem];

      selectedBarang := None;
      barangSearch := "";
      stokFisik := "";
      satuan := "";
      itemKeterangan := "";
      error := None;
    }

    /** "Remove" on line `index`: deletes that position only; nothing else changes. */
    method RemoveItem(index: int)
      requires Valid()
      modifies this`items
      ensures Valid()
      ensures items == RemoveAt(old(items), index)
    {
      RemovalKeepsBatchValid(items, index);
      items := FilterOutIndex(items, index);
    }

    /** "Submit": an empty batch is refused; otherwise every line is sent converted to its item's default unit. */
    method HandleSubmit() returns (r: Submission<seq<SubmitLine>>)
      ensures r.RejectedEmpty? <==> items == []
      ensures r.Send? ==> |r.payload| == |items|
      ensures r.Send? ==> forall k :: 0 <= k < |items| ==> r.payload[k] == NormalizeLine(items[k], barangList)
    {
      if |items| == 0 {
        return RejectedEmpty;
      }
      var itemsDefault := NormalizeBatch(items, barangList);
      return Send(itemsDefault);
    }
  }
}
