/**
 * The outbound ("barang keluar") form: the stock check of a quantity entered in any
 * unit, and the batch of lines that is built one "add item" at a time.
 */
module BarangKeluar {
  import opened Wrappers
  import opened Units
  import opened Batch

  /** One line of an outbound batch; `quantity` and `satuan` are as entered. */
  datatype Line = Line(
    barangId: string,
    barangNama: string,
    barangKode: string,
    quantity: real,
    satuan: string,
    satuanOptions: seq<string>,
    stokTersedia: real,
    stokTersediaDefault: real)

  function LineId(l: Line): string { l.barangId }

  /**
   * The stock check: with an item selected, the quantity converted to the default unit
   * must not exceed the item's stock; exact depletion passes. Without an item it fails.
   */
  function ValidateQuantity(qty: real, satuan: string, selected: Option<Barang>): (ok: bool)
    ensures ok <==> selected.Some? && qty * UnitFactor(satuan, selected.value) <= selected.value.stok
  {
    if selected.None? then false
    else QuantityDefault(qty, satuan, selected.value) <= selected.value.stok
  }

  /** Taking exactly the whole stock, in whatever unit, passes the stock check. */
  lemma ExactDepletionPasses(b: Barang, satuan: string)
    ensures ValidateQuantity(StokInUnit(b.stok, satuan, b), satuan, Some(b))
  {
  }

  /**
   * The checks of "add item", in order; the first that fails decides the error, and
   * `None` means the line is accepted.
   */
  function CheckAdd(selected: Option<Barang>, qty: Option<real>, satuan: string,
                    stokTersedia: real, items: seq<Line>): (r: Option<AddError>)
    ensures r.None? <==>
      && selected.Some?
      && IsPositiveQuantity(qty)
      && satuan != ""
      && QuantityDefault(qty.value, satuan, selected.value) <= selected.value.stok
      && !HasKey(items, LineId, selected.value.id)
    ensures r == Some(NoItemSelected) <==> selected.None?
    ensures r == Some(InvalidQuantity) <==> selected.Some? && !IsPositiveQuantity(qty)
    ensures r == Some(NoUnitSelected) <==> selected.Some? && IsPositiveQuantity(qty) && satuan == ""
    ensures (r.Some? && r.value.InsufficientStock?) <==>
      selected.Some? && IsPositiveQuantity(qty) && satuan != "" && !ValidateQuantity(qty.value, satuan, selected)
    ensures r.Some? && r.value.InsufficientStock? ==> r.value == InsufficientStock(stokTersedia, satuan)
    ensures r == Some(AlreadyInList) <==>
      && selected.Some? && IsPositiveQuantity(qty) && satuan != ""
      && ValidateQuantity(qty.value, satuan, selected)
      && HasKey(items, LineId, selected.value.id)
  {
    if selected.None? then Some(NoItemSelected)
    else if !IsPositiveQuantity(qty) then Some(InvalidQuantity)
    else if satuan == "" then Some(NoUnitSelected)
    else if !ValidateQuantity(qty.value, satuan, selected) then Some(InsufficientStock(stokTersedia, satuan))
    else if HasKey(items, LineId, selected.value.id) then Some(AlreadyInList)
    else None
  }

  /** A unit that is not among the item's units is not refused; it is checked as a default-unit amount. */
  lemma UnlistedUnitAccepted(b: Barang, q: real, satuan: string, stokTersedia: real, items: seq<Line>)
    requires satuan != "" && satuan !in LegalUnits(b)
    requires 0.0 < q <= b.stok && !HasKey(items, LineId, b.id)
    ensures CheckAdd(Some(b), Some(q), satuan, stokTersedia, items) == None
  {
  }

  /**
   * An item counted in pieces with a box of 12 as alternate, 60 pieces in stock: five
   * boxes take exactly the whole stock and pass, six do not, and the refusal quotes the
   * shown stock (the default-unit figure 60) next to the chosen unit "box".
   */
  lemma BoxesAgainstPieces(items: seq<Line>)
    requires !HasKey(items, LineId, "B1")
    ensures var b := Barang("B1", "K1", "Baut", "pcs", "box", 12.0, "", 0.0, 60.0, 0.0);
      && CheckAdd(Some(b), Some(5.0), "box", b.stok, items) == None
      && CheckAdd(Some(b), Some(6.0), "box", b.stok, items) == Some(InsufficientStock(60.0, "box"))
  {
  }

  /** The line "add item" appends: the quantity and unit as entered, and the item's stock. */
  function NewLine(b: Barang, qty: real, satuan: string, stokTersedia: real): (l: Line)
    ensures l.barangId == b.id && l.barangNama == b.nama && l.barangKode == b.kode
    ensures l.quantity == qty && l.satuan == satuan
    ensures l.satuanOptions == LegalUnits(b) && l.stokTersedia == stokTersedia && l.stokTersediaDefault == b.stok
  {
    Line(b.id, b.nama, b.kode, qty, satuan, LegalUnits(b), stokTersedia, b.stok)
  }

  /** Lines that passed "add item": positive quantity, a unit, and at most one line per item. */
  ghost predicate ValidBatch(items: seq<Line>)
  {
    && DistinctKeys(items, LineId)
    && forall k :: 0 <= k < |items| ==> items[k].quantity > 0.0 && items[k].satuan != ""
  }

  /** Accepting a line keeps the batch valid, so its item ids stay pairwise distinct. */
  lemma AcceptedLineKeepsBatchValid(items: seq<Line>, selected: Option<Barang>, qty: Option<real>,
                                    satuan: string, stokTersedia: real)
    requires ValidBatch(items)
    requires CheckAdd(selected, qty, satuan, stokTersedia, items) == None
    ensures ValidBatch(items + [NewLine(selected.value, qty.value, satuan, stokTersedia)])
  {
  }

  /** Removing a line keeps the batch valid. */
  lemma RemovalKeepsBatchValid(items: seq<Line>, index: int)
    requires ValidBatch(items)
    ensures ValidBatch(RemoveAt(items, index))
  {
  }

  /** The state of the outbound form: the batch and the fields of the add-item row. */
  class OutboundForm {
    /** The browser's number parser; `None` stands for NaN. */
    const parseFloat: string -> Option<real>
    var items: seq<Line>
    var barangSearch: string
    var selectedBarang: Option<Barang>
    var quantity: string
    var satuan: string
    var stokTersedia: real

    ghost predicate Valid()
      reads this
    {
      ValidBatch(items)
    }

    constructor (parseFloat: string -> Option<real>)
      ensures Valid() && this.parseFloat == parseFloat
      ensures items == [] && barangSearch == "" && selectedBarang == None
      ensures quantity == "" && satuan == "" && stokTersedia == 0.0
    {
      this.parseFloat := parseFloat;
      items := [];
      barangSearch := "";
      selectedBarang := None;
      quantity := "";
      satuan := "";
      stokTersedia := 0.0;
    }

    /** Picking an item from the list: the unit becomes its default unit, and the shown stock its default-unit stock. */
    method SelectBarang(b: Barang)
      requires Valid()
      modifies this
      ensures Valid()
      ensures selectedBarang == Some(b) && barangSearch == b.nama
      ensures satuan == b.satuanDefault && stokTersedia == b.stok
      ensures items == old(items) && quantity == old(quantity)
    {
      selectedBarang := Some(b);
      barangSearch := b.nama;
      satuan := b.satuanDefault;
      stokTersedia := b.stok;
    }

    /** Typing into the quantity field. */
    method SetQuantity(text: string)
      requires Valid()
      modifies this`quantity
      ensures Valid() && quantity == text
    {
      quantity := text;
    }

    /** Choosing a unit in the unit selector. */
    method SetSatuan(unit: string)
      requires Valid()
      modifies this`satuan
      ensures Valid() && satuan == unit
    {
      satuan := unit;
    }

    /**
     * Whether the field shows "quantity exceeds stock": only with an item selected and
     * text entered, and then whenever the text is not a number or fails the stock check.
     */
    function IsQuantityExceeded(): (r: bool)
      reads this
      ensures r <==>
        && selectedBarang.Some?
        && quantity != ""
        && (parseFloat(quantity).None? ||
            QuantityDefault(parseFloat(quantity).value, satuan, selectedBarang.value) > selectedBarang.value.stok)
    {
      if selectedBarang.None? || quantity == "" then false
      else
        var qty := parseFloat(quantity);
        qty.None? || !ValidateQuantity(qty.value, satuan, selectedBarang)
    }

    /**
     * "Add item": runs the checks in order and stops at the first failure, changing
     * nothing; on success appends one line and clears the add-item row.
     */
    method AddItem() returns (error: Option<AddError>)
      requires Valid()
      modifies this
      ensures Valid()
      ensures error == CheckAdd(old(selectedBarang), parseFloat(old(quantity)), old(satuan), old(stokTersedia), old(items))
      ensures error.Some? ==> unchanged(this)
      ensures error.None? ==>
        && items == old(items) + [NewLine(old(selectedBarang).value, parseFloat(old(quantity)).value, old(satuan), old(stokTersedia))]
        && selectedBarang == None && barangSearch == "" && quantity == "" && satuan == "" && stokTersedia == 0.0
    {
      if selectedBarang.None? {
        return Some(NoItemSelected);
      }
      var b := selectedBarang.value;

      var qty := parseFloat(quantity);
      if qty.None? || qty.value <= 0.0 {
        return Some(InvalidQuantity);
      }

      if satuan == "" {
        return Some(NoUnitSelected);
      }

      if !ValidateQuantity(qty.value, satuan, selectedBarang) {
        return Some(InsufficientStock(stokTersedia, satuan));
      }

      var existingIndex := FindIndex(items, LineId, b.id);
      if existingIndex >= 0 {
        return Some(AlreadyInList);
      }

      var options := GetSatuanOptions(selectedBarang);
      var newItem := Line(b.id, b.nama, b.kode, qty.value, satuan, options, stokTersedia, b.stok);
      AcceptedLineKeepsBatchValid(items, selectedBarang, qty, satuan, stokTersedia);
      items := items + [newItem];

      selectedBarang := None;
      barangSearch := "";
      quantity := "";
      satuan := "";
      stokTersedia := 0.0;
      error := None;
    }

    /** "Remove" on line `index`: deletes that position only; nothing else changes. */
    method RemoveItem(index: int)
      requires Valid()
      modifies this`items
      ensures Valid()
      ensures items == RemoveAt(old(items), index)
    {
      RemovalKeepsBatchValid(items, index);
      items := FilterOutIndex(items, index);
    }

    /** "Submit": an empty batch is refused; otherwise the lines are sent as entered, unconverted. */
    method HandleSubmit() returns (r: Submission<seq<Line>>)
      ensures r.RejectedEmpty? <==> items == []
      ensures r.Send? ==> r.payload == items
    {
      if |items| == 0 {
        return RejectedEmpty;
      }
      return Send(items);
    }
  }

  /** Issuing the same item twice: the second "add item" is refused as already in the list, whatever its quantity. */
  method IssueSameItemTwice(b: Barang) returns (second: Option<AddError>, lines: seq<Line>)
    requires b.satuanDefault != "" && b.stok >= 1.0
    ensures second == Some(AlreadyInList)
    ensures |lines| == 1 && lines[0].barangId == b.id
  {
    var form := new OutboundForm(text => if text == "1" then Some(1.0) else if text == "0.5" then Some(0.5) else None);
    form.SelectBarang(b);
    form.SetQuantity("1");
    assert form.parseFloat("1") == Some(1.0) && form.parseFloat("0.5") == Some(0.5);
    DefaultUnitIsIdentity(1.0, b);
    assert !HasKey([], LineId, b.id);
    var first := form.AddItem();
    assert first == None;
    lines := form.items;
    assert HasKey(lines, LineId, b.id) by { assert LineId(lines[0]) == b.id; }
    form.SelectBarang(b);
    form.SetQuantity("0.5");
    second := form.AddItem();
  }
}
