/**
 * The inbound ("barang masuk") form: the batch of received lines, with no stock check
 * and no duplicate check, and the list of uploaded delivery photos.
 */
module BarangMasuk {
  import opened Wrappers
  import opened Units
  import opened Batch

  /** One line of an inbound batch; `quantity` and `satuan` are stored as entered, unconverted. */
  datatype Line = Line(
    barangId: string,
    barangNama: string,
    barangKode: string,
    quantity: real,
    satuan: string,
    satuanOptions: seq<string>)

  /**
   * The checks of "add item", in order; the first that fails decides the error. The
   * batch is not consulted, so an item may be entered on several lines.
   */
  function CheckAdd(selected: Option<Barang>, qty: Option<real>, satuan: string): (r: Option<AddError>)
    ensures r.None? <==> selected.Some? && IsPositiveQuantity(qty) && satuan != ""
    ensures r == Some(NoItemSelected) <==> selected.None?
    ensures r == Some(InvalidQuantity) <==> selected.Some? && !IsPositiveQuantity(qty)
    ensures r == Some(NoUnitSelected) <==> selected.Some? && IsPositiveQuantity(qty) && satuan == ""
    ensures r.Some? ==> !r.value.InsufficientStock? && r.value != AlreadyInList
  {
    if selected.None? then Some(NoItemSelected)
    else if !IsPositiveQuantity(qty) then Some(InvalidQuantity)
    else if satuan == "" then Some(NoUnitSelected)
    else None
  }

  /**
   * No stock figure takes part in the check: receiving more than is in stock, or into an
   * empty stock, is accepted. This holds by construction, since `CheckAdd` looks at the
   * item only to see whether one is selected; the lemma records it for the reader.
   */
  lemma CheckIgnoresStock(b: Barang, qty: Option<real>, satuan: string, stok: real)
    ensures CheckAdd(Some(b), qty, satuan) == CheckAdd(Some(b.(stok := stok)), qty, satuan)
  {
  }

  /** The line "add item" appends: the quantity and unit as entered. */
  function NewLine(b: Barang, qty: real, satuan: string): (l: Line)
    ensures l.barangId == b.id && l.barangNama == b.nama && l.barangKode == b.kode
    ensures l.quantity == qty && l.satuan == satuan && l.satuanOptions == LegalUnits(b)
  {
    Line(b.id, b.nama, b.kode, qty, satuan, LegalUnits(b))
  }

  /** Lines that passed "add item": a positive quantity and a unit. */
  ghost predicate ValidBatch(items: seq<Line>)
  {
    forall k :: 0 <= k < |items| ==> items[k].quantity > 0.0 && items[k].satuan != ""
  }

  /** Removing a line keeps the batch valid. */
  lemma RemovalKeepsBatchValid(items: seq<Line>, index: int)
    requires ValidBatch(items)
    ensures ValidBatch(RemoveAt(items, index))
  {
  }

  /** What is sent on submission: the lines as entered and the photo links. */
  datatype Payload = Payload(items: seq<Line>, photos: seq<string>)

  /** The state of the inbound form: the batch, the photo links and the fields of the add-item row. */
  class InboundForm {
    /** The browser's number parser; `None` stands for NaN. */
    const parseFloat: string -> Option<real>
    var items: seq<Line>
    var photos: seq<string>
    var barangSearch: string
    var selectedBarang: Option<Barang>
    var quantity: string
    var satuan: string

    ghost predicate Valid()
      reads this
    {
      ValidBatch(items)
    }

    constructor (parseFloat: string -> Option<real>)
      ensures Valid() && this.parseFloat == parseFloat
      ensures items == [] && photos == [] && barangSearch == "" && selectedBarang == None
      ensures quantity == "" && satuan == ""
    {
      this.parseFloat := parseFloat;
      items := [];
      photos := [];
      barangSearch := "";
      selectedBarang := None;
      quantity := "";
      satuan := "";
    }

    /** Picking an item from the list: the unit becomes its default unit. */
    method SelectBarang(b: Barang)
      requires Valid()
      modifies this
      ensures Valid()
      ensures selectedBarang == Some(b) && barangSearch == b.nama && satuan == b.satuanDefault
      ensures items == old(items) && photos == old(photos) && quantity == old(quantity)
    {
      selectedBarang := Some(b);
      barangSearch := b.nama;
      satuan := b.satuanDefault;
    }

    /** Typing into the quantity field. */
    method SetQuantity(text: string)
      requires Valid()
      modifies this`quantity
      ensures Valid() && quantity == text
    {
      quantity := text;
    }

    /** Choosing a unit in the unit selector. */
    method SetSatuan(unit: string)
      requires Valid()
      modifies this`satuan
      ensures Valid() && satuan == unit
    {
      satuan := unit;
    }

    /**
     * "Add item": runs the checks in order and stops at the first failure, changing
     * nothing; on success appends one line and clears the add-item row.
     */
    method AddItem() returns (error: Option<AddError>)
      requires Valid()
      modifies this
      ensures Valid()
      ensures error == CheckAdd(old(selectedBarang), parseFloat(old(quantity)), old(satuan))
      ensures error.Some? ==> unchanged(this)
      ensures error.None? ==>
        && items == old(items) + [NewLine(old(selectedBarang).value, parseFloat(old(quantity)).value, old(satuan))]
        && selectedBarang == None && barangSearch == "" && quantity == "" && satuan == ""
        && photos == old(photos)
    {
      if selectedBarang.None? {
        return Some(NoItemSelected);
      }
      var b := selectedBarang.value;

      var qty := parseFloat(quantity);
      if qty.None? || qty.value <= 0.0 {
        return Some(InvalidQuantity);
      }

      if satuan == "" {
        return Some(NoUnitSelected);
      }

      var options := GetSatuanOptions(selectedBarang);
      var newItem := Line(b.id, b.nama, b.kode, qty.value, satuan, options);
      items := items + [newItem];

      selectedBarang := None;
      barangSearch := "";
      quantity := "";
      satuan := "";
      error := None;
    }

    /** "Remove" on line `index`: deletes that position of the batch only; the photos are untouched. */
    method RemoveItem(index: int)
      requires Valid()
      modifies this`items
      ensures Valid()
      ensures items == RemoveAt(old(items), index)
    {
      RemovalKeepsBatchValid(items, index);
      items := FilterOutIndex(items, index);
    }

    /** Recording the link returned by a successful photo upload at the end of the photo list. */
    method AppendPhoto(fileUrl: string)
      requires Valid()
      modifies this`photos
      ensures Valid() && photos == old(photos) + [fileUrl]
    {
      photos := photos + [fileUrl];
    }

    /** "Remove" on photo `index`: deletes that position of the photo list only; the batch is untouched. */
    method RemovePhoto(index: int)
      requires Valid()
      modifies this`photos
      ensures Valid()
      ensures photos == RemoveAt(old(photos), index)
    {
      photos := FilterOutIndex(photos, index);
    }

    /** "Submit": an empty batch is refused; otherwise the lines are sent as entered, with the photos. */
    method HandleSubmit() returns (r: Submission<Payload>)
      ensures r.RejectedEmpty? <==> items == []
      ensures r.Send? ==> r.payload == Payload(items, photos)
    {
      if |items| == 0 {
        return RejectedEmpty;
      }
      return Send(Payload(items, photos));
    }
  }

  /** Receiving the same item twice gives two lines with the same item id: nothing checks for duplicates. */
  method ReceiveSameItemTwice(b: Barang) returns (lines: seq<Line>)
    requires b.satuanDefault != ""
    ensures |lines| == 2 && lines[0].barangId == lines[1].barangId == b.id
  {
    var form := new InboundForm(text => Some(1.0));
    form.SelectBarang(b);
    form.SetQuantity("1");
    var first := form.AddItem();
    form.SelectBarang(b);
    form.SetQuantity("1");
    var second := form.AddItem();
    lines := form.items;
  }
}
