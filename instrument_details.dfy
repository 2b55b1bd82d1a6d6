/**
 * The instrument details dialog: OHLC figures with fallbacks, a
 * synthetic five-level order book around the last price, and a note
 * editor whose Save and Close buttons report back to the owning table.
 */
module InstrumentDetails {
  import opened Wrappers
  import opened Schema

  datatype Ohlc = Ohlc(open: real, high: real, low: real, close: real)

  /** OHLC shown for an item: open and close fall back to the last price. */
  function OhlcOf(item: WatchItem): (o: Ohlc)
    ensures o.high == item.dayHigh && o.low == item.dayLow
    ensures o.open == (if item.open.Some? then item.open.value else item.ltp)
    ensures o.close == (if item.prevClose.Some? then item.prevClose.value else item.ltp)
  {
    Ohlc(item.open.GetOr(item.ltp), item.dayHigh, item.dayLow, item.prevClose.GetOr(item.ltp))
  }

  /** One line of the order book. */
  datatype Quote = Quote(level: nat, qty: int, price: real)

  /** Bid side: levels 1 to 5, 1000 units per level, half a rupee apart below the last price. */
  function Bids(ltp: real): (b: seq<Quote>)
    ensures |b| == 5
    ensures forall i :: 0 <= i < 5 ==> b[i].level == i + 1 && b[i].qty == 1000 * (i + 1)
    ensures forall i :: 0 <= i < 5 ==> b[i].price == ltp - 0.5 * b[i].level as real
  {
    seq(5, i requires 0 <= i < 5 => Quote(i + 1, 1000 * (i + 1), ltp - 0.5 * (i + 1) as real))
  }

  /** Ask side: the same levels above the last price. */
  function Asks(ltp: real): (a: seq<Quote>)
    ensures |a| == 5
    ensures forall i :: 0 <= i < 5 ==> a[i].level == i + 1 && a[i].qty == 1000 * (i + 1)
    ensures forall i :: 0 <= i < 5 ==> a[i].price == ltp + 0.5 * a[i].level as real
  {
    seq(5, i requires 0 <= i < 5 => Quote(i + 1, 1000 * (i + 1), ltp + 0.5 * (i + 1) as real))
  }

  /** Bids fall and asks rise level by level, and the last price separates the two sides. */
  lemma BookIsOrdered(ltp: real)
    ensures forall i, j :: 0 <= i < j < 5 ==> Bids(ltp)[j].price < Bids(ltp)[i].price
    ensures forall i, j :: 0 <= i < j < 5 ==> Asks(ltp)[i].price < Asks(ltp)[j].price
    ensures forall i :: 0 <= i < 5 ==> Bids(ltp)[i].price < ltp < Asks(ltp)[i].price
    ensures forall i, j :: 0 <= i < 5 && 0 <= j < 5 ==> Bids(ltp)[i].price < Asks(ltp)[j].price
    ensures Asks(ltp)[0].price - Bids(ltp)[0].price == 1.0
  {
  }

  /** The note an item opens with. */
  function InitialNote(item: Option<WatchItem>): string {
    if item.Some? then item.value.note.GetOr("") else ""
  }

  /** A note to store in the table: `onSaveNote(symbol, note)`. */
  datatype NoteSave = NoteSave(symbol: string, note: string)

  /** What a button asks of the owner: a note to save, and a new open state. */
  datatype Effects = Effects(save: Option<NoteSave>, openChange: Option<bool>)

  class DetailsDialog {
    var item: Option<WatchItem>
    var note: string

    /** Mounting runs the reset effect once. */
    constructor(item: Option<WatchItem>)
      ensures this.item == item && note == InitialNote(item)
    {
      this.item := item;
      note := InitialNote(item);
    }

    /** Nothing is drawn without an item. */
    predicate Rendered()
      reads this
    {
      item.Some?
    }

    /** A new `item` prop: the effect resets the local note when the item changed. */
    method SetItem(next: Option<WatchItem>)
      modifies this
      ensures item == next
      ensures note == if next != old(item) then InitialNote(next) else old(note)
    {
      if next != item {
        item := next;
        note := InitialNote(next);
      }
    }

    /** Typing in the note box. */
    method Edit(text: string)
      modifies this
      ensures note == text && item == old(item)
    {
      note := text;
    }

    /** Save Note: hand the edited note to the owner if it listens, and ask to close. */
    method Save(hasHandler: bool) returns (fx: Effects)
      ensures fx.openChange == Some(false)
      ensures fx.save.Some? <==> item.Some? && hasHandler
      ensures fx.save.Some? ==> fx.save.value == NoteSave(item.value.symbol, note)
    {
      if item.Some? && hasHandler {
        fx := Effects(Some(NoteSave(item.value.symbol, note)), Some(false));
      } else {
        fx := Effects(None, Some(false));
      }
    }

    /** Close: ask to close and save nothing, so the edit is dropped. */
    method Close() returns (fx: Effects)
      ensures fx.save == None && fx.openChange == Some(false)
    {
      fx := Effects(None, Some(false));
    }
  }

  /**
   * Edit and Close leave the table's note alone; the draft stays in the
   * dialog, so reopening the same row shows the draft again.
   */
  method EditCloseReopen(item: WatchItem, text: string) returns (fx: Effects, reopened: string)
    ensures fx.save == None && fx.openChange == Some(false)
    ensures reopened == text
  {
    var d := new DetailsDialog(Some(item));
    d.Edit(text);
    fx := d.Close();
    d.SetItem(Some(item));
    reopened := d.note;
  }
}
