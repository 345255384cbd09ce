/** How a quantity written by the ingest script reads back in the receipt
    list: the script stores `int(quantity * 1000)` and the list divides the
    stored number by 1000. */
module QuantityRoundTrip {
  import opened Wrappers
  import ReceiptIngest
  import ReceiptList

  /** A non-negative quantity, stored and read back, loses less than one
      thousandth and never gains. */
  lemma StoredQuantityReadsBack(q: real, raw: ReceiptList.RawReceipt)
    requires q >= 0.0
    requires ReceiptIngest.ScaleQuantity(ReceiptIngest.Num(q)) == Success(raw.4)
    ensures ReceiptList.Decode(raw).quantityLitres <= q
    ensures q < ReceiptList.Decode(raw).quantityLitres + 0.001
  {
    var litres := ReceiptList.Decode(raw).quantityLitres;
    assert litres * 1000.0 == raw.4 as real;
    assert raw.4 as real <= q * 1000.0 < raw.4 as real + 1.0;
  }

  /** Scaling a read-back quantity again gives exactly the stored number. */
  lemma ReadBackRescalesExactly(raw: ReceiptList.RawReceipt)
    ensures ReceiptIngest.ScaleQuantity(ReceiptIngest.Num(ReceiptList.Decode(raw).quantityLitres))
            == Success(raw.4)
  {
    var litres := ReceiptList.Decode(raw).quantityLitres;
    assert litres * ReceiptIngest.QUANTITY_SCALE == raw.4 as real;
  }
}
