/** Ledger rows as the CSV loader hands them over: one budget line item with
    its names and one amount per fiscal year. */
module LineItems {

  /** The fiscal years the ledgers carry a column for, `_.range(2012, 2016)`. */
  type Year = y: int | 2012 <= y <= 2015 witness 2012

  /** The year columns of a line item. Amounts are exact; the comma-grouped
      decimal text of the CSV is taken as already parsed. */
  datatype Amounts = Amounts(y2012: real, y2013: real, y2014: real, y2015: real) {

    /** The amount in the column of year `y` (`item[y]`). */
    function At(y: Year): real {
      if y == 2012 then y2012
      else if y == 2013 then y2013
      else if y == 2014 then y2014
      else y2015
    }

    /** The same columns with the one of year `y` overwritten (`l[y] = v`). */
    function With(y: Year, v: real): (r: Amounts)
      ensures r.At(y) == v
      ensures forall z: Year :: z != y ==> r.At(z) == At(z)
    {
      if y == 2012 then this.(y2012 := v)
      else if y == 2013 then this.(y2013 := v)
      else if y == 2014 then this.(y2014 := v)
      else this.(y2015 := v)
    }
  }

  /** Two column sets that agree on every year are the same. */
  lemma AmountsExtensional(a: Amounts, b: Amounts)
    requires forall y: Year :: a.At(y) == b.At(y)
    ensures a == b
  {
    assert a.At(2012) == b.At(2012) && a.At(2013) == b.At(2013);
    assert a.At(2014) == b.At(2014) && a.At(2015) == b.At(2015);
  }

  /** One ledger row: `Agency Name`, `Bureau Name`, `Account Name`, `Unique`
      and the year columns. */
  datatype LineItem = LineItem(agency: string, bureau: string, account: string, unique: string, amounts: Amounts)

  /** The two ways a budget query throws in the source: reading `children` of an
      agency that `_.where` did not find, and mapping over a ledger that the
      tracker values did not select. */
  datatype Failure = AgencyNotFound | NoLedger
}
