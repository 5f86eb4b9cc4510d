/**
 * The screener object of the run (class `Test`): four lists created empty and
 * filled by appending, one code at a time, while `test` walks the generated
 * codes in order.
 */
module Screener {
  import opened Wrappers
  import opened Rule
  import opened Buckets
  import StockCodes

  class Screener {
    /** Codes whose last open and close are above both EMAs. */
    var aboveBoth: seq<string>
    /** Codes whose last open and close are both above EMA-25 and below EMA-50. */
    var between: seq<string>
    /** Codes whose last close is above EMA-25 and that matched neither list above. */
    var aboveEma25: seq<string>
    /** Codes flagged high potential, independently of their category. */
    var highPotential: seq<string>

    /** The four lists as one value. */
    function Contents(): Lists
      reads this
    {
      Lists(aboveBoth, between, aboveEma25, highPotential)
    }

    constructor ()
      ensures Contents() == Empty
    {
      aboveBoth, between, aboveEma25, highPotential := [], [], [], [];
    }

    /**
     * Screens one code whose lookup gave `data` and appends it to the lists
     * its outcome selects; nothing earlier in any list changes.
     */
    method ProcessStock(code: string, data: Option<Series>)
      modifies this
      ensures Contents() == Record(old(Contents()), code, Classify(data))
      ensures forall k :: Get(Contents(), k) == Get(old(Contents()), k) + (if Lands(Classify(data), k) then [code] else [])
    {
      if data.None? {
        return;
      }
      var bars := data.value.bars;
      if |bars| < MinBars {
        return;
      }
      var last, prev := bars[|bars| - 1], bars[|bars| - 2];
      var ema25 := LastEma(|bars|, ShortSpan, data.value.ema25);
      var ema50 := LastEma(|bars|, LongSpan, data.value.ema50);
      if PassesGate(last.close, ema25, ema50) {
        if IsHighPotential(last, prev, ema25.value, ema50.value) {
          Append(HighPotentialList, code);
        }
        var category := CategoryOf(last, ema25.value, ema50.value);
        if category.Some? {
          Append(ListOf(category.value), code);
        }
      }
    }

    /** Appends `code` to list `k`, leaving the other three lists as they were. */
    method Append(k: Bucket, code: string)
      modifies this
      ensures Contents() == Put(old(Contents()), k, code)
    {
      match k
      case HighPotentialList => highPotential := highPotential + [code];
      case AboveBothList => aboveBoth := aboveBoth + [code];
      case BetweenList => between := between + [code];
      case AboveEma25List => aboveEma25 := aboveEma25 + [code];
    }

    /**
     * The screening loop of `test` over `codes`: each code, in order, is
     * looked up in `market` and processed. Each list ends as its old
     * contents followed by exactly the codes that belong in it, in the order
     * of `codes`, and the between-EMAs list is unchanged.
     */
    method ProcessAll(codes: seq<string>, market: map<string, Series>)
      modifies this
      ensures Contents() == Screen(old(Contents()), codes, market)
      ensures forall k :: Get(Contents(), k) == Get(old(Contents()), k) + Selected(codes, market, k)
      ensures between == old(between)
    {
      for i := 0 to |codes|
        invariant Contents() == Screen(old(Contents()), codes[..i], market)
      {
        ProcessStock(codes[i], Lookup(market, codes[i]));
        assert codes[..i + 1][..i] == codes[..i];
      }
      assert codes[..|codes|] == codes;
      forall k ensures Get(Contents(), k) == Get(old(Contents()), k) + Selected(codes, market, k) {
        ScreenIsSelected(old(Contents()), codes, market, k);
      }
      BetweenNeverFilled(codes, market);
    }

    /**
     * `test`: generates the 10000 codes and screens them in generation order
     * against the downloaded `market`.
     */
    method Test(market: map<string, Series>)
      modifies this
      ensures Contents() == Screen(old(Contents()), StockCodes.AllCodes(), market)
      ensures forall k :: Get(Contents(), k) == Get(old(Contents()), k) + Selected(StockCodes.AllCodes(), market, k)
      ensures between == old(between)
    {
      var codes := StockCodes.AllCodes();
      ProcessAll(codes, market);
    }
  }

  /**
   * A whole run on a fresh screener: each list is exactly the generated codes
   * that belong in it, in generation order and without repetition, and the
   * between-EMAs list is empty.
   */
  method Run(market: map<string, Series>) returns (screener: Screener)
    ensures fresh(screener)
    ensures forall k :: Get(screener.Contents(), k) == Selected(StockCodes.AllCodes(), market, k)
    ensures forall k :: var s := Get(screener.Contents(), k);
              forall i, j :: 0 <= i < j < |s| ==> s[i] != s[j]
    ensures screener.between == []
  {
    screener := new Screener();
    screener.Test(market);
    RunListsDistinct(market);
  }

  /** Screening the generated codes never lists a code twice. */
  lemma {:induction false} RunListsDistinct(market: map<string, Series>)
    ensures forall k :: var s := Selected(StockCodes.AllCodes(), market, k);
              forall i, j :: 0 <= i < j < |s| ==> s[i] != s[j]
  {
    var codes := StockCodes.AllCodes();
    StockCodes.AllCodesDistinct();
    forall k ensures var s := Selected(codes, market, k);
                     forall i, j :: 0 <= i < j < |s| ==> s[i] != s[j] {
      SelectedDistinct(codes, market, k);
    }
  }
}
