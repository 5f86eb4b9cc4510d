/**
 * The four result lists of a run and how screening a sequence of codes fills
 * them: a fold that appends one outcome at a time (the loop), and for each
 * list an independent definition as a filter of the codes, with the
 * properties of the filled lists proved from it.
 */
module Buckets {
  import opened Wrappers
  import opened Rule

  /** Names of the four lists. */
  datatype Bucket = HighPotentialList | AboveBothList | BetweenList | AboveEma25List

  /** The four lists, in the order the codes were appended. */
  datatype Lists = Lists(
    aboveBoth: seq<string>,
    between: seq<string>,
    aboveEma25: seq<string>,
    highPotential: seq<string>)

  /** The lists of a fresh screener. */
  const Empty: Lists := Lists([], [], [], [])

  function Get(l: Lists, k: Bucket): seq<string> {
    match k
    case HighPotentialList => l.highPotential
    case AboveBothList => l.aboveBoth
    case BetweenList => l.between
    case AboveEma25List => l.aboveEma25
  }

  /** The three lists of the if/elif chain, as opposed to the independent flag. */
  predicate IsCategoryList(k: Bucket) {
    k != HighPotentialList
  }

  /** The list of the if/elif chain that receives codes of category `c`. */
  function ListOf(c: Category): (k: Bucket)
    ensures IsCategoryList(k)
    ensures forall hp :: Lands(Screened(Some(c), hp), k)
  {
    match c
    case AboveBoth => AboveBothList
    case Between => BetweenList
    case AboveEma25 => AboveEma25List
  }

  /** `code` appended to list `k`; the other three lists are unchanged. */
  function Put(l: Lists, k: Bucket, code: string): (r: Lists)
    ensures forall k' :: Get(r, k') == Get(l, k') + (if k' == k then [code] else [])
  {
    match k
    case HighPotentialList => l.(highPotential := l.highPotential + [code])
    case AboveBothList => l.(aboveBoth := l.aboveBoth + [code])
    case BetweenList => l.(between := l.between + [code])
    case AboveEma25List => l.(aboveEma25 := l.aboveEma25 + [code])
  }

  /** Whether a code with outcome `o` belongs in list `k`. */
  predicate Lands(o: Outcome, k: Bucket) {
    && o.Screened?
    && match k
       case HighPotentialList => o.highPotential
       case AboveBothList => o.category == Some(AboveBoth)
       case BetweenList => o.category == Some(Between)
       case AboveEma25List => o.category == Some(AboveEma25)
  }

  /** Data for `code` in the download, None when the lookup fails. */
  function Lookup(market: map<string, Series>, code: string): (data: Option<Series>)
    ensures data.Some? <==> code in market
    ensures data.Some? ==> data.value == market[code]
  {
    if code in market then Some(market[code]) else None
  }

  /**
   * One pass of the loop body: a kept code is appended to the high-potential
   * list when flagged, then to the list of its category if it has one.
   * Every list either stays as it was or gains `code` at its end.
   */
  function Record(l: Lists, code: string, o: Outcome): (r: Lists)
    ensures forall k :: Get(r, k) == Get(l, k) + (if Lands(o, k) then [code] else [])
  {
    match o
    case Excluded => l
    case Screened(category, highPotential) =>
      var flagged := if highPotential then Put(l, HighPotentialList, code) else l;
      if category.Some? then Put(flagged, ListOf(category.value), code) else flagged
  }

  /** The lists after screening `codes` in order, starting from `l`. */
  function Screen(l: Lists, codes: seq<string>, market: map<string, Series>): Lists {
    if codes == [] then l
    else
      var code := codes[|codes| - 1];
      Record(Screen(l, codes[..|codes| - 1], market), code, Classify(Lookup(market, code)))
  }

  /** The codes of `codes` that belong in list `k`, in their original order. */
  function Selected(codes: seq<string>, market: map<string, Series>, k: Bucket): seq<string> {
    if codes == [] then []
    else
      (if Lands(Classify(Lookup(market, codes[0])), k) then [codes[0]] else [])
      + Selected(codes[1..], market, k)
  }

  /** How many codes receive one of the three categories. */
  function CategorizedCount(codes: seq<string>, market: map<string, Series>): nat {
    if codes == [] then 0
    else
      var o := Classify(Lookup(market, codes[0]));
      (if o.Screened? && o.category.Some? then 1 else 0) + CategorizedCount(codes[1..], market)
  }

  lemma {:induction false} SelectedSnoc(codes: seq<string>, code: string, market: map<string, Series>, k: Bucket)
    ensures Selected(codes + [code], market, k)
         == Selected(codes, market, k) + (if Lands(Classify(Lookup(market, code)), k) then [code] else [])
  {
    if codes != [] {
      assert (codes + [code])[1..] == codes[1..] + [code];
      SelectedSnoc(codes[1..], code, market, k);
    } else {
      assert [code][1..] == [];
    }
  }

  /** Recording one more outcome extends a list that already extends `l`'s. */
  lemma RecordExtends(before: Lists, l: Lists, code: string, o: Outcome, added: seq<string>, k: Bucket)
    requires Get(before, k) == Get(l, k) + added
    ensures Get(Record(before, code, o), k) == Get(l, k) + (added + (if Lands(o, k) then [code] else []))
  {
  }

  /**
   * Screening only appends: every list is its old contents followed by the
   * screened codes that belong in it, in the order they were screened.
   */
  lemma {:induction false} ScreenIsSelected(l: Lists, codes: seq<string>, market: map<string, Series>, k: Bucket)
    ensures Get(Screen(l, codes, market), k) == Get(l, k) + Selected(codes, market, k)
  {
    if codes == [] {
    } else {
      var init, code := codes[..|codes| - 1], codes[|codes| - 1];
      ScreenIsSelected(l, init, market, k);
      RecordExtends(Screen(l, init, market), l, code, Classify(Lookup(market, code)), Selected(init, market, k), k);
      assert codes == init + [code];
      SelectedSnoc(init, code, market, k);
    }
  }

  /** A code is in a list exactly when it was screened and its outcome selects that list. */
  lemma {:induction false} SelectedMembership(codes: seq<string>, market: map<string, Series>, k: Bucket, code: string)
    ensures code in Selected(codes, market, k) <==> code in codes && Lands(Classify(Lookup(market, code)), k)
  {
    if codes != [] {
      SelectedMembership(codes[1..], market, k, code);
      assert code in codes <==> code == codes[0] || code in codes[1..];
    }
  }

  /** Each list is a subsequence of the screened codes: no code is listed twice. */
  lemma {:induction false} SelectedDistinct(codes: seq<string>, market: map<string, Series>, k: Bucket)
    requires forall i, j :: 0 <= i < j < |codes| ==> codes[i] != codes[j]
    ensures var s := Selected(codes, market, k);
            forall i, j :: 0 <= i < j < |s| ==> s[i] != s[j]
  {
    if codes != [] {
      SelectedDistinct(codes[1..], market, k);
      SelectedMembership(codes[1..], market, k, codes[0]);
      assert codes[0] !in codes[1..];
    }
  }

  /** The between-EMAs list never receives a code. */
  lemma {:induction false} BetweenNeverFilled(codes: seq<string>, market: map<string, Series>)
    ensures Selected(codes, market, BetweenList) == []
  {
    if codes != [] {
      BetweenNeverFilled(codes[1..], market);
    }
  }

  /**
   * The three category lists together hold one entry per code that received
   * a category: no code is counted in two of them.
   */
  lemma {:induction false} CategoryListsPartition(codes: seq<string>, market: map<string, Series>)
    ensures |Selected(codes, market, AboveBothList)| + |Selected(codes, market, BetweenList)|
            + |Selected(codes, market, AboveEma25List)| == CategorizedCount(codes, market)
  {
    if codes != [] {
      CategoryListsPartition(codes[1..], market);
    }
  }

  /** No code is in two different category lists. */
  lemma CategoryListsDisjoint(codes: seq<string>, market: map<string, Series>, k1: Bucket, k2: Bucket, code: string)
    requires IsCategoryList(k1) && IsCategoryList(k2) && k1 != k2
    ensures !(code in Selected(codes, market, k1) && code in Selected(codes, market, k2))
  {
    SelectedMembership(codes, market, k1, code);
    SelectedMembership(codes, market, k2, code);
  }

  /** A code missing from the download, or with fewer than 50 bars, is in no list. */
  lemma {:induction false} ShortOrMissingInNoList(codes: seq<string>, market: map<string, Series>, k: Bucket, code: string)
    requires code !in market || |market[code].bars| < MinBars
    ensures code !in Selected(codes, market, k)
  {
    SelectedMembership(codes, market, k, code);
  }

  /** A code whose last close is below the floor is in no list. */
  lemma {:induction false} BelowFloorInNoList(codes: seq<string>, market: map<string, Series>, k: Bucket, code: string)
    requires code in market && |market[code].bars| > 0
    requires market[code].bars[|market[code].bars| - 1].close < PriceFloor
    ensures code !in Selected(codes, market, k)
  {
    SelectedMembership(codes, market, k, code);
  }

  /** A code whose EMA-25 does not end strictly above its EMA-50 is in no list. */
  lemma {:induction false} NoUptrendInNoList(codes: seq<string>, market: map<string, Series>, k: Bucket, code: string)
    requires code in market && market[code].ema25 <= market[code].ema50
    ensures code !in Selected(codes, market, k)
  {
    SelectedMembership(codes, market, k, code);
  }

  /**
   * A screened code is in the high-potential list exactly when it has at
   * least 50 bars, passes the floor and the uptrend gate, and satisfies all
   * seven comparisons on its last two bars; such a code is in exactly one
   * of the above-both and close-above-EMA-25 lists.
   */
  lemma {:induction false} HighPotentialMeaning(codes: seq<string>, market: map<string, Series>, code: string)
    ensures code in Selected(codes, market, HighPotentialList) <==>
              && code in codes && code in market
              && var s := market[code];
                 var n := |s.bars|;
                 && n >= MinBars
                 && var last, prev := s.bars[n - 1], s.bars[n - 2];
                    && last.close >= PriceFloor && s.ema25 > s.ema50
                    && last.close > s.ema25
                    && last.open > s.ema50 && last.close > s.ema50
                    && last.close > prev.close && last.volume > prev.volume
                    && last.close > last.open && last.close > prev.open
    ensures code in Selected(codes, market, HighPotentialList) ==>
              (code in Selected(codes, market, AboveBothList)) != (code in Selected(codes, market, AboveEma25List))
  {
    SelectedMembership(codes, market, HighPotentialList, code);
    SelectedMembership(codes, market, AboveBothList, code);
    SelectedMembership(codes, market, AboveEma25List, code);
  }

  /**
   * A screened code that passes the floor and the gate is in the above-both
   * list exactly when its last open and close are above EMA-25, and in the
   * close-above-EMA-25 list exactly when its last close is above EMA-25 but
   * its last open is not.
   */
  lemma {:induction false} CategoryListsMeaning(codes: seq<string>, market: map<string, Series>, code: string)
    ensures code in Selected(codes, market, AboveBothList) <==>
              && code in codes && code in market
              && var s := market[code];
                 var n := |s.bars|;
                 && n >= MinBars
                 && s.bars[n - 1].close >= PriceFloor && s.ema25 > s.ema50
                 && s.bars[n - 1].open > s.ema25 && s.bars[n - 1].close > s.ema25
    ensures code in Selected(codes, market, AboveEma25List) <==>
              && code in codes && code in market
              && var s := market[code];
                 var n := |s.bars|;
                 && n >= MinBars
                 && s.bars[n - 1].close >= PriceFloor && s.ema25 > s.ema50
                 && s.bars[n - 1].open <= s.ema25 < s.bars[n - 1].close
  {
    SelectedMembership(codes, market, AboveBothList, code);
    SelectedMembership(codes, market, AboveEma25List, code);
  }
}
