/** The decision logic of the X-Series script (src/discount_manager.py): the
    analysis loop of `process_aged_items`, which sorts products into skip
    buckets or clearance records, and the batching of those records for the
    price-book update in `update_price_book_products`. */
module XSeriesDiscount {
  import opened Options
  import opened Calendar
  import opened TagDate
  import opened Pricing
  import Funnel

  /** A product as the products endpoint returns it; prices are in cents and a
      field the record lacks is `None`. */
  datatype Product = Product(
    id: Option<string>,
    name: Option<string>,
    priceIncludingTax: Option<int>,
    priceExcludingTax: Option<int>,
    tagIds: seq<string>)

  /** One entry of `items_to_discount`. */
  datatype DiscountRecord = DiscountRecord(
    id: Option<string>,
    name: string,
    daysOld: int,
    retailPrice: int,
    clearancePrice: int,
    releaseDate: Date,
    dateTag: string)

  /** The skip buckets, in the order they are tested.  `NotYetAged` has no
      counter in the script; it is the products that are silently passed over. */
  datatype SkipReason = NoRetailPrice | NoTags | NoDateTag | NotYetAged

  type Outcome = Funnel.Outcome<SkipReason, DiscountRecord>

  const UnknownName: string := "Unknown"

  /** A numeric field read with Python truthiness: absent and zero both fall through. */
  predicate IsSet(v: Option<int>) {
    v.Some? && v.value != 0
  }

  /** The price the script uses: the tax-inclusive price when it is present and
      nonzero, else the tax-exclusive one under the same test, else 0. */
  function RetailPrice(p: Product): int {
    if IsSet(p.priceIncludingTax) then p.priceIncludingTax.value
    else if IsSet(p.priceExcludingTax) then p.priceExcludingTax.value
    else 0
  }

  /** The names of the tag ids found in the tag directory, in order; ids missing
      from the directory are dropped. */
  function ResolveNames(ids: seq<string>, allTags: map<string, string>): seq<string> {
    if ids == [] then []
    else (if ids[0] in allTags then [allTags[ids[0]]] else []) + ResolveNames(ids[1..], allTags)
  }

  /** The tag id names a directory tag that qualifies as a release-date tag. */
  predicate IsDateTagId(id: string, allTags: map<string, string>, prefix: string) {
    id in allTags && IsDateTag(allTags[id], prefix)
  }

  /** The release-date tag of a product: the tag of the first id, in `tag_ids`
      order, that is in the directory and qualifies; no such id means none. */
  lemma {:induction false} FirstDateTagById(ids: seq<string>, allTags: map<string, string>, prefix: string)
    ensures var r := FirstDateTag(ResolveNames(ids, allTags), prefix);
      && (r.None? <==> forall k :: 0 <= k < |ids| ==> !IsDateTagId(ids[k], allTags, prefix))
      && (r.Some? ==> exists k :: 0 <= k < |ids| && IsDateTagId(ids[k], allTags, prefix)
                                 && allTags[ids[k]] == r.value.name
                                 && forall j :: 0 <= j < k ==> !IsDateTagId(ids[j], allTags, prefix))
  {
    if ids != [] {
      var rest := ResolveNames(ids[1..], allTags);
      FirstDateTagById(ids[1..], allTags, prefix);
      if ids[0] in allTags {
        FirstDateTagCons(allTags[ids[0]], rest, prefix);
      } else {
        assert ResolveNames(ids, allTags) == rest;
      }
      var r := FirstDateTag(ResolveNames(ids, allTags), prefix);
      if !IsDateTagId(ids[0], allTags, prefix) {
        assert r == FirstDateTag(rest, prefix);
        if r.Some? {
          var k :| 0 <= k < |ids[1..]| && IsDateTagId(ids[1..][k], allTags, prefix)
                   && allTags[ids[1..][k]] == r.value.name
                   && forall j :: 0 <= j < k ==> !IsDateTagId(ids[1..][j], allTags, prefix);
          assert forall j :: 0 <= j < k + 1 ==> !IsDateTagId(ids[j], allTags, prefix) by {
            forall j | 0 <= j < k + 1 ensures !IsDateTagId(ids[j], allTags, prefix) {
              if j > 0 { assert ids[j] == ids[1..][j - 1]; }
            }
          }
          assert IsDateTagId(ids[k + 1], allTags, prefix) && allTags[ids[k + 1]] == r.value.name;
        } else {
          forall k | 0 <= k < |ids| ensures !IsDateTagId(ids[k], allTags, prefix) {
            if k > 0 { assert ids[k] == ids[1..][k - 1]; }
          }
        }
      }
    }
  }

  /** What happens to one product in the analysis loop. */
  function Classify(p: Product, allTags: map<string, string>, cfg: Config, today: int): Outcome {
    var price := RetailPrice(p);
    if price <= 0 then Funnel.Skip(NoRetailPrice)
    else if p.tagIds == [] then Funnel.Skip(NoTags)
    else
      match FirstDateTag(ResolveNames(p.tagIds, allTags), cfg.tagPrefix)
      case None => Funnel.Skip(NoDateTag)
      case Some(t) =>
        var daysOld := today - Ordinal(t.date);
        if daysOld > cfg.discountDays then
          Funnel.Emit(DiscountRecord(p.id, p.name.GetOr(UnknownName), daysOld, price,
                                     Clearance(price, cfg.discountBasisPoints), t.date, t.name))
        else Funnel.Skip(NotYetAged)
  }

  function Outcomes(products: seq<Product>, allTags: map<string, string>, cfg: Config, today: int): seq<Outcome> {
    seq(|products|, i requires 0 <= i < |products| => Classify(products[i], allTags, cfg, today))
  }

  /** The buckets of one product, each stated by its own condition: the price is
      tested first, then the tag list, then the date tags, then the age, which
      must exceed the threshold strictly. */
  lemma ClassifyCases(p: Product, allTags: map<string, string>, cfg: Config, today: int)
    ensures Classify(p, allTags, cfg, today) == Funnel.Skip(NoRetailPrice) <==> RetailPrice(p) <= 0
    ensures Classify(p, allTags, cfg, today) == Funnel.Skip(NoTags) <==> RetailPrice(p) > 0 && p.tagIds == []
    ensures Classify(p, allTags, cfg, today) == Funnel.Skip(NoDateTag) <==>
      RetailPrice(p) > 0 && p.tagIds != []
      && forall k :: 0 <= k < |p.tagIds| ==> !IsDateTagId(p.tagIds[k], allTags, cfg.tagPrefix)
    ensures var t := FirstDateTag(ResolveNames(p.tagIds, allTags), cfg.tagPrefix);
      Classify(p, allTags, cfg, today).Emit? <==>
        RetailPrice(p) > 0 && t.Some? && today - Ordinal(t.value.date) > cfg.discountDays
    ensures var t := FirstDateTag(ResolveNames(p.tagIds, allTags), cfg.tagPrefix);
      Classify(p, allTags, cfg, today) == Funnel.Skip(NotYetAged) <==>
        RetailPrice(p) > 0 && t.Some? && today - Ordinal(t.value.date) <= cfg.discountDays
  {
    FirstDateTagById(p.tagIds, allTags, cfg.tagPrefix);
  }

  /** The tax-exclusive price is consulted only when the tax-inclusive one is
      absent or zero: with a set tax-inclusive price, any tax-exclusive price
      gives the same outcome, and a negative tax-inclusive price skips the
      product as priceless although a positive tax-exclusive price exists. */
  lemma TaxInclusivePriceWins(p: Product, other: Option<int>, allTags: map<string, string>, cfg: Config, today: int)
    requires IsSet(p.priceIncludingTax)
    ensures Classify(p.(priceExcludingTax := other), allTags, cfg, today) == Classify(p, allTags, cfg, today)
    ensures p.priceIncludingTax.value < 0 ==> Classify(p, allTags, cfg, today) == Funnel.Skip(NoRetailPrice)
  {
  }

  /** A tax-inclusive price of zero counts as no tax-inclusive price, and a
      product with neither price set is skipped as priceless. */
  lemma ZeroPriceIsUnset(p: Product, allTags: map<string, string>, cfg: Config, today: int)
    ensures Classify(p.(priceIncludingTax := Some(0)), allTags, cfg, today)
         == Classify(p.(priceIncludingTax := None), allTags, cfg, today)
    ensures !IsSet(p.priceIncludingTax) && !IsSet(p.priceExcludingTax) ==>
      Classify(p, allTags, cfg, today) == Funnel.Skip(NoRetailPrice)
  {
  }

  /** Every product lands in exactly one bucket: the four skip counts and the
      number of records add up to the number of products scanned. */
  lemma {:induction false} FunnelAddsUp(os: seq<Outcome>)
    ensures Funnel.Count(os, NoRetailPrice) + Funnel.Count(os, NoTags) + Funnel.Count(os, NoDateTag)
            + Funnel.Count(os, NotYetAged) + |Funnel.Emitted(os)| == |os|
  {
    if os != [] {
      var last := os[|os| - 1];
      FunnelAddsUp(os[..|os| - 1]);
      match last
      case Skip(r) =>
        assert r == NoRetailPrice || r == NoTags || r == NoDateTag || r == NotYetAged;
      case Emit(_) =>
    }
  }

  /** What an emitted record carries: an age strictly above the threshold,
      computed from a valid release date found in its date tag, a positive
      price, and the clearance price of that price; with a discount between 0
      and 100 percent the clearance price lies between 0 and the price. */
  lemma EmittedRecordSound(p: Product, allTags: map<string, string>, cfg: Config, today: int, rec: DiscountRecord)
    requires Classify(p, allTags, cfg, today) == Funnel.Emit(rec)
    ensures rec.daysOld > cfg.discountDays && rec.retailPrice > 0
    ensures IsValidDate(rec.releaseDate) && rec.daysOld == today - Ordinal(rec.releaseDate)
    ensures StartsWith(rec.dateTag, cfg.tagPrefix) && ExtractDate(rec.dateTag, cfg.tagPrefix) == Some(rec.releaseDate)
    ensures rec.clearancePrice == Clearance(rec.retailPrice, cfg.discountBasisPoints)
    ensures 0 <= cfg.discountBasisPoints <= BasisPointsPerUnit ==> 0 <= rec.clearancePrice <= rec.retailPrice
    ensures rec.id == p.id && rec.retailPrice == RetailPrice(p) && rec.name == p.name.GetOr(UnknownName)
    ensures FirstDateTag(ResolveNames(p.tagIds, allTags), cfg.tagPrefix) == Some(DateTag(rec.dateTag, rec.releaseDate))
  {
    if 0 <= cfg.discountBasisPoints <= BasisPointsPerUnit {
      ClearanceBounds(rec.retailPrice, cfg.discountBasisPoints);
    }
  }

  /** Every record of the discount list is sound in the sense of
      `EmittedRecordSound` for some scanned product. */
  lemma DiscountRecordSound(products: seq<Product>, allTags: map<string, string>, cfg: Config, today: int,
                            rec: DiscountRecord)
    requires rec in Funnel.Emitted(Outcomes(products, allTags, cfg, today))
    ensures exists i :: 0 <= i < |products| && Classify(products[i], allTags, cfg, today) == Funnel.Emit(rec)
    ensures rec.daysOld > cfg.discountDays && rec.retailPrice > 0
    ensures IsValidDate(rec.releaseDate) && rec.daysOld == today - Ordinal(rec.releaseDate)
    ensures rec.clearancePrice == Clearance(rec.retailPrice, cfg.discountBasisPoints)
  {
    var os := Outcomes(products, allTags, cfg, today);
    Funnel.EmittedMembers(os, rec);
    var i :| 0 <= i < |os| && os[i] == Funnel.Emit(rec);
    assert Classify(products[i], allTags, cfg, today) == Funnel.Emit(rec);
    EmittedRecordSound(products[i], allTags, cfg, today, rec);
  }

  /** The records follow the product order: splitting the product list splits
      the record list the same way. */
  lemma RecordsFollowInputOrder(xs: seq<Product>, ys: seq<Product>, allTags: map<string, string>, cfg: Config, today: int)
    ensures Funnel.Emitted(Outcomes(xs + ys, allTags, cfg, today))
         == Funnel.Emitted(Outcomes(xs, allTags, cfg, today)) + Funnel.Emitted(Outcomes(ys, allTags, cfg, today))
  {
    assert Outcomes(xs + ys, allTags, cfg, today) == Outcomes(xs, allTags, cfg, today) + Outcomes(ys, allTags, cfg, today);
    Funnel.EmittedAppend(Outcomes(xs, allTags, cfg, today), Outcomes(ys, allTags, cfg, today));
  }

  /** The inner loop of the analysis: walk the tag ids in order, look each one
      up in the tag directory, and stop at the first tag whose name starts with
      the prefix and parses to a date. */
  method FindDateTag(tagIds: seq<string>, allTags: map<string, string>, prefix: string)
    returns (releaseDate: Option<Date>, dateTag: string)
    ensures releaseDate.None? <==> FirstDateTag(ResolveNames(tagIds, allTags), prefix).None?
    ensures releaseDate.Some? ==>
      FirstDateTag(ResolveNames(tagIds, allTags), prefix) == Some(DateTag(dateTag, releaseDate.value))
  {
    releaseDate, dateTag := None, "";
    var j := 0;
    while j < |tagIds|
      invariant 0 <= j <= |tagIds| && releaseDate.None?
      invariant FirstDateTag(ResolveNames(tagIds, allTags), prefix) == FirstDateTag(ResolveNames(tagIds[j..], allTags), prefix)
    {
      var tagId := tagIds[j];
      ghost var rest := ResolveNames(tagIds[j + 1..], allTags);
      assert tagIds[j..][0] == tagId && tagIds[j..][1..] == tagIds[j + 1..];
      if tagId in allTags {
        var tagName := allTags[tagId];
        assert ResolveNames(tagIds[j..], allTags) == [tagName] + rest;
        FirstDateTagCons(tagName, rest, prefix);
        if StartsWith(tagName, prefix) {
          releaseDate := ExtractDate(tagName, prefix);
          if releaseDate.Some? {
            dateTag := tagName;
            return;
          }
        }
      } else {
        assert ResolveNames(tagIds[j..], allTags) == rest;
      }
      j := j + 1;
    }
  }

  /** `Classify` in terms of what the loop body computes: the retail price and
      the result of the tag scan. */
  lemma ClassifyFromScan(p: Product, allTags: map<string, string>, cfg: Config, today: int,
                         releaseDate: Option<Date>, dateTag: string)
    requires releaseDate.None? <==> FirstDateTag(ResolveNames(p.tagIds, allTags), cfg.tagPrefix).None?
    requires releaseDate.Some? ==>
      FirstDateTag(ResolveNames(p.tagIds, allTags), cfg.tagPrefix) == Some(DateTag(dateTag, releaseDate.value))
    requires RetailPrice(p) > 0 && p.tagIds != []
    ensures releaseDate.None? ==> Classify(p, allTags, cfg, today) == Funnel.Skip(NoDateTag)
    ensures releaseDate.Some? ==> IsValidDate(releaseDate.value)
    ensures releaseDate.Some? && today - Ordinal(releaseDate.value) > cfg.discountDays ==>
      Classify(p, allTags, cfg, today)
      == Funnel.Emit(DiscountRecord(p.id, p.name.GetOr(UnknownName), today - Ordinal(releaseDate.value), RetailPrice(p),
                                    Clearance(RetailPrice(p), cfg.discountBasisPoints), releaseDate.value, dateTag))
    ensures releaseDate.Some? && today - Ordinal(releaseDate.value) <= cfg.discountDays ==>
      Classify(p, allTags, cfg, today) == Funnel.Skip(NotYetAged)
  {
  }

  lemma OutcomesSnoc(products: seq<Product>, i: nat, allTags: map<string, string>, cfg: Config, today: int)
    requires i < |products|
    ensures Outcomes(products[..i + 1], allTags, cfg, today)
         == Outcomes(products[..i], allTags, cfg, today) + [Classify(products[i], allTags, cfg, today)]
  {
  }

  /** The body of the analysis loop for one product: the price test, the tag
      list test, the tag scan and the age test, in that order. */
  method AnalyzeProduct(product: Product, allTags: map<string, string>, cfg: Config, today: int)
    returns (outcome: Outcome)
    ensures outcome == Classify(product, allTags, cfg, today)
  {
    var retailPrice := RetailPrice(product);
    if retailPrice <= 0 {
      return Funnel.Skip(NoRetailPrice);
    }
    if product.tagIds == [] {
      return Funnel.Skip(NoTags);
    }
    var releaseDate, dateTag := FindDateTag(product.tagIds, allTags, cfg.tagPrefix);
    ClassifyFromScan(product, allTags, cfg, today, releaseDate, dateTag);
    if releaseDate.None? {
      return Funnel.Skip(NoDateTag);
    }
    var daysOld := today - Ordinal(releaseDate.value);
    if daysOld > cfg.discountDays {
      var clearancePrice := Clearance(retailPrice, cfg.discountBasisPoints);
      outcome := Funnel.Emit(DiscountRecord(product.id, product.name.GetOr(UnknownName), daysOld,
                                            retailPrice, clearancePrice, releaseDate.value, dateTag));
    } else {
      outcome := Funnel.Skip(NotYetAged);
    }
  }

  /** The bookkeeping at the end of one iteration: bump the counter of the
      outcome's bucket, or append its record. */
  method Tally(ghost os: seq<Outcome>, outcome: Outcome, itemsToDiscount: seq<DiscountRecord>,
               itemsSkippedNoPrice: nat, itemsWithoutTags: nat, itemsWithoutDateTags: nat)
    returns (itemsToDiscount': seq<DiscountRecord>, itemsSkippedNoPrice': nat, itemsWithoutTags': nat,
             itemsWithoutDateTags': nat)
    requires itemsToDiscount == Funnel.Emitted(os)
    requires itemsSkippedNoPrice == Funnel.Count(os, NoRetailPrice)
    requires itemsWithoutTags == Funnel.Count(os, NoTags)
    requires itemsWithoutDateTags == Funnel.Count(os, NoDateTag)
    ensures itemsToDiscount' == Funnel.Emitted(os + [outcome])
    ensures itemsSkippedNoPrice' == Funnel.Count(os + [outcome], NoRetailPrice)
    ensures itemsWithoutTags' == Funnel.Count(os + [outcome], NoTags)
    ensures itemsWithoutDateTags' == Funnel.Count(os + [outcome], NoDateTag)
  {
    Funnel.Snoc(os, outcome, NoRetailPrice);
    Funnel.Snoc(os, outcome, NoTags);
    Funnel.Snoc(os, outcome, NoDateTag);
    itemsToDiscount', itemsSkippedNoPrice', itemsWithoutTags', itemsWithoutDateTags' :=
      itemsToDiscount, itemsSkippedNoPrice, itemsWithoutTags, itemsWithoutDateTags;
    match outcome {
      case Skip(NoRetailPrice) => itemsSkippedNoPrice' := itemsSkippedNoPrice + 1;
      case Skip(NoTags) => itemsWithoutTags' := itemsWithoutTags + 1;
      case Skip(NoDateTag) => itemsWithoutDateTags' := itemsWithoutDateTags + 1;
      case Skip(NotYetAged) =>
      case Emit(rec) => itemsToDiscount' := itemsToDiscount + [rec];
    }
  }

  /** The analysis loop of `process_aged_items`: `today` is the day ordinal of
      the run's date.  Each product bumps the counter of its skip bucket or
      appends its record; products not yet old enough bump nothing. */
  method ProcessAgedItems(products: seq<Product>, allTags: map<string, string>, cfg: Config, today: int)
    returns (itemsToDiscount: seq<DiscountRecord>, itemsSkippedNoPrice: nat, itemsWithoutTags: nat, itemsWithoutDateTags: nat)
    ensures var os := Outcomes(products, allTags, cfg, today);
      && itemsToDiscount == Funnel.Emitted(os)
      && itemsSkippedNoPrice == Funnel.Count(os, NoRetailPrice)
      && itemsWithoutTags == Funnel.Count(os, NoTags)
      && itemsWithoutDateTags == Funnel.Count(os, NoDateTag)
  {
    itemsToDiscount := [];
    itemsWithoutTags, itemsWithoutDateTags, itemsSkippedNoPrice := 0, 0, 0;
    var i := 0;
    ghost var os: seq<Outcome> := [];
    while i < |products|
      invariant 0 <= i <= |products|
      invariant os == Outcomes(products[..i], allTags, cfg, today)
      invariant itemsToDiscount == Funnel.Emitted(os)
      invariant itemsSkippedNoPrice == Funnel.Count(os, NoRetailPrice)
      invariant itemsWithoutTags == Funnel.Count(os, NoTags)
      invariant itemsWithoutDateTags == Funnel.Count(os, NoDateTag)
    {
      var outcome := AnalyzeProduct(products[i], allTags, cfg, today);
      itemsToDiscount, itemsSkippedNoPrice, itemsWithoutTags, itemsWithoutDateTags :=
        Tally(os, outcome, itemsToDiscount, itemsSkippedNoPrice, itemsWithoutTags, itemsWithoutDateTags);
      OutcomesSnoc(products, i, allTags, cfg, today);
      os := os + [outcome];
      i := i + 1;
    }
    assert products[..i] == products;
  }

  /** One entry of a price-book PATCH payload. */
  datatype PriceBookProduct = PriceBookProduct(productId: Option<string>, retailPrice: int)

  /** The largest number of products the price-book endpoint takes at once. */
  const BatchSize: nat := 100

  function ToPriceBookProduct(r: DiscountRecord): PriceBookProduct {
    PriceBookProduct(r.id, r.clearancePrice)
  }

  /** Each record projected onto its product id and clearance price, in order. */
  function Project(rs: seq<DiscountRecord>): seq<PriceBookProduct> {
    seq(|rs|, k requires 0 <= k < |rs| => ToPriceBookProduct(rs[k]))
  }

  function Flatten(batches: seq<seq<PriceBookProduct>>): seq<PriceBookProduct> {
    if batches == [] then [] else Flatten(batches[..|batches| - 1]) + batches[|batches| - 1]
  }

  function Min(a: int, b: int): int {
    if a <= b then a else b
  }

  /** The payload of one batch: each record's product id and clearance price,
      appended in order. */
  method ProjectBatch(batch: seq<DiscountRecord>) returns (priceBookProducts: seq<PriceBookProduct>)
    ensures priceBookProducts == Project(batch)
  {
    priceBookProducts := [];
    var j := 0;
    while j < |batch|
      invariant 0 <= j <= |batch|
      invariant priceBookProducts == Project(batch[..j])
    {
      priceBookProducts := priceBookProducts + [ToPriceBookProduct(batch[j])];
      j := j + 1;
    }
    assert batch[..j] == batch;
  }

  lemma ProjectAppend(xs: seq<DiscountRecord>, ys: seq<DiscountRecord>)
    ensures Project(xs + ys) == Project(xs) + Project(ys)
  {
  }

  lemma FlattenSnoc(batches: seq<seq<PriceBookProduct>>, batch: seq<PriceBookProduct>)
    ensures Flatten(batches + [batch]) == Flatten(batches) + batch
  {
    assert (batches + [batch])[..|batches|] == batches;
  }

  /** Cutting `n > 0` records at every multiple of `BatchSize` gives
      `ceil(n / BatchSize)` slices, all non-empty and all full but the last. */
  lemma BatchShape(n: int, k: int)
    requires 0 < n && 0 < k && (k - 1) * BatchSize < n <= k * BatchSize
    ensures k == (n + BatchSize - 1) / BatchSize
    ensures forall b :: 0 <= b < k ==> 1 <= Min(b * BatchSize + BatchSize, n) - b * BatchSize <= BatchSize
    ensures forall b :: 0 <= b < k - 1 ==> Min(b * BatchSize + BatchSize, n) - b * BatchSize == BatchSize
  {
    forall b | 0 <= b < k ensures b * BatchSize < n {
      assert b * BatchSize <= (k - 1) * BatchSize;
    }
    forall b | 0 <= b < k - 1 ensures b * BatchSize + BatchSize < n {
      assert b * BatchSize + BatchSize <= (k - 1) * BatchSize;
    }
  }

  /** The payloads that `update_price_book_products` sends, one per PATCH.  An
      empty list sends nothing; otherwise consecutive slices of at most
      `BatchSize` records, all full but the last, each record projected once
      and in order, so that the payloads put together are the whole list. */
  method PriceBookBatches(productsToAdd: seq<DiscountRecord>) returns (batches: seq<seq<PriceBookProduct>>)
    ensures productsToAdd == [] ==> batches == []
    ensures Flatten(batches) == Project(productsToAdd)
    ensures |batches| == (|productsToAdd| + BatchSize - 1) / BatchSize
    ensures forall b :: 0 <= b < |batches| ==> 1 <= |batches[b]| <= BatchSize
    ensures forall b :: 0 <= b < |batches| - 1 ==> |batches[b]| == BatchSize
    ensures forall b :: 0 <= b < |batches| ==>
      batches[b] == Project(productsToAdd[b * BatchSize..Min(b * BatchSize + BatchSize, |productsToAdd|)])
  {
    batches := [];
    if productsToAdd == [] {
      return;
    }
    var n := |productsToAdd|;
    var i := 0;
    while i < n
      invariant i == |batches| * BatchSize
      invariant |batches| > 0 ==> i - BatchSize < n
      invariant Flatten(batches) == Project(productsToAdd[..Min(i, n)])
      invariant forall b :: 0 <= b < |batches| ==>
        batches[b] == Project(productsToAdd[b * BatchSize..Min(b * BatchSize + BatchSize, n)])
    {
      var hi := Min(i + BatchSize, n);
      var batch := productsToAdd[i..hi];
      var priceBookProducts := ProjectBatch(batch);
      assert productsToAdd[..hi] == productsToAdd[..i] + batch;
      ProjectAppend(productsToAdd[..i], batch);
      FlattenSnoc(batches, priceBookProducts);
      batches := batches + [priceBookProducts];
      i := i + BatchSize;
    }
    assert productsToAdd[..n] == productsToAdd;
    BatchShape(n, |batches|);
  }
}
