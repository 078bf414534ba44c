/** The decision logic of the Lightspeed Retail script
    (comic-discount-automation/src/discount_manager.py): the analysis loop of
    `process_aged_items`, which tests the date tag first, then the age, then the
    Default price, and the clearance-price update-or-append that
    `update_item_clearance_price` performs on an item's price list. */
module RetailDiscount {
  import opened Options
  import opened Calendar
  import opened TagDate
  import opened Pricing
  import Funnel

  /** One entry of an item's `Prices.ItemPrice` list; amounts are in cents and a
      key the record lacks is `None`. */
  datatype ItemPrice = ItemPrice(amount: Option<int>, useTypeId: Option<string>, useType: Option<string>)

  /** An item with its tags (the `tag` of each `ItemTag`, "" when absent) and prices. */
  datatype Item = Item(itemId: Option<string>, description: Option<string>, tags: seq<string>, prices: seq<ItemPrice>)

  /** One entry of `items_to_discount`. */
  datatype DiscountItem = DiscountItem(
    id: Option<string>,
    description: string,
    daysOld: int,
    originalPrice: int,
    releaseDate: Date,
    dateTag: string,
    existingPrices: seq<ItemPrice>)

  /** Only `NoDateTag` has a counter (`items_skipped`); the other two are
      passed over silently. */
  datatype SkipReason = NoDateTag | NotYetAged | NoDefaultPrice

  type Outcome = Funnel.Outcome<SkipReason, DiscountItem>

  const UnknownDescription: string := "Unknown"
  const DefaultUseType: string := "Default"

  predicate IsDefaultPrice(p: ItemPrice) {
    p.useType == Some(DefaultUseType)
  }

  /** The amount of the first price whose use type is Default, a missing amount
      reading as 0; `None` when no price is Default. */
  function DefaultPrice(prices: seq<ItemPrice>): Option<int> {
    if prices == [] then None
    else if IsDefaultPrice(prices[0]) then Some(prices[0].amount.GetOr(0))
    else DefaultPrice(prices[1..])
  }

  /** `DefaultPrice` finds an amount exactly when some price is Default, and it
      is the amount of the first such price. */
  lemma {:induction false} DefaultPriceIsFirst(prices: seq<ItemPrice>)
    ensures DefaultPrice(prices).None? <==> forall k :: 0 <= k < |prices| ==> !IsDefaultPrice(prices[k])
    ensures DefaultPrice(prices).Some? ==>
      exists k :: 0 <= k < |prices| && IsDefaultPrice(prices[k]) && DefaultPrice(prices) == Some(prices[k].amount.GetOr(0))
                  && forall j :: 0 <= j < k ==> !IsDefaultPrice(prices[j])
  {
    if prices != [] && !IsDefaultPrice(prices[0]) {
      var rest := prices[1..];
      DefaultPriceIsFirst(rest);
      if DefaultPrice(rest).Some? {
        var k :| 0 <= k < |rest| && IsDefaultPrice(rest[k]) && DefaultPrice(rest) == Some(rest[k].amount.GetOr(0))
                 && forall j :: 0 <= j < k ==> !IsDefaultPrice(rest[j]);
        assert prices[k + 1] == rest[k];
        forall j | 0 <= j < k + 1 ensures !IsDefaultPrice(prices[j]) {
          if j > 0 { assert prices[j] == rest[j - 1]; }
        }
      } else {
        forall k | 0 <= k < |prices| ensures !IsDefaultPrice(prices[k]) {
          if k > 0 { assert prices[k] == rest[k - 1]; }
        }
      }
    }
  }

  /** What happens to one item in the analysis loop. */
  function Classify(item: Item, cfg: Config, today: int): Outcome {
    match FirstDateTag(item.tags, cfg.tagPrefix)
    case None => Funnel.Skip(NoDateTag)
    case Some(t) =>
      var daysOld := today - Ordinal(t.date);
      if daysOld > cfg.discountDays then
        var defaultPrice := DefaultPrice(item.prices);
        if defaultPrice.Some? && defaultPrice.value > 0 then
          Funnel.Emit(DiscountItem(item.itemId, item.description.GetOr(UnknownDescription), daysOld,
                                   defaultPrice.value, t.date, t.name, item.prices))
        else Funnel.Skip(NoDefaultPrice)
      else Funnel.Skip(NotYetAged)
  }

  function Outcomes(items: seq<Item>, cfg: Config, today: int): seq<Outcome> {
    seq(|items|, i requires 0 <= i < |items| => Classify(items[i], cfg, today))
  }

  /** The buckets of one item: no date tag at all (the only counted skip), a
      date tag not older than the threshold, or old enough but without a
      positive Default price; otherwise the item is emitted. */
  lemma ClassifyCases(item: Item, cfg: Config, today: int)
    ensures Classify(item, cfg, today) == Funnel.Skip(NoDateTag) <==>
      forall k :: 0 <= k < |item.tags| ==> !IsDateTag(item.tags[k], cfg.tagPrefix)
    ensures var t := FirstDateTag(item.tags, cfg.tagPrefix);
      Classify(item, cfg, today) == Funnel.Skip(NotYetAged) <==>
        t.Some? && today - Ordinal(t.value.date) <= cfg.discountDays
    ensures var t := FirstDateTag(item.tags, cfg.tagPrefix);
      Classify(item, cfg, today) == Funnel.Skip(NoDefaultPrice) <==>
        t.Some? && today - Ordinal(t.value.date) > cfg.discountDays
        && (DefaultPrice(item.prices).None? || DefaultPrice(item.prices).value <= 0)
    ensures var t := FirstDateTag(item.tags, cfg.tagPrefix);
      Classify(item, cfg, today).Emit? <==>
        t.Some? && today - Ordinal(t.value.date) > cfg.discountDays
        && DefaultPrice(item.prices).Some? && DefaultPrice(item.prices).value > 0
  {
    FirstDateTagIsFirst(item.tags, cfg.tagPrefix);
  }

  /** Every item lands in exactly one bucket. */
  lemma {:induction false} FunnelAddsUp(os: seq<Outcome>)
    ensures Funnel.Count(os, NoDateTag) + Funnel.Count(os, NotYetAged) + Funnel.Count(os, NoDefaultPrice)
            + |Funnel.Emitted(os)| == |os|
  {
    if os != [] {
      var last := os[|os| - 1];
      FunnelAddsUp(os[..|os| - 1]);
      match last
      case Skip(r) =>
        assert r == NoDateTag || r == NotYetAged || r == NoDefaultPrice;
      case Emit(_) =>
    }
  }

  /** What an emitted item carries: an age strictly above the threshold from a
      valid release date found in its date tag, and a positive original price
      that is the first Default price of the item's own price list. */
  lemma EmittedItemSound(item: Item, cfg: Config, today: int, rec: DiscountItem)
    requires Classify(item, cfg, today) == Funnel.Emit(rec)
    ensures rec.daysOld > cfg.discountDays && rec.originalPrice > 0
    ensures IsValidDate(rec.releaseDate) && rec.daysOld == today - Ordinal(rec.releaseDate)
    ensures StartsWith(rec.dateTag, cfg.tagPrefix) && ExtractDate(rec.dateTag, cfg.tagPrefix) == Some(rec.releaseDate)
    ensures DefaultPrice(rec.existingPrices) == Some(rec.originalPrice)
    ensures rec.id == item.itemId && rec.existingPrices == item.prices
    ensures rec.description == item.description.GetOr(UnknownDescription)
    ensures FirstDateTag(item.tags, cfg.tagPrefix) == Some(DateTag(rec.dateTag, rec.releaseDate))
  {
  }

  /** Every item of the discount list is sound in the sense of
      `EmittedItemSound` for some scanned item. */
  lemma DiscountItemSound(items: seq<Item>, cfg: Config, today: int, rec: DiscountItem)
    requires rec in Funnel.Emitted(Outcomes(items, cfg, today))
    ensures exists i :: 0 <= i < |items| && Classify(items[i], cfg, today) == Funnel.Emit(rec)
    ensures rec.daysOld > cfg.discountDays && rec.originalPrice > 0
    ensures IsValidDate(rec.releaseDate) && rec.daysOld == today - Ordinal(rec.releaseDate)
    ensures DefaultPrice(rec.existingPrices) == Some(rec.originalPrice)
  {
    var os := Outcomes(items, cfg, today);
    Funnel.EmittedMembers(os, rec);
    var i :| 0 <= i < |os| && os[i] == Funnel.Emit(rec);
    assert Classify(items[i], cfg, today) == Funnel.Emit(rec);
    EmittedItemSound(items[i], cfg, today, rec);
  }

  /** The emitted items follow the input order, and `items_skipped` of a
      list is the sum over its parts. */
  lemma ItemsFollowInputOrder(xs: seq<Item>, ys: seq<Item>, cfg: Config, today: int)
    ensures Funnel.Emitted(Outcomes(xs + ys, cfg, today))
         == Funnel.Emitted(Outcomes(xs, cfg, today)) + Funnel.Emitted(Outcomes(ys, cfg, today))
    ensures Funnel.Count(Outcomes(xs + ys, cfg, today), NoDateTag)
         == Funnel.Count(Outcomes(xs, cfg, today), NoDateTag) + Funnel.Count(Outcomes(ys, cfg, today), NoDateTag)
  {
    assert Outcomes(xs + ys, cfg, today) == Outcomes(xs, cfg, today) + Outcomes(ys, cfg, today);
    Funnel.EmittedAppend(Outcomes(xs, cfg, today), Outcomes(ys, cfg, today));
    Funnel.CountAppend(Outcomes(xs, cfg, today), Outcomes(ys, cfg, today), NoDateTag);
  }

  /** With the default settings an item whose date tag is exactly 14 days old
      is not yet aged, and one 15 days old with a positive Default price is
      emitted. */
  lemma DefaultThreshold(item: Item, today: int)
    requires FirstDateTag(item.tags, DefaultConfig.tagPrefix).Some?
    ensures var t := FirstDateTag(item.tags, DefaultConfig.tagPrefix).value;
      today - Ordinal(t.date) == 14 ==> Classify(item, DefaultConfig, today) == Funnel.Skip(NotYetAged)
    ensures var t := FirstDateTag(item.tags, DefaultConfig.tagPrefix).value;
      today - Ordinal(t.date) == 15 && DefaultPrice(item.prices).Some? && DefaultPrice(item.prices).value > 0 ==>
        Classify(item, DefaultConfig, today).Emit?
  {
  }

  lemma OutcomesSnoc(items: seq<Item>, i: nat, cfg: Config, today: int)
    requires i < |items|
    ensures Outcomes(items[..i + 1], cfg, today) == Outcomes(items[..i], cfg, today) + [Classify(items[i], cfg, today)]
  {
  }

  /** The tag loop: the first tag whose name starts with the prefix and parses
      to a date. */
  method FindDateTag(itemTags: seq<string>, prefix: string) returns (releaseDate: Option<Date>, dateTag: string)
    ensures releaseDate.None? <==> FirstDateTag(itemTags, prefix).None?
    ensures releaseDate.Some? ==> FirstDateTag(itemTags, prefix) == Some(DateTag(dateTag, releaseDate.value))
  {
    releaseDate, dateTag := None, "";
    var j := 0;
    while j < |itemTags|
      invariant 0 <= j <= |itemTags| && releaseDate.None?
      invariant FirstDateTag(itemTags, prefix) == FirstDateTag(itemTags[j..], prefix)
    {
      var tagName := itemTags[j];
      assert itemTags[j..] == [tagName] + itemTags[j + 1..];
      FirstDateTagCons(tagName, itemTags[j + 1..], prefix);
      if StartsWith(tagName, prefix) {
        releaseDate := ExtractDate(tagName, prefix);
        if releaseDate.Some? {
          dateTag := tagName;
          return;
        }
      }
      j := j + 1;
    }
  }

  /** The price loop: the amount of the first Default price, 0 when it has none. */
  method FindDefaultPrice(prices: seq<ItemPrice>) returns (defaultPrice: Option<int>)
    ensures defaultPrice == DefaultPrice(prices)
  {
    defaultPrice := None;
    var j := 0;
    while j < |prices|
      invariant 0 <= j <= |prices|
      invariant DefaultPrice(prices) == DefaultPrice(prices[j..])
    {
      var price := prices[j];
      assert prices[j..][0] == price && prices[j..][1..] == prices[j + 1..];
      if price.useType == Some(DefaultUseType) {
        defaultPrice := Some(price.amount.GetOr(0));
        return;
      }
      j := j + 1;
    }
  }

  /** The body of the analysis loop for one item. */
  method AnalyzeItem(item: Item, cfg: Config, today: int) returns (outcome: Outcome)
    ensures outcome == Classify(item, cfg, today)
  {
    var releaseDate, dateTag := FindDateTag(item.tags, cfg.tagPrefix);
    if releaseDate.None? {
      return Funnel.Skip(NoDateTag);
    }
    var daysOld := today - Ordinal(releaseDate.value);
    if daysOld > cfg.discountDays {
      var defaultPrice := FindDefaultPrice(item.prices);
      if defaultPrice.Some? && defaultPrice.value > 0 {
        outcome := Funnel.Emit(DiscountItem(item.itemId, item.description.GetOr(UnknownDescription), daysOld,
                                            defaultPrice.value, releaseDate.value, dateTag, item.prices));
      } else {
        outcome := Funnel.Skip(NoDefaultPrice);
      }
    } else {
      outcome := Funnel.Skip(NotYetAged);
    }
  }

  /** The bookkeeping at the end of one iteration: count a missing date tag,
      or append the item to the discount list. */
  method Tally(ghost os: seq<Outcome>, outcome: Outcome, itemsToDiscount: seq<DiscountItem>, itemsSkipped: nat)
    returns (itemsToDiscount': seq<DiscountItem>, itemsSkipped': nat)
    requires itemsToDiscount == Funnel.Emitted(os) && itemsSkipped == Funnel.Count(os, NoDateTag)
    ensures itemsToDiscount' == Funnel.Emitted(os + [outcome])
    ensures itemsSkipped' == Funnel.Count(os + [outcome], NoDateTag)
  {
    Funnel.Snoc(os, outcome, NoDateTag);
    itemsToDiscount', itemsSkipped' := itemsToDiscount, itemsSkipped;
    match outcome {
      case Skip(NoDateTag) => itemsSkipped' := itemsSkipped + 1;
      case Skip(NotYetAged) =>
      case Skip(NoDefaultPrice) =>
      case Emit(rec) => itemsToDiscount' := itemsToDiscount + [rec];
    }
  }

  /** The analysis loop of `process_aged_items`: `today` is the day ordinal of
      the run's date; `items_skipped` counts exactly the items without a date tag. */
  method ProcessAgedItems(items: seq<Item>, cfg: Config, today: int)
    returns (itemsToDiscount: seq<DiscountItem>, itemsSkipped: nat)
    ensures itemsToDiscount == Funnel.Emitted(Outcomes(items, cfg, today))
    ensures itemsSkipped == Funnel.Count(Outcomes(items, cfg, today), NoDateTag)
  {
    itemsToDiscount, itemsSkipped := [], 0;
    var i := 0;
    ghost var os: seq<Outcome> := [];
    while i < |items|
      invariant 0 <= i <= |items|
      invariant os == Outcomes(items[..i], cfg, today)
      invariant itemsToDiscount == Funnel.Emitted(os)
      invariant itemsSkipped == Funnel.Count(os, NoDateTag)
    {
      var outcome := AnalyzeItem(items[i], cfg, today);
      itemsToDiscount, itemsSkipped := Tally(os, outcome, itemsToDiscount, itemsSkipped);
      OutcomesSnoc(items, i, cfg, today);
      os := os + [outcome];
      i := i + 1;
    }
    assert items[..i] == items;
  }

  // ---------------------------------------------------------------------
  // update_item_clearance_price: the local price-list update

  /** A price record of the clearance price type (`useTypeID == str(id)`). */
  predicate IsClearancePrice(p: ItemPrice, clearanceTypeId: string) {
    p.useTypeId == Some(clearanceTypeId)
  }

  predicate HasClearancePrice(prices: seq<ItemPrice>, clearanceTypeId: string) {
    exists k :: 0 <= k < |prices| && IsClearancePrice(prices[k], clearanceTypeId)
  }

  /** Every clearance record's amount set to `amount`, the others untouched. */
  function WithClearanceAmount(prices: seq<ItemPrice>, clearanceTypeId: string, amount: int): seq<ItemPrice> {
    seq(|prices|, k requires 0 <= k < |prices| =>
      if IsClearancePrice(prices[k], clearanceTypeId) then prices[k].(amount := Some(amount)) else prices[k])
  }

  /** The updated price list: the list with its clearance amounts set when it
      has a clearance record, otherwise the list with a new clearance record
      appended. */
  function Upserted(prices: seq<ItemPrice>, clearanceTypeId: string, clearanceName: string, amount: int): seq<ItemPrice> {
    var updated := WithClearanceAmount(prices, clearanceTypeId, amount);
    if HasClearancePrice(prices, clearanceTypeId) then updated
    else updated + [ItemPrice(Some(amount), Some(clearanceTypeId), Some(clearanceName))]
  }

  /** The records of other price types, in order. */
  function OtherPrices(prices: seq<ItemPrice>, clearanceTypeId: string): seq<ItemPrice> {
    if prices == [] then []
    else OtherPrices(prices[..|prices| - 1], clearanceTypeId)
         + (if IsClearancePrice(prices[|prices| - 1], clearanceTypeId) then [] else [prices[|prices| - 1]])
  }

  /** With a clearance record present, every such record gets the new amount
      (not only the first), nothing is appended and the length is kept. */
  lemma UpsertExisting(prices: seq<ItemPrice>, clearanceTypeId: string, clearanceName: string, amount: int)
    requires HasClearancePrice(prices, clearanceTypeId)
    ensures var r := Upserted(prices, clearanceTypeId, clearanceName, amount);
      && |r| == |prices|
      && forall k :: 0 <= k < |prices| && IsClearancePrice(prices[k], clearanceTypeId) ==>
           r[k] == prices[k].(amount := Some(amount))
  {
  }

  /** Without a clearance record, exactly one record with the amount, the
      clearance type id and its name is appended at the end, after the
      unchanged list. */
  lemma UpsertAppends(prices: seq<ItemPrice>, clearanceTypeId: string, clearanceName: string, amount: int)
    requires !HasClearancePrice(prices, clearanceTypeId)
    ensures var r := Upserted(prices, clearanceTypeId, clearanceName, amount);
      r == prices + [ItemPrice(Some(amount), Some(clearanceTypeId), Some(clearanceName))]
  {
    var updated := WithClearanceAmount(prices, clearanceTypeId, amount);
    assert updated == prices by {
      forall k | 0 <= k < |prices| ensures updated[k] == prices[k] {
        assert !IsClearancePrice(prices[k], clearanceTypeId);
      }
    }
  }

  lemma {:induction false} OtherPricesOfUpdated(prices: seq<ItemPrice>, clearanceTypeId: string, amount: int)
    ensures OtherPrices(WithClearanceAmount(prices, clearanceTypeId, amount), clearanceTypeId)
         == OtherPrices(prices, clearanceTypeId)
  {
    if prices != [] {
      var init := prices[..|prices| - 1];
      var u := WithClearanceAmount(prices, clearanceTypeId, amount);
      assert u[..|u| - 1] == WithClearanceAmount(init, clearanceTypeId, amount);
      OtherPricesOfUpdated(init, clearanceTypeId, amount);
    }
  }

  /** Records of other price types are never changed and keep their relative
      order; the appended record, if any, is a clearance record. */
  lemma UpsertKeepsOthers(prices: seq<ItemPrice>, clearanceTypeId: string, clearanceName: string, amount: int)
    ensures var r := Upserted(prices, clearanceTypeId, clearanceName, amount);
      && (forall k :: 0 <= k < |prices| && !IsClearancePrice(prices[k], clearanceTypeId) ==> r[k] == prices[k])
      && OtherPrices(r, clearanceTypeId) == OtherPrices(prices, clearanceTypeId)
  {
    var u := WithClearanceAmount(prices, clearanceTypeId, amount);
    OtherPricesOfUpdated(prices, clearanceTypeId, amount);
    if !HasClearancePrice(prices, clearanceTypeId) {
      var r := Upserted(prices, clearanceTypeId, clearanceName, amount);
      assert r[..|r| - 1] == u;
    }
  }

  /** After the update the list has a clearance record and every clearance
      record holds the new amount, so updating again changes nothing. */
  lemma UpsertIdempotent(prices: seq<ItemPrice>, clearanceTypeId: string, clearanceName: string, amount: int)
    ensures var r := Upserted(prices, clearanceTypeId, clearanceName, amount);
      && HasClearancePrice(r, clearanceTypeId)
      && (forall k :: 0 <= k < |r| && IsClearancePrice(r[k], clearanceTypeId) ==> r[k].amount == Some(amount))
      && Upserted(r, clearanceTypeId, clearanceName, amount) == r
  {
    var r := Upserted(prices, clearanceTypeId, clearanceName, amount);
    if HasClearancePrice(prices, clearanceTypeId) {
      var k :| 0 <= k < |prices| && IsClearancePrice(prices[k], clearanceTypeId);
      assert IsClearancePrice(r[k], clearanceTypeId);
    } else {
      assert IsClearancePrice(r[|r| - 1], clearanceTypeId);
    }
    var rr := WithClearanceAmount(r, clearanceTypeId, amount);
    assert rr == r by {
      forall k | 0 <= k < |r| ensures rr[k] == r[k] { }
    }
  }

  /** `update_item_clearance_price` up to the PUT request: the discounted price
      is written into every clearance record of the item's price list in place
      (the script mutates those records), and the list to send is built by
      appending each record, plus a new clearance record when none existed. */
  method UpdateItemClearancePrice(existingPrices: array<ItemPrice>, originalPrice: int,
                                  clearanceTypeId: string, clearanceName: string, cfg: Config)
    returns (updatedPrices: seq<ItemPrice>)
    modifies existingPrices
    ensures var amount := Clearance(originalPrice, cfg.discountBasisPoints);
      && existingPrices[..] == WithClearanceAmount(old(existingPrices[..]), clearanceTypeId, amount)
      && updatedPrices == Upserted(old(existingPrices[..]), clearanceTypeId, clearanceName, amount)
  {
    var discountedPrice := Clearance(originalPrice, cfg.discountBasisPoints);
    ghost var before := existingPrices[..];
    ghost var target := WithClearanceAmount(before, clearanceTypeId, discountedPrice);
    var clearanceExists := false;
    updatedPrices := [];
    var k := 0;
    while k < existingPrices.Length
      invariant 0 <= k <= existingPrices.Length
      invariant existingPrices[..k] == target[..k]
      invariant existingPrices[k..] == before[k..]
      invariant updatedPrices == target[..k]
      invariant clearanceExists <==> exists j :: 0 <= j < k && IsClearancePrice(before[j], clearanceTypeId)
    {
      assert existingPrices[k] == before[k];
      if existingPrices[k].useTypeId == Some(clearanceTypeId) {
        existingPrices[k] := existingPrices[k].(amount := Some(discountedPrice));
        clearanceExists := true;
      }
      updatedPrices := updatedPrices + [existingPrices[k]];
      assert target[..k + 1] == target[..k] + [target[k]];
      k := k + 1;
    }
    assert existingPrices[..] == existingPrices[..k] && target[..k] == target;
    if !clearanceExists {
      updatedPrices := updatedPrices + [ItemPrice(Some(discountedPrice), Some(clearanceTypeId), Some(clearanceName))];
    }
  }
}
