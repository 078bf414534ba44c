# Clearance-discount decision logic, modelled in Dafny

Two scripts mark down comic-book stock once it has been on sale for a while:

- `src/discount_manager.py` for Lightspeed X-Series;
- `comic-discount-automation/src/discount_manager.py` for Lightspeed Retail.

Both find a product's release date in a tag named like `new release-2025-10-15`. A product older than `DISCOUNT_DAYS` days gets a clearance price, `DISCOUNT_PERCENT` off its regular price.

This project models the part of the scripts that decides which items are marked down and to what:

- **The release-date tag parser** (`extract_date_from_tag`, the same in both scripts), in `TagDate`, over `Calendar`.
  - It searches for the leftmost occurrence of the literal prefix followed by `DDDD-DD-DD`, the `full-date` shape of section 5.6 of RFC 3339.
  - It then validates the triple as a proleptic Gregorian date: year 1..9999, and per-month day limits as in section 5.7 of RFC 3339.
  - It returns the date or `None`.
- **The X-Series analysis loop** (`process_aged_items`), in `XSeriesDiscount`.
  - It checks the price, then the tag list, then a date tag found through the tag directory, then the age.
  - Each check has its counter; the loop emits discount records.
- **The batching** of those records for the price-book update (`update_price_book_products`), in `XSeriesDiscount`: slices of at most 100, each record projected to its product id and clearance price.
- **The Retail analysis loop** (`process_aged_items`), in `RetailDiscount`: date tag first, then age, then the first Default price. Only a missing date tag is counted.
- **The Retail clearance-price update** (`update_item_clearance_price`), in `RetailDiscount`. Every price record of the clearance price type gets the discounted amount, in place. When there is none, a new clearance record is appended.

Conventions of the model:

- Money is in whole cents.
- `DISCOUNT_PERCENT` is in basis points (0.20 is 2000).
- `round(x, 2)` becomes the integer rounding `Pricing.RoundDiv`, halves away from zero.
- "Today" is a parameter: the day ordinal (`date.toordinal()`) of the run's date.
- A product's age is `today - Ordinal(release date)`.
- Each loop of the scripts is a Dafny `method` with loop invariants, proved against a specification function (`Classify`, `Outcomes`, `FirstDateTag`, `DefaultPrice`, `Project`, `Upserted`). The properties the scripts promise are lemmas about those functions.
- The tallies of both loops are over `Funnel.Outcome`: each item is either skipped for a reason or emitted with its record.

Modules:

- `Options`: option type.
- `Calendar`: dates, validity and ordinals.
- `TagDate`: the tag parser and first-date-tag selection.
- `Pricing`: settings and the clearance price.
- `Funnel`: outcome tallies.
- `XSeriesDiscount`: the X-Series script.
- `RetailDiscount`: the Retail script.

## Model

| member | source | states |
|---|---|---|
| Calendar.OrdinalOfFirstDay | src/discount_manager.py:308 | day numbering starts at 0001-01-01 as day 1, the first date `datetime` accepts |
| Calendar.NextDayOrdinal | src/discount_manager.py:308 | the day after a valid date is valid and has the next ordinal, so an ordinal difference is a count of whole days |
| Calendar.OrdinalWithinYear | src/discount_manager.py:308 | every valid date's ordinal lies strictly after all earlier years and within its own year |
| Calendar.OrdinalRespectsOrder | src/discount_manager.py:308 | ordinals follow calendar order in both directions, and two dates share an ordinal exactly when they are equal, so an age is positive exactly when the release date is earlier |
| Calendar.LeapDays | src/discount_manager.py:33-37 | `datetime` accepts 29 February only in Gregorian leap years (2024 and 2000, not 2023 or 1900), and rejects year 0, month 13 and 31 April |
| TagDate.FindMatch | src/discount_manager.py:28-32 | the search returns the first position, at or after the start, where the literal prefix is followed by four digits, `-`, two digits, `-`, two digits; `None` when there is no such position |
| TagDate.ExtractDate | src/discount_manager.py:23-38 | the parser returns only valid calendar dates |
| TagDate.ExtractDateSpec | src/discount_manager.py:28-38 | no match gives `None`; otherwise the result is decided by the leftmost match alone: its digits as (year, month, day) when they form a valid date, `None` when they do not |
| TagDate.ExtractFormatted | comic-discount-automation/src/discount_manager.py:29-39 | a tag made of the prefix, a date written `YYYY-MM-DD` and any suffix parses to exactly that date when it is a calendar date and to `None` otherwise, whatever the suffix holds |
| TagDate.PrefixIsLiteral | src/discount_manager.py:28-29 | the prefix is matched literally: prefix `a.b-` does not match `axb-2025-01-01` |
| TagDate.InvalidDateIsAbsent | src/discount_manager.py:33-37 | `new release-2025-13-40` parses to `None` instead of failing |
| TagDate.FirstDateTag | comic-discount-automation/src/discount_manager.py:210-218 | a selected tag starts with the prefix and parses to its (valid) date |
| TagDate.FirstDateTagIsFirst | comic-discount-automation/src/discount_manager.py:210-218 | no tag is selected exactly when no tag both starts with the prefix and parses; otherwise the selected one is the first such tag in list order, and later tags are ignored |
| Pricing.RoundDiv | src/discount_manager.py:313 | the result is within half a unit of `n / d`, with halves going away from zero |
| Pricing.RoundDivIsNearest | src/discount_manager.py:313 | no integer lies closer to `n / d` than the rounded result |
| Pricing.ClearanceBounds | src/discount_manager.py:313 | with a discount between 0 and 100 percent, the clearance price lies between 0 and the price |
| Pricing.ClearanceOfNineteenNinetyNine | comic-discount-automation/src/discount_manager.py:135 | 19.99 at 20 percent off is 15.99 |
| Funnel.EmittedAppend | src/discount_manager.py:313-323 | the emitted records of two runs put together are those of each run, in order |
| Funnel.EmittedMembers | src/discount_manager.py:313-323 | a record is emitted exactly when some outcome emits it |
| XSeriesDiscount.TaxInclusivePriceWins | src/discount_manager.py:272-281 | with the tax-inclusive price present and nonzero, the tax-exclusive price has no effect on the outcome, and a negative tax-inclusive price skips the product as priceless whatever the tax-exclusive price is |
| XSeriesDiscount.ZeroPriceIsUnset | src/discount_manager.py:272-281 | a tax-inclusive price of zero acts as an absent one, and a product with neither price present and nonzero is skipped as priceless |
| XSeriesDiscount.FirstDateTagById | src/discount_manager.py:291-301 | the date tag is the one of the first tag id, in `tag_ids` order, that is in the tag directory and whose name starts with the prefix and parses; ids missing from the directory are skipped |
| XSeriesDiscount.ClassifyCases | src/discount_manager.py:272-311 | the buckets, each by its own condition: price at most 0 first; then an empty tag list; then no id yielding a date tag; then emitted exactly when the age exceeds the threshold strictly, and not yet aged when it does not |
| XSeriesDiscount.FunnelAddsUp | src/discount_manager.py:325-330 | the four skip counts and the number of records add up to the number of products |
| XSeriesDiscount.EmittedRecordSound | src/discount_manager.py:291-323 | an emitted record carries the product's id, its name (`Unknown` when absent) and its price, which is positive; its date tag and release date are those of the product's first qualifying tag id; its age is strictly above the threshold and computed from that valid date; its clearance price is that of the price, between 0 and the price for a discount between 0 and 100 percent |
| XSeriesDiscount.DiscountRecordSound | src/discount_manager.py:257-323 | every record in the discount list comes from some product, has an age above the threshold from a valid date, a positive price and its clearance price |
| XSeriesDiscount.RecordsFollowInputOrder | src/discount_manager.py:257-323 | the records follow the product order: splitting the products splits the records the same way |
| XSeriesDiscount.FindDateTag | src/discount_manager.py:291-301 | the tag scan finds a date exactly when `FirstDateTag` of the resolved names does, and then returns its tag name and date |
| XSeriesDiscount.AnalyzeProduct | src/discount_manager.py:267-323 | one iteration's result is `Classify` of the product |
| XSeriesDiscount.Tally | src/discount_manager.py:279-323 | one iteration bumps exactly the counter of its bucket, or appends its record |
| XSeriesDiscount.ProcessAgedItems | src/discount_manager.py:257-330 | the discount list is the emitted records of `Outcomes`, in product order; each counter counts exactly its bucket |
| XSeriesDiscount.ProjectBatch | src/discount_manager.py:196-201 | one batch's payload is each record's id and clearance price, in order |
| XSeriesDiscount.BatchShape | src/discount_manager.py:188-192 | `n > 0` records cut at multiples of 100 give `ceil(n / 100)` non-empty slices, all full but the last |
| XSeriesDiscount.PriceBookBatches | src/discount_manager.py:183-201 | an empty list sends nothing; otherwise there are `ceil(n / 100)` payloads, each the projection of the next slice of at most 100 records, all full but the last, which together are the projection of the whole list |
| RetailDiscount.DefaultPriceIsFirst | comic-discount-automation/src/discount_manager.py:234-238 | there is a Default price exactly when some price record has use type `Default`, and it is the amount (missing reads as 0) of the first such record |
| RetailDiscount.ClassifyCases | comic-discount-automation/src/discount_manager.py:210-240 | an item is skipped as having no date tag exactly when none of its tags qualifies; not yet aged when its age does not exceed the threshold; without a Default price when it is old enough but has no positive first Default price; otherwise emitted |
| RetailDiscount.FunnelAddsUp | comic-discount-automation/src/discount_manager.py:220-249 | every item lands in exactly one of the three skip buckets or the discount list |
| RetailDiscount.EmittedItemSound | comic-discount-automation/src/discount_manager.py:201-249 | an emitted item carries the item's id, its description (`Unknown` when absent) and its own price list; its date tag and release date are those of the item's first qualifying tag; its age is strictly above the threshold and computed from that valid date; its original price is positive and is the first Default price of the list |
| RetailDiscount.DiscountItemSound | comic-discount-automation/src/discount_manager.py:200-249 | every entry of the discount list comes from some item, is old enough and has a positive first Default price |
| RetailDiscount.ItemsFollowInputOrder | comic-discount-automation/src/discount_manager.py:200-249 | emitted items keep the input order, and the count of items without a date tag adds up over the parts of the input |
| RetailDiscount.DefaultThreshold | comic-discount-automation/src/discount_manager.py:225-228 | with the default 14-day setting, an item exactly 14 days old is not yet aged, and one 15 days old with a positive Default price is emitted |
| RetailDiscount.FindDateTag | comic-discount-automation/src/discount_manager.py:210-218 | the tag scan finds a date exactly when `FirstDateTag` does, and then returns its tag name and date |
| RetailDiscount.FindDefaultPrice | comic-discount-automation/src/discount_manager.py:234-238 | the price scan returns the first Default price, `None` when no record is Default |
| RetailDiscount.AnalyzeItem | comic-discount-automation/src/discount_manager.py:201-249 | one iteration's result is `Classify` of the item |
| RetailDiscount.Tally | comic-discount-automation/src/discount_manager.py:220-249 | one iteration counts a missing date tag, or appends the emitted item, and does nothing else |
| RetailDiscount.ProcessAgedItems | comic-discount-automation/src/discount_manager.py:193-249 | the discount list is the emitted items in input order, and `items_skipped` counts exactly the items without a date tag |
| RetailDiscount.UpsertExisting | comic-discount-automation/src/discount_manager.py:141-147 | with a clearance record present, nothing is appended, the length is kept, and every clearance record (not only the first) gets the new amount |
| RetailDiscount.UpsertAppends | comic-discount-automation/src/discount_manager.py:149-154 | with no clearance record, the result is the unchanged list followed by exactly one record with the amount, the clearance type id and the clearance name |
| RetailDiscount.OtherPricesOfUpdated | comic-discount-automation/src/discount_manager.py:141-146 | setting the clearance amounts leaves the records of other types, in order, as they were |
| RetailDiscount.UpsertKeepsOthers | comic-discount-automation/src/discount_manager.py:141-154 | records of other price types are unchanged at their positions and keep their relative order |
| RetailDiscount.UpsertIdempotent | comic-discount-automation/src/discount_manager.py:135-154 | afterwards the list has a clearance record and all clearance records hold the new amount, so repeating the update changes nothing |
| RetailDiscount.UpdateItemClearancePrice | comic-discount-automation/src/discount_manager.py:135-154 | the list is changed in place to carry the clearance price of the original price in every clearance record; the returned list is the update-or-append result |

## Left out

- All HTTP traffic: fetching products, items and tags with pagination; getting or creating the price book and the clearance price type; the price-book PATCH and the item PUT with their JSON payloads; and the success and error tallies that depend on the server's answers. The model stops at the payloads (`PriceBookBatches`, `UpdateItemClearancePrice`). The returned `success` flag of `update_price_book_products` is not modelled either, apart from its "empty list returns at once" branch.
- Reading the environment and `datetime.now()`. The settings are a `Pricing.Config` parameter, with the default values in `Pricing.DefaultConfig`. Today's date is a day-ordinal parameter. Since release dates are at midnight, `.days` of the difference is the difference of the dates' ordinals. The scripts do no validation of the settings, and neither does the model.
- Floating point: prices are whole cents and the discount is in basis points. `Pricing.Clearance` rounds the exact value half away from zero, where Python's `round` works on the binary float (half to even, with representation error). Discounts finer than 0.01 percent are not representable.
- `RetailDiscount.UpdateItemClearancePrice`: the amount is written as `str(discounted_price)` in the script. The model stores the number of cents instead of the text.
- Prices given as strings by the API, and conversion errors: the model takes prices as numbers. `XSeriesDiscount.RetailPrice` uses Python truthiness on numbers. A tax-inclusive price string such as `"0.00"` is truthy in Python, so the script takes it, reads 0.0 and skips the product as priceless even when the tax-exclusive price is positive. The model reads it as 0 and falls through to the tax-exclusive price, so the skip is the same only when the tax-exclusive price is absent or zero. A Retail price record whose `amount` is present but null makes `float` raise in the script; the model reads it as 0.
- Unicode digits matched by `\d`: only ASCII digits are modelled.
- All `print` output.
- The normalisation of a single object into a one-element list (`isinstance(..., dict)`): tags and prices are sequences from the start.
- In the X-Series tag directory, a tag record counts as found exactly when its id is a key. Every record stored under an id holds that `id`, so it is never an empty dict. A missing `name` reads as the empty string. A `name` (src/discount_manager.py:296-297) or a Retail `tag` (comic-discount-automation/src/discount_manager.py:213-214) that is present but null makes the script raise `AttributeError` at `.startswith`; the model reads it as the empty string as well. A missing or null `tag_ids` is the empty sequence.
- Aliasing: the Retail script's discount list shares the price dictionaries of the fetched items, and the update mutates them. The model has the update work in place on an `array` of price records, and the caller's other references to those records are not modelled.
- The inner loops of both analysis loops are separate methods (`FindDateTag`, `FindDefaultPrice`, `AnalyzeProduct`, `AnalyzeItem`, `Tally`, `ProjectBatch`). The scripts have them inline, with `break` and `continue`.
- The Retail apply loop (comic-discount-automation/src/discount_manager.py:266-290) only calls the update for each entry of the discount list and counts the server's answers. Its unrounded printed price is output only.
