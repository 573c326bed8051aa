# Proof-of-quality scoring and score codec, in Dafny

This project models the quality proof of the Prime Insights data-contribution proof. It covers the following:

- **Metric extractors.** Seven extractors turn the rows of each recognised Amazon/Audible/Prime Video CSV export into a metadata summary: counts, distinct values, tallies and a date range.
- **Score calculators.** Seven calculators turn a summary into `(is_valid, score, reasons)`. Each is a weighted sum of clamped logarithmic sub-scores and zero-guarded ratios, scaled by a time-decay weight.
- **Network profiles.** The two profiles (`satori`, `mainnet`) hold the thresholds.
- **The per-file step.** It runs the LLM evaluator only for a valid file when an API key is configured. The evaluator's answers are an input.
- **Score table.** The step keeps the two scores of every recognised file.
- **Score codec.** It quantises each score to a byte and writes 2 lower-case hex characters per score: all metadata scores, then all validation scores. It lays the table out in the fixed order of the eight interesting files, and decodes it back. The parallel big-endian 2-byte codec is modelled as well.
- **Uniqueness fingerprint.** The row normalisation and feature extraction behind it: strip, lower-case, drop three keys, collect products and categories, and sum amounts and quantities with the lenient number parsers.

## Modules

- `wrappers.dfy` holds `Option`, `Result` and the error values, one per exception the source raises.
- `pytext.dfy` holds the Python text operations the source relies on. These are `str.strip` (whitespace or quotes), `str.lower`, `str.replace(c, '')`, `str.isdigit`, `int()` on decimal text (sign, digits and `_` separators) and `int(s, 16)` on the 1-2 character chunks the decoder reads.
- `config.dfy` holds the file registry (`INTERESTING_FILES`), the two profiles, `DATA_TYPE_MAP`, `WEIGHT_PER_FILE` and `get_validation_config`.
- `quality_utils.dfy` holds `parse_float`, `parse_date`, `calculate_time_weight` and `calculate_log_score`.
  - Python's `float()`, `strptime` and `np.log1p` are fields of a `Runtime` value.
  - `log1p` is only required to be positive on positive arguments, and monotone where a lemma says so.
- `analyzers.dfy` holds `analyze_data` and the seven `analyze_*_data` extractors.
  - Rows are `map<string, string>`. A missing column is a `MissingField` failure, which stands for Python's `KeyError`.
  - `Counter` is a multiset.
  - The digital-items date loop is a method proved against a recursive specification.
- `calculators.dfy` holds `calculate_score` and the seven `calculate_*_score` rules.
- `codec.dfy` holds `quantize_scores`, `pack_scores`/`unpack_scores`, `pack_scores_to_bytes` and `unpack_scores_from_bytes`.
  - Each loop of the source is a method.
  - Each method is proved equal to a function whose round trip is proved.
- `quality.dfy` holds the evaluator's averaging, the per-file step of `process_single_file`, `calculate_weighted_scores`, `post_process_scores` and `post_process_decode`, with the encode/decode laws.
- `uniqueness.dfy` holds `DataProcessor.read_and_normalize_csv` (its normalisation), `extract_features`, `parse_int` and `parse_float`. Both copies of `data_processor.py` are the same text, so one model covers both.

Dates are `Instant`s, integers on a microsecond clock. A day count is floor division, as Python's `timedelta.days` is. The current date is the parameter `now`.

Where the source and its written description disagree, the model follows the source:

- Quantisation is `int(score * 255)`, truncation with no clamp. A score of 256/255 or more quantises above 255, and then `pack_scores` raises. A score in (1, 256/255) still quantises to 255 and packs without error. An example is a validation mean of 1.00333 from the answers 100, 100 and 101. Neither the source nor this model clamps the score.
- The evaluator turns only the replies its `except` names (invalid JSON, no "score" key, a text `int()` rejects) into `(False, 0.0)`. Any other exception propagates. Examples are a transport failure, or a reply such as `{"score": null}` or `[85]`, for which `int(score_data["score"])` raises TypeError (`validators.py` 57-60). So `evaluation` is a `Result` that the per-file step passes on, and such a reply is a failure of it.
- The packed record is 1 byte (2 hex characters) per score, as `pack_scores` writes it with `f"{score:02x}"`. Some text in `__init__.py` says otherwise: the `quantize_scores` docstring ("uint16 range", line 76), the comments in `pack_scores` and `unpack_scores` (lines 165 and 199), and the `post_process_scores` docstring (2 bytes per score, lines 274-275). All of them speak of uint16 values or 2 bytes per score. Only the separate byte codec (`struct.pack('>H', …)`) really writes 2 bytes per score.

## Model

| member | source | states |
|---|---|---|
| Config.RuleOf | my_proof/proof_of_quality/score_calculators.py:22-42 | a file name has a scoring rule iff it is one of the eight interesting files; the two order-history names, and only they, share the order-history rule |
| Config.InterestingFilesDistinct | my_proof/proof_of_quality/config.py:92-101 | there are exactly eight interesting files and they are pairwise distinct, so each has one wire position |
| Config.Position | my_proof/proof_of_quality/config.py:92-101 | every interesting file has a position below eight at which the registry holds it |
| Config.GetValidationConfig | my_proof/proof_of_quality/config.py:125-126 | the lookup succeeds iff `network` is set to `satori` or `mainnet`, and then returns that profile; otherwise it fails |
| Config.ProfilesDefineRequiredSettings | my_proof/proof_of_quality/config.py:21-89 | every profile the lookup returns defines THRESHOLD_SCORE (10 or 15) and SAMPLE_SIZE, so the unguarded reads of them never fail |
| Config.OrderHistoryFloorsAgree | my_proof/proof_of_quality/config.py:68-69 | only mainnet sets MIN_DATA_TIME and MIN_PURCHASES_PER_WEEK; with the calculator's defaults both networks use 1825 days and 3 per week |
| Config.Setting | my_proof/proof_of_quality/score_calculators.py:45-47 | `validation_config.get(key, default)` is the profile's own value when it sets the key, and the default only when it does not |
| Config.DateRangeFloors | my_proof/proof_of_quality/config.py:45-81 | both profiles set MIN_DATE_RANGE_DAYS, 1 on satori and 7 on mainnet, so the calculators' defaults for it never apply |
| Config.TablesCoverRegistry | my_proof/proof_of_quality/config.py:103-123 | DATA_TYPE_MAP and WEIGHT_PER_FILE have exactly the registry's names as keys; both order-history files map to "Retail Order History" |
| QualityUtils.Clamp01 | my_proof/proof_of_quality/utils.py:115 | the clamp lies in [0,1], is the identity on [0,1] and is 0 at or below 0 |
| QualityUtils.ParseFloatKeepsCommas | my_proof/proof_of_quality/utils.py:24-30 | parse_float strips only quotes: a comma in the text survives into what float() is given |
| QualityUtils.ParseFloat | my_proof/proof_of_quality/utils.py:24-30 | parse_float gives what float() returns for the text with quotes stripped from both ends, and 0.0 when float() raises |
| QualityUtils.DaysBetween | my_proof/proof_of_quality/utils.py:52 | `.days` is the floor of the difference in days: d whole days ≤ later − earlier < d + 1 days; it is non-negative iff later is not before earlier |
| QualityUtils.FirstMatch | my_proof/proof_of_quality/utils.py:34-38 | the search fails iff no format matches, and otherwise returns the result of the first format that matches |
| QualityUtils.ParseDate | my_proof/proof_of_quality/utils.py:39 | a failed parse reports the text that no format accepted |
| QualityUtils.ParseDateFirstFormat | my_proof/proof_of_quality/utils.py:32-39 | parse_date fails iff none of the five formats matches; on success it returns the result of the first matching format in listed order |
| QualityUtils.TimeWeight | my_proof/proof_of_quality/utils.py:41-67 | the weight lies in [0,1]; no latest date gives (0.0, 0); otherwise the age is the day count from latest to now, and a negative age gives weight 0 |
| QualityUtils.TimeWeightFresh | my_proof/proof_of_quality/utils.py:58-67 | age 0 gives weight 1.0 |
| QualityUtils.TimeWeightExpired | my_proof/proof_of_quality/utils.py:58-67 | any age of at least four years gives weight 0.0 |
| QualityUtils.TimeWeightNonIncreasing | my_proof/proof_of_quality/utils.py:58-67 | among dates not in the future, an older latest date never gets a larger weight |
| QualityUtils.LogScore | my_proof/proof_of_quality/utils.py:95-115 | the log score lies in [0,1] and is 0.0 whenever the value or the minimum is at most 0 |
| QualityUtils.LogScoreMonotone | my_proof/proof_of_quality/utils.py:103-115 | for a positive minimum and positive SCORE_SCALING the log score never decreases as the value grows |
| QualityUtils.LogScorePositive | my_proof/proof_of_quality/utils.py:103-115 | a positive value with a positive minimum and scaling scores above 0 |
| PyText.Strip | my_proof/proof_of_quality/utils.py:26 | the stripped text is no longer than the input and neither of its ends is a stripped character |
| PyText.StripInfix | my_proof/proof_of_quality/utils.py:26 | the stripped text is the contiguous piece of the input left after dropping the leading and trailing stripped characters |
| PyText.StripIdempotent | my_proof/proof_of_uniqueness/data_processor.py:51 | stripping twice is stripping once |
| PyText.StripUnchanged | my_proof/proof_of_uniqueness/data_processor.py:97 | text whose ends are not stripped characters is left as it is |
| PyText.LowerChar | my_proof/proof_of_uniqueness/data_processor.py:51 | the result is not upper case, is whitespace iff the input is, and differs from the input only for an upper-case letter, which it maps to its lower-case letter |
| PyText.Lower | my_proof/proof_of_uniqueness/data_processor.py:51 | lower() keeps the length, leaves no upper-case letter and changes no other character |
| PyText.LowerIdempotent | my_proof/proof_of_uniqueness/data_processor.py:51 | lower-casing twice is lower-casing once |
| PyText.Remove | my_proof/proof_of_uniqueness/data_processor.py:106 | replace(c, '') leaves no c, adds nothing new and returns text without c unchanged |
| PyText.RemoveKeepsOthers | my_proof/proof_of_uniqueness/data_processor.py:106 | every other character occurs after removal exactly as often as before |
| PyText.RemoveSeparator | my_proof/proof_of_uniqueness/data_processor.py:97 | removing a separator that sits once between two pieces without it joins the pieces |
| PyText.ParseDigits | my_proof/proof_of_quality/data_analyzers.py:43 | int() of an all-digit string is its decimal value |
| PyText.ParseInt | my_proof/proof_of_uniqueness/data_processor.py:108 | int() of blank or empty text raises (None); a negative result needs a leading '-' once whitespace is stripped |
| PyText.ParseSigned | my_proof/proof_of_uniqueness/data_processor.py:108 | a sign before a digit string: int("-d") is minus the decimal value of d, and int("+d") is the value |
| PyText.ParseIntStrips | my_proof/proof_of_quality/data_analyzers.py:124 | int() ignores surrounding whitespace: int(s) equals int(s.strip()) |
| PyText.ParseHex | my_proof/proof_of_quality/__init__.py:207 | int(s, 16) on one character succeeds iff it is a hex digit; on two hex digits it is 16·high + low; any value it returns lies in -15..255 |
| Analyzers.FirstMissing | my_proof/proof_of_quality/data_analyzers.py:42-56 | the reported missing column is one the extractor reads and some row lacks |
| Analyzers.NonEmpty | my_proof/proof_of_quality/data_analyzers.py:44 | the values kept by `if item[key]` are exactly the non-empty values of the column, no more of them than rows |
| Analyzers.DistinctMembers | my_proof/proof_of_quality/data_analyzers.py:44 | the distinct set holds exactly the non-empty values of the column |
| Analyzers.Distinct | my_proof/proof_of_quality/data_analyzers.py:44 | the number of distinct non-empty values is at most the row count |
| Analyzers.Count | my_proof/proof_of_quality/data_analyzers.py:50 | a Counter over a column has no more entries than rows |
| Analyzers.FloatTotal | my_proof/proof_of_quality/data_analyzers.py:123-136 | a column with no non-empty value sums to 0.0, because empty values are skipped before parse_float |
| Analyzers.DigitTotal | my_proof/proof_of_quality/data_analyzers.py:43 | a column with no isdigit() value sums to 0, and every isdigit() value that is counted is at most the total |
| Analyzers.ListPriceTotal | my_proof/proof_of_quality/data_analyzers.py:81 | when no row has ListPriceAmount, every row still adds the default: the total is the row count times parse_float('0') |
| Analyzers.CountKinds | my_proof/proof_of_quality/data_analyzers.py:50 | the Counter's keys are the distinct non-empty values, so len(dict(Counter)) is at most the row count |
| Analyzers.CountBound | my_proof/proof_of_quality/data_analyzers.py:50 | no single count, such as cart_lists['active'], exceeds the row count |
| Analyzers.ParseAll | my_proof/proof_of_quality/data_analyzers.py:46 | parsing a list of dates succeeds iff every date parses, and then yields each parse in order |
| Analyzers.ParsedDates | my_proof/proof_of_quality/data_analyzers.py:46 | the date list succeeds iff every non-empty date parses; it is empty iff no row has a date, and it holds exactly the parses of the non-empty dates |
| Analyzers.MinOf | my_proof/proof_of_quality/data_analyzers.py:47 | the minimum is one of the dates and not later than any of them |
| Analyzers.MaxOf | my_proof/proof_of_quality/data_analyzers.py:48 | the maximum is one of the dates and not earlier than any of them |
| Analyzers.RangeOf | my_proof/proof_of_quality/data_analyzers.py:47-48 | earliest is not after latest, and both are absent iff there are no dates |
| Analyzers.RangeOfSpans | my_proof/proof_of_quality/data_analyzers.py:47-48 | earliest and latest are dates of the list and bound every date in it |
| Analyzers.DateRangeOf | my_proof/proof_of_quality/data_analyzers.py:46-48 | the range succeeds iff every non-empty date parses; earliest ≤ latest; both are None iff no row has a date; they bound every row's date and are attained by some row |
| Analyzers.MaxOrZero | my_proof/proof_of_quality/data_analyzers.py:138 | max(..., default=0) is 0 for no values and otherwise one of the values, at least every value |
| Analyzers.ParsedFloats | my_proof/proof_of_quality/data_analyzers.py:123 | one parse_float per non-empty value |
| Analyzers.IntTotal | my_proof/proof_of_quality/data_analyzers.py:124 | summing with int() can fail only with a malformed-integer error |
| Analyzers.IntTotalSucceeds | my_proof/proof_of_quality/data_analyzers.py:124 | the total_items sum succeeds iff every non-empty Quantity parses as an int |
| Analyzers.QuantityParsersDiffer | my_proof/proof_of_quality/data_analyzers.py:43-124 | the cart total (line 43) skips " 5", which is not isdigit, while the order-history total (line 124) adds 5 for it |
| Analyzers.GiftOrders | my_proof/proof_of_quality/data_analyzers.py:140 | the gift-order count is at most the row count, so the percentage is at most 100 |
| Analyzers.AnalyzeCartItems | my_proof/proof_of_quality/data_analyzers.py:41-72 | succeeds iff every read column is present and every non-empty DateAddedToCart parses; num_items is the row count and the summary is consistent (unique and tally counts at most the rows, ordered date range); on success the date range is that of DateAddedToCart, total_quantity the sum of the isdigit quantities, unique_products the number of distinct ASINs, and each of the six tallies the Counter of its own column |
| Analyzers.DigitalRowDates | my_proof/proof_of_quality/data_analyzers.py:87-91 | one row contributes no dates (a 'Not Applicable' row) or its two dates |
| Analyzers.DigitalDatesSucceed | my_proof/proof_of_quality/data_analyzers.py:86-103 | the loop's dates succeed iff every row's dates parse |
| Analyzers.DigitalDates | my_proof/proof_of_quality/data_analyzers.py:86-103 | a loop that succeeds collects an even number of dates, at most two per row |
| Analyzers.DigitalDatesPrefixFails | my_proof/proof_of_quality/data_analyzers.py:90-91 | a date that fails to parse aborts the extraction with that error, whatever follows |
| Analyzers.DigitalDatesStep | my_proof/proof_of_quality/data_analyzers.py:86-103 | each row either aborts the loop with its parse error or appends its dates |
| Analyzers.DigitalDateRange | my_proof/proof_of_quality/data_analyzers.py:83-108 | the digital range is ordered, and absent iff every row is skipped |
| Analyzers.DigitalDatesEmpty | my_proof/proof_of_quality/data_analyzers.py:87-88 | no dates are collected iff every row is a skipped 'Not Applicable' row |
| Analyzers.RangeAppend | my_proof/proof_of_quality/data_analyzers.py:93-103 | widening the running min/max by a date gives the range of the list extended by that date |
| Analyzers.DigitalDateRangeOutcome | my_proof/proof_of_quality/data_analyzers.py:83-108 | the range is the min/max range of all collected dates, or the first parse error |
| Analyzers.DigitalItemsDateRange | my_proof/proof_of_quality/data_analyzers.py:83-108 | the min_date/max_date loop computes exactly the range of the collected dates, or the first parse error |
| Analyzers.Widen | my_proof/proof_of_quality/data_analyzers.py:93-97 | the two `if not min_date or ...` updates extend the running range by one date |
| Analyzers.ReadDigitalRow | my_proof/proof_of_quality/data_analyzers.py:87-91 | the loop body reads the row's dates as the specification says |
| Analyzers.AnalyzeDigitalItems | my_proof/proof_of_quality/data_analyzers.py:74-119 | succeeds iff every read column is present and every row's dates parse; num_items is the row count and the summary is consistent; on success the date range is the range of the collected dates, unique_products and unique_orders count the distinct ASIN and OrderId values, total_amount is the list-price total, countries and currencies are the Counters of their columns, and product_names_sample is the first min(5, n) non-empty names |
| Analyzers.AnalyzeDigitalItemsData | my_proof/proof_of_quality/data_analyzers.py:74-119 | the imperative extractor returns exactly the specified summary |
| Analyzers.AnalyzeOrderHistory | my_proof/proof_of_quality/data_analyzers.py:121-160 | succeeds iff the columns are present, every non-empty Quantity is an int and every non-empty Order Date parses; num_orders is the row count; the summary is consistent (gift percentage in [0,100], order_statuses['Closed'] at most the row count); on success total_items is the strict int sum, the date range is that of Order Date, total_amount, total_shipping and total_discounts are the sums of their non-empty columns, most_expensive_item is the largest unit price (0 for none), the averages are amount/n and items/n and the gift percentage gifts/n·100 for n > 0 and all 0 for no rows, and unique_products and the three tallies come from their columns |
| Analyzers.AnalyzeAudiblePurchases | my_proof/proof_of_quality/data_analyzers.py:162-184 | succeeds iff the columns are present and the order dates parse; num_purchases is the row count and the summary is consistent; on success the date range is that of Order Place Date, total_amount_spent the sum of Price Paid Member, unique_audiobooks the number of distinct ASINs, and purchase_types and statuses the Counters of Type and Status |
| Analyzers.AnalyzeAudibleLibrary | my_proof/proof_of_quality/data_analyzers.py:186-208 | succeeds iff the columns are present and the added dates parse; num_items_in_library is the row count and downloaded['Yes'] is at most it; on success the date range is that of Date Added, unique_audiobooks the number of distinct ASINs, and downloaded, deleted and origin_types the Counters of their columns |
| Analyzers.AnalyzeAudibleBillings | my_proof/proof_of_quality/data_analyzers.py:210-232 | succeeds iff the columns are present and the billing dates parse; num_billings is the row count and the summary is consistent; on success the date range is that of Billing Period Start Date, total_amount_spent the sum of Total Amount, and plans, statuses and currencies the Counters of Plan, Status and Currency |
| Analyzers.AnalyzeVideoViewing | my_proof/proof_of_quality/data_analyzers.py:234-258 | succeeds iff the columns are present and the playback dates parse; num_viewing_sessions is the row count and the summary is consistent; on success the date range is that of the playback start, total_hours_viewed the sum of Seconds Viewed over 3600, unique_titles_watched the number of distinct titles, and content_qualities and devices_used the Counters of their columns |
| Analyzers.AnalyzeData | my_proof/proof_of_quality/data_analyzers.py:23-39 | an unknown name fails with "Unknown file type"; a success is the summary of the name's rule, with the row count as primary count and a consistent summary |
| Analyzers.AnalyzeByRule | my_proof/proof_of_quality/data_analyzers.py:25-37 | each rule's extractor yields a summary of that rule with the row count as primary count |
| Calculators.DateRangeDays | my_proof/proof_of_quality/score_calculators.py:53-56 | the day span exists iff both ends exist, and is non-negative for an ordered range |
| Calculators.DateRangeScore | my_proof/proof_of_quality/score_calculators.py:53-60 | the date sub-score lies in [0,1] and stays 0 without a complete range |
| Calculators.Recency | my_proof/proof_of_quality/utils.py:41-67 | the recency weight lies in [0,1] and is 0 without a latest date |
| Calculators.GuardedRatio | my_proof/proof_of_quality/score_calculators.py:62-64 | a ratio with a zero denominator is 0, is never negative and is at most 1 when the part does not exceed the whole |
| Calculators.Validity | my_proof/proof_of_quality/score_calculators.py:76-86 | when the count floors pass but the date range is missing, reading date_range_days raises; otherwise is_valid is floors ∧ span ≥ minimum ∧ score ≥ threshold |
| Calculators.CartCombineInUnit | my_proof/proof_of_quality/score_calculators.py:67-70 | the cart weights sum to 1, so sub-scores in [0,1] combine into [0,1] |
| Calculators.CartScore | my_proof/proof_of_quality/score_calculators.py:44-74 | the cart score lies in [0,1] for a consistent summary and is 0 without a latest date |
| Calculators.CartItemsScore | my_proof/proof_of_quality/score_calculators.py:44-87 | errors exactly when THRESHOLD_SCORE is missing or the floors pass with no date range; otherwise reasons is [] and is_valid is floors ∧ span ≥ MIN_DATE_RANGE_DAYS (1 on satori, 7 on mainnet, 30 when unset) ∧ score ≥ threshold |
| Calculators.DigitalCombineInUnit | my_proof/proof_of_quality/score_calculators.py:101-103 | the digital weights combine unit sub-scores into [0,1] |
| Calculators.DigitalScore | my_proof/proof_of_quality/score_calculators.py:89-107 | the digital score lies in [0,1] and is 0 without a latest date |
| Calculators.DigitalItemsScore | my_proof/proof_of_quality/score_calculators.py:89-120 | fails iff THRESHOLD_SCORE is missing; otherwise reasons is [] and is_valid is the count floors ∧ score ≥ threshold |
| Calculators.OrderSpan | my_proof/proof_of_quality/score_calculators.py:136-144 | the span is 0 without dates and non-negative for a consistent summary |
| Calculators.PurchaseRate | my_proof/proof_of_quality/score_calculators.py:137-146 | the rate is 0 without dates, never negative, and the raw order count when the span gives no positive weeks |
| Calculators.GiftRate | my_proof/proof_of_quality/score_calculators.py:173 | min(gift%/100, 1) is at most 1 and not negative for a non-negative percentage |
| Calculators.OrderCombineInUnit | my_proof/proof_of_quality/score_calculators.py:176-183 | the order-history weights combine unit sub-scores into [0,1] |
| Calculators.OrderScore | my_proof/proof_of_quality/score_calculators.py:159-187 | the order-history score lies in [0,1] for a consistent summary and is 0 without a latest date |
| Calculators.OrderHistoryScore | my_proof/proof_of_quality/score_calculators.py:122-201 | fails iff the threshold is missing; below either floor the result is invalid with score 0 and two reasons, each present iff its floor fails; otherwise reasons is [] and is_valid is gate ∧ floors ∧ score ≥ threshold |
| Calculators.OrderHistoryNeedsDates | my_proof/proof_of_quality/score_calculators.py:136-157 | without a date range, and with a positive MIN_DATA_TIME, order history is rejected with score 0 and a data-time reason |
| Calculators.PurchaseCombineInUnit | my_proof/proof_of_quality/score_calculators.py:224-228 | the purchase weights combine unit sub-scores into [0,1] |
| Calculators.PurchaseScore | my_proof/proof_of_quality/score_calculators.py:203-232 | the purchase score lies in [0,1] and is 0 without a latest date |
| Calculators.AudiblePurchaseScore | my_proof/proof_of_quality/score_calculators.py:203-246 | errors exactly when the threshold is missing or the floors pass with no date range; otherwise reasons is [] and is_valid is floors ∧ span ≥ MIN_DATE_RANGE_DAYS (1 on satori, 7 on mainnet, 60 when unset) ∧ score ≥ threshold |
| Calculators.LibraryCombineInUnit | my_proof/proof_of_quality/score_calculators.py:271-274 | the library weights combine unit sub-scores into [0,1] |
| Calculators.LibraryScore | my_proof/proof_of_quality/score_calculators.py:248-278 | the library score lies in [0,1] for a consistent summary and is 0 without a latest date |
| Calculators.AudibleLibraryScore | my_proof/proof_of_quality/score_calculators.py:248-291 | errors exactly when the threshold is missing or the floors pass with no date range; otherwise reasons is [] and is_valid is floors ∧ span ≥ MIN_DATE_RANGE_DAYS (1 on satori, 7 on mainnet, 90 when unset) ∧ score ≥ threshold |
| Calculators.BillingsCombineInUnit | my_proof/proof_of_quality/score_calculators.py:311-313 | the billings weights combine unit sub-scores into [0,1] |
| Calculators.BillingsScore | my_proof/proof_of_quality/score_calculators.py:293-317 | the billings score lies in [0,1] and is 0 without a latest date |
| Calculators.AudibleBillingsScore | my_proof/proof_of_quality/score_calculators.py:293-330 | errors exactly when the threshold is missing or the floors pass with no date range; otherwise reasons is [] and is_valid is floors ∧ span ≥ MIN_DATE_RANGE_DAYS (1 on satori, 7 on mainnet, 90 when unset) ∧ score ≥ threshold |
| Calculators.VideoCombineInUnit | my_proof/proof_of_quality/score_calculators.py:353-357 | the viewing weights combine unit sub-scores into [0,1] |
| Calculators.VideoScore | my_proof/proof_of_quality/score_calculators.py:332-361 | the viewing score lies in [0,1] and is 0 without a latest date |
| Calculators.VideoViewingScore | my_proof/proof_of_quality/score_calculators.py:332-375 | errors exactly when the threshold is missing or the floors pass with no date range; otherwise reasons is [] and is_valid is floors ∧ span ≥ MIN_DATE_RANGE_DAYS (1 on satori, 7 on mainnet, 60 when unset) ∧ score ≥ threshold |
| Calculators.CalculateScore | my_proof/proof_of_quality/score_calculators.py:22-42 | an unknown name raises "Unknown file type"; a known one without THRESHOLD_SCORE fails on that key; a valid result has score ≥ THRESHOLD_SCORE/100 |
| Calculators.CalculateScoreErrors | my_proof/proof_of_quality/score_calculators.py:22-42 | the only failures are the unknown name, the missing threshold and the unbound date span, and the last never happens for digital items or order history |
| Calculators.CalculateScoreInUnit | my_proof/proof_of_quality/score_calculators.py:22-42 | every rule's score lies in [0,1] for a consistent summary and is 0 without a latest date |
| Codec.Trunc | my_proof/proof_of_quality/__init__.py:77 | int() truncates toward zero: the greatest integer not above a non-negative value, the least not below a negative one |
| Codec.QuantizeUnit | my_proof/proof_of_quality/__init__.py:75-78 | a score in [0,1] quantises to a byte q with q/255 ≤ score < (q+1)/255 |
| Codec.QuantizeOverflow | my_proof/proof_of_quality/__init__.py:77 | a score of 256/255 or more quantises above 255 |
| Codec.QuantizeExamples | my_proof/proof_of_quality/__init__.py:77 | 0.0 → 0, 0.5 → 127 and 1.0 → 255 |
| Codec.QuantizeScores | my_proof/proof_of_quality/__init__.py:75-78 | one integer per score, and all bytes when all scores lie in [0,1] |
| Codec.Quantize | my_proof/proof_of_quality/__init__.py:77 | for a score ≥ 0 the result q is the floor of 255·score (q ≤ 255·score < q+1); a negative score gives q ≤ 0, as `int()` truncates toward zero |
| Codec.HexDigit | my_proof/proof_of_quality/__init__.py:166 | each nibble is written as a lower-case hex digit that reads back as the nibble |
| Codec.Hex2 | my_proof/proof_of_quality/__init__.py:166 | `{score:02x}` writes exactly two lower-case hex digits |
| Codec.HexBlock | my_proof/proof_of_quality/__init__.py:161-172 | a block has two characters per score |
| Codec.HexBlockAt | my_proof/proof_of_quality/__init__.py:161-172 | characters 2j and 2j+1 of a block are the two digits of score j |
| Codec.PackedScores | my_proof/proof_of_quality/__init__.py:155-174 | packing fails iff the lists differ in length or a score is outside 0..255, the length error taking precedence; a success has length 2·(len m + len v) |
| Codec.PackedLowerHex | my_proof/proof_of_quality/__init__.py:155-174 | every character of a packed record is a lower-case hex digit |
| Codec.AppendHexBlock | my_proof/proof_of_quality/__init__.py:161-172 | one loop appends the block of a score list, or raises the range error on the first score outside 0..255 |
| Codec.PackScores | my_proof/proof_of_quality/__init__.py:155-174 | the imperative packer returns exactly the specified record or error |
| Codec.ReadChunks | my_proof/proof_of_quality/__init__.py:205-211 | reading k chunks yields k values or a not-hex error |
| Codec.ChunkValue | my_proof/proof_of_quality/__init__.py:207 | a chunk that int(., 16) rejects fails with that chunk |
| Codec.ReadChunksFailureSticks | my_proof/proof_of_quality/__init__.py:205-211 | once a chunk fails, the whole unpack raises that error |
| Codec.UnpackedScores | my_proof/proof_of_quality/__init__.py:177-213 | the string is split at half its length and each half read in 2-character steps; a failure is a not-hex error |
| Codec.ReadBlock | my_proof/proof_of_quality/__init__.py:205-211 | the `range(start, end, 2)` loop reads exactly the specified chunks |
| Codec.UnpackScores | my_proof/proof_of_quality/__init__.py:177-213 | the imperative unpacker returns exactly the specified lists or error |
| Codec.ParseHex2 | my_proof/proof_of_quality/__init__.py:166-207 | the two digits packed for a byte n (line 166) read back as n when unpacked (line 207): int(f"{n:02x}", 16) == n |
| Codec.ReadHexPairs | my_proof/proof_of_quality/__init__.py:205-211 | reading the pairs of an encoded block yields its scores |
| Codec.UnpackPacked | my_proof/proof_of_quality/__init__.py:155-213 | unpack_scores(pack_scores(m, v)) == (m, v) for equal-length byte lists |
| Codec.ByteBlock | my_proof/proof_of_quality/__init__.py:106-117 | two bytes per score |
| Codec.ByteBlockAt | my_proof/proof_of_quality/__init__.py:111 | `struct.pack('>H', s)` for a byte s gives the bytes 0, s |
| Codec.PackedBytes | my_proof/proof_of_quality/__init__.py:81-119 | byte packing fails iff the lengths differ or a score is outside 0..255, the length error first; a success has 2·(len m + len v) bytes |
| Codec.AppendByteBlock | my_proof/proof_of_quality/__init__.py:106-117 | one loop appends the big-endian pairs of a list or raises the range error |
| Codec.PackScoresToBytes | my_proof/proof_of_quality/__init__.py:81-119 | the imperative byte packer returns exactly the specified bytes or error |
| Codec.PackedBytesHighZero | my_proof/proof_of_quality/__init__.py:81-119 | every high byte of a packed record is 0 |
| Codec.Word | my_proof/proof_of_quality/__init__.py:143 | `struct.unpack('>H', ...)` yields a value in 0..65535 |
| Codec.UnpackedBytes | my_proof/proof_of_quality/__init__.py:122-152 | both lists get len(bytes) // 2 // 2 entries |
| Codec.UnpackScoresFromBytes | my_proof/proof_of_quality/__init__.py:122-152 | the imperative byte unpacker returns exactly the specified lists |
| Codec.UnpackPackedBytes | my_proof/proof_of_quality/__init__.py:81-152 | unpack_scores_from_bytes(pack_scores_to_bytes(m, v)) == (m, v) for equal-length byte lists |
| Quality.SampleScores | my_proof/proof_of_quality/validators.py:42-65 | the answers yield scores iff every answer is a well-formed integer, and then score i is answer i / 100 |
| Quality.ValidatedSample | my_proof/proof_of_quality/validators.py:42-73 | an empty sample fails (division by zero); any malformed answer gives (False, 0.0); otherwise the score is the mean of the answers' int(score)/100, and is_valid holds iff that mean reaches THRESHOLD_SCORE/100 |
| Quality.ScoreSample | my_proof/proof_of_quality/validators.py:42-73 | the evaluator loop, with its early return, computes exactly the specified result |
| Quality.SampleFailureSticks | my_proof/proof_of_quality/validators.py:60-65 | a malformed answer anywhere makes the whole sample fail, whatever follows |
| Quality.SampleScoreInUnit | my_proof/proof_of_quality/validators.py:67 | answers in 0..100 average to a score in [0,1] |
| Quality.OverRangeAnswer | my_proof/proof_of_quality/validators.py:58 | one answer of 200 gives validation score 2.0, whose quantised byte exceeds 255, so packing raises |
| Quality.SlightlyOverRangeAnswers | my_proof/proof_of_quality/__init__.py:77 | the answers 100, 100 and 101 average 301/300, and that score quantises to 255, so it packs without error |
| Quality.ScoreMetadata | my_proof/proof_of_quality/__init__.py:48-71 | a success has a known network; its metadata score is exactly what calculate_score returned for that network's profile, lies in [0,1] and is at least the threshold when valid; the validation score is the evaluator's result exactly when a key is set and the metadata is valid, (False, 0) otherwise; an unknown network fails with the lookup's error |
| Quality.ProcessSingleFile | my_proof/proof_of_quality/__init__.py:41-71 | an unknown file type fails; a success meets the same per-file guarantees, and its metadata score is what calculate_score returned for the summary analyze_data produced |
| Quality.CalculateWeightedScores | my_proof/proof_of_quality/__init__.py:216-233 | the table holds exactly the interesting files present in the input, each mapped to its (metadata score, validation score); validity flags and unknown names are dropped |
| Quality.OrderedMetadata | my_proof/proof_of_quality/__init__.py:288-297 | one metadata score per interesting file |
| Quality.OrderedValidation | my_proof/proof_of_quality/__init__.py:288-297 | one validation score per interesting file |
| Quality.PostProcessScores | my_proof/proof_of_quality/__init__.py:271-306 | the imperative encoder returns exactly the specified record |
| Quality.PostProcessedShape | my_proof/proof_of_quality/__init__.py:287-306 | for scores in [0,1] the record always encodes and is 32 lower-case hex characters |
| Quality.PostProcessed | my_proof/proof_of_quality/__init__.py:287-306 | an encoded record has 4 characters per interesting file; encoding fails only when some score lies outside [0,1], and never by a length mismatch |
| Quality.EmptyRecord | my_proof/proof_of_quality/__init__.py:287-306 | with no files present the record is 32 '0' characters |
| Quality.DecodeScores | my_proof/proof_of_quality/__init__.py:323-324 | one decoded value per byte |
| Quality.DecodedPrefix | my_proof/proof_of_quality/__init__.py:327-330 | the decoded table holds a file iff one of its two values is positive, mapped to that pair, and no other name |
| Quality.DecodedTable | my_proof/proof_of_quality/__init__.py:327-332 | a decoded table names only interesting files |
| Quality.Decoded | my_proof/proof_of_quality/__init__.py:309-332 | decoding fails only on a chunk that is not hex |
| Quality.FillTable | my_proof/proof_of_quality/__init__.py:327-330 | the dictionary-filling loop computes exactly the specified table |
| Quality.BuildTable | my_proof/proof_of_quality/__init__.py:327-332 | the loop over the interesting files builds the specified table |
| Quality.PostProcessDecode | my_proof/proof_of_quality/__init__.py:309-332 | the imperative decoder returns exactly the specified table or error |
| Quality.DecodePacked | my_proof/proof_of_quality/__init__.py:309-332 | decoding a packed record of two byte lists succeeds and gives the table of those bytes / 255 |
| Quality.DecodedTableAt | my_proof/proof_of_quality/__init__.py:320-332 | file i is in the decoded table iff one of its two bytes is positive, and then maps to the bytes / 255 |
| Quality.DecodePostProcessed | my_proof/proof_of_quality/__init__.py:271-332 | decoding the record of a table in [0,1] gives every file its two quantised scores / 255, with all-zero pairs dropped |
| Quality.AbsentStaysAbsent | my_proof/proof_of_quality/__init__.py:374-377 | a file absent before encoding is absent after decoding |
| Quality.RoundTripWithinStep | my_proof/proof_of_quality/__init__.py:366-371 | for every interesting file, each score after encode and decode is not above the original and less than 1/255 below it |
| Quality.TestToleranceFails | my_proof/proof_of_quality/__init__.py:368-371 | a cart metadata score of 0.5 decodes to 127/255, further than the test's 0.001 from the original |
| Uniqueness.Or | my_proof/proof_of_uniqueness/data_processor.py:69 | `a or b` is truthy iff either operand is, and is `a` when `a` is truthy |
| Uniqueness.NormalizeCell | my_proof/proof_of_uniqueness/data_processor.py:51 | a string value becomes stripped and lower-case; a non-string value stays absent |
| Uniqueness.NormalizeCellIdempotent | my_proof/proof_of_uniqueness/data_processor.py:51 | normalising a value twice is normalising it once |
| Uniqueness.NormalizedRow | my_proof/proof_of_uniqueness/data_processor.py:51-54 | the normalised row has every key except 'Order Date', 'Ship Date' and 'Order ID', whether or not they were present, and each kept value is the original stripped of whitespace and lower-cased |
| Uniqueness.NormalizeIdempotent | my_proof/proof_of_uniqueness/data_processor.py:51-54 | normalising a normalised row changes nothing |
| Uniqueness.NormalizeRow | my_proof/proof_of_uniqueness/data_processor.py:51-54 | the comprehension and the pop loop compute exactly the specified row |
| Uniqueness.NormalizedRows | my_proof/proof_of_uniqueness/data_processor.py:49-57 | one normalised row per input row, in order |
| Uniqueness.ReadAndNormalize | my_proof/proof_of_uniqueness/data_processor.py:49-57 | the loop yields one normalised row per input row, in the same order |
| Uniqueness.CleanNumber | my_proof/proof_of_uniqueness/data_processor.py:97 | the cleaned text holds no comma |
| Uniqueness.ParseIntLenient | my_proof/proof_of_uniqueness/data_processor.py:104-110 | a missing value parses as 0 |
| Uniqueness.ParseIntIgnoresCommas | my_proof/proof_of_uniqueness/data_processor.py:104-110 | digits with commas, such as "1,234", parse as the number with the commas taken out |
| Uniqueness.ParseIntRejectsWords | my_proof/proof_of_uniqueness/data_processor.py:107-110 | a lower-case word is rejected by int() and parses as 0 |
| Uniqueness.ParseFloatLenient | my_proof/proof_of_uniqueness/data_processor.py:95-101 | a missing value parses as 0.0 |
| Uniqueness.ParseFloatsDiffer | my_proof/proof_of_uniqueness/data_processor.py:95-101 | for "a,b" the uniqueness parser hands float() "ab", while the quality parser hands it "a,b" |
| Uniqueness.Added | my_proof/proof_of_uniqueness/data_processor.py:70-71 | `if product: add(product)` adds exactly the truthy value |
| Uniqueness.ExtractFeatures | my_proof/proof_of_uniqueness/data_processor.py:60-83 | the loop accumulates exactly the specified products, categories, amount and quantity |
| Uniqueness.ProductsMembers | my_proof/proof_of_uniqueness/data_processor.py:69-71 | a product is collected iff some row's 'Product Name', or else 'Title', is that non-empty value |
| Uniqueness.CategoriesMembers | my_proof/proof_of_uniqueness/data_processor.py:79-81 | a category is collected iff some row's 'Category', or else 'Product Group', is that non-empty value |
| Uniqueness.ProductsOfConcat | my_proof/proof_of_uniqueness/data_processor.py:69-71 | the products of two row lists joined are the union of their products |
| Uniqueness.CategoriesOfConcat | my_proof/proof_of_uniqueness/data_processor.py:79-81 | the categories of two row lists joined are the union of their categories |
| Uniqueness.AmountOfConcat | my_proof/proof_of_uniqueness/data_processor.py:73-74 | total_amount is additive over joined row lists |
| Uniqueness.QuantityOfConcat | my_proof/proof_of_uniqueness/data_processor.py:76-77 | total_quantity is additive over joined row lists |
| Uniqueness.FeaturesOfConcat | my_proof/proof_of_uniqueness/data_processor.py:60-83 | the features of joined row lists merge the features of each: set unions and sums |
| Uniqueness.FeaturesOf | my_proof/proof_of_uniqueness/data_processor.py:60-83 | no rows gives the initial dictionary (empty sets, 0.0, 0), and neither collected set ever holds the empty string |
| Uniqueness.ProductsOf | my_proof/proof_of_uniqueness/data_processor.py:69-71 | the empty string is never collected as a product, as `if product:` skips it |
| Uniqueness.CategoriesOf | my_proof/proof_of_uniqueness/data_processor.py:79-81 | the empty string is never collected as a category, as `if category:` skips it |
| Uniqueness.AmountOf | my_proof/proof_of_uniqueness/data_processor.py:73-74 | when every row's `Total Owed or Total Amount` is None, total_amount is 0.0, as parse_float(None) is 0.0 |
| Uniqueness.QuantityOf | my_proof/proof_of_uniqueness/data_processor.py:76-77 | when every row's `Quantity or Units` is None, total_quantity is 0, as parse_int(None) is 0 |
| Uniqueness.NormalizedProductsLower | my_proof/proof_of_uniqueness/data_processor.py:51-71 | normalisation lower-cases every value (line 51), so every product collected from normalised rows (lines 69-71) is lower-case |

## Left out

- File and CSV input: `find_csv_files`, the reading in `process_single_file` and in `read_and_normalize_csv`, and `gather_csv_files`. Rows are given as values. A CSV row with more fields than headers, which gets a list under the `None` key, is not modelled.
- `process_order_history`, `update_minhash`, the MinHash service, the HTTP client and the authenticity proof are foreign libraries and network calls.
- `Proof.generate` and `proof_of_quality` only read the directory, call the modelled steps in order and log the results.
- Logging and printing are left out.
- The OpenAI evaluator: the prompt, the model, the network call and `random.sample`.
  - `validate_sample` is modelled from the evaluator's answers onwards.
  - Each answer is given as `Some(int)`, or as `None` for a reply the `except` at `validators.py` line 60 catches. A reply that raises anything else, such as the TypeError of `{"score": null}`, makes `validate_sample` raise. That is a failure of the `evaluation` the per-file step receives, not an answer.
  - The sample is the list of answers, so SAMPLE_SIZE does not appear.
  - `Config.ProfilesDefineRequiredSettings` shows that both lookups always succeed.
- The plotting helpers in `utils.py` are left out.
- Floating point: scores are reals.
  - `float()`, `strptime`, `fromisoformat` and `log1p` are abstract parameters.
  - `round(x, 2)` is not modelled, so extractor totals and averages are exact.
  - Metadata keeps dates as instants rather than `isoformat()` text read back by `fromisoformat`.
- The wall clock, `datetime.now()`, is the parameter `now`.
- `str.strip`, `str.lower` and `str.isdigit` are modelled as follows:
  - whitespace is `\t\n\v\f\r`, space, `\x1c`–`\x1f`, `\x85` and `\xa0`;
  - the upper-case letters are the ASCII `A`–`Z`;
  - the digits are the ASCII `0`–`9`.

  Python also knows further Unicode spaces, further upper-case letters (such as `À`–`Þ`) and further digits (such as `²`, `³` and `¹`).
- Analyzers.DigitTotal: skips a Quantity such as `"²"`. For that value `isdigit()` is true but `int()` raises ValueError (`data_analyzers.py` line 43), so Python fails the cart extraction where the model does not.
- PyText.ParseHex: models `int(s, 16)` only for texts of 1 or 2 characters. These are the only lengths `unpack_scores` passes it. Prefixes such as `0x` and longer texts are not modelled.
- PyText.ParseInt: models `int()` on ASCII decimal text with sign, digits, single `_` separators and surrounding whitespace. Other Unicode digits are not accepted.
- `test_proof_of_quality` (`__init__.py` 382-389) passes a path where a settings dictionary is expected and cannot run as written.
- WEIGHT_PER_FILE is modelled as a table, because no code reads it.
- When several columns are missing, or a missing column and a bad date occur together, the model does not say which error Python raises first. It says only that the extraction fails.
- Uniqueness.ParseFloatLenient: states only the missing-value case. What `float()` accepts is an abstract parameter, so the other cases are shown through `ParseFloatsDiffer`.
- Uniqueness.ParseIntLenient: states only the missing-value case in its own contract. The comma and word cases are the lemmas `ParseIntIgnoresCommas` and `ParseIntRejectsWords`.

## Findings

| source | as written | input that shows it | evidently intended | confidence | as-written member | corrected member |
|---|---|---|---|---|---|---|
| my_proof/proof_of_quality/__init__.py:368-371 | the round-trip test demands that each decoded score lie within 0.001 of the original | a cart metadata score of 0.5 encodes as 0x7f and decodes to 127/255 ≈ 0.49804, 0.00196 away | the codec truncates to 1/255 steps, so the tolerance that holds is one step: decoded ≤ original < decoded + 1/255 | not executed | Quality.TestToleranceFails | Quality.RoundTripWithinStep |
