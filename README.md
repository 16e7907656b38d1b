# FBA fee calculator: rate engine

A model of the rate engine of two FBA fee calculators, one for the US
marketplace and one for the European (UK and German) marketplaces. For each
product record, an engine does the following:

- it converts the sides and weight to the calculator's units;
- it assigns a size tier: the 2024 and 2026 US rules, or the European rules;
- it picks the billing ("shipping") weight for that tier;
- it looks up the fee in a rate table. Rows are selected by their keys, then
  the first row whose weight range holds the weight is taken;
- it reads that row's fee cell, either as a literal amount or as a formula
  in the billing weight;
- when a weight gives no usable fee, it falls back to the actual weight and
  then to the volume weight.

The US engine also works out the removal fee and the standard and express
multichannel fees.

The model has these modules:

- `Text`: the Python string operations the engines rely on, such as
  `strip`, `lower`/`upper`, `replace`, `isdigit` and `float`.
- `Cells`: a spreadsheet cell and `float(cell)`.
- `Columns`: a column filled record by record.
- `Formula`: the formula language of the fee cells. It covers the tokenizer,
  the parser, evaluation, a printer that is a right inverse of the parser,
  and Python's `round` (half to even).
- `RangeMatch`: the two `_check_weight_in_range` functions.
- `FeeLookup`: the row selection, `_find_fee_by_weight`, the fallback
  cascade, the US and EU `calculate_*fee_from_table` and
  `calculate_multichannel_fee`.
- `UsRules` and `EuRules`: the size, weight and removal-fee rules.
- `UsPipeline` and `EuPipeline`: the row loop of each
  `process_product_dataframe`.

The row loops, the per-period fee loops, the row loop of
`_find_fee_by_weight`, the European envelope loop and the fallback cascades
are methods. Each is proved equal to a function. The if/elif rules are
functions, and the lemmas state what those rules guarantee.

The source defers some of its data to the outside world. This model takes
that data as parameters:

- the fee table;
- the multichannel table, as `Option`. `None` stands for a file that is
  missing or cannot be read;
- the list of periods;
- the records.

## Model

| member | source | states |
|---|---|---|
| UsRules.ConvertUnits | fba_fee_calculator_us.py:116-133 | Equal units, and any pair the function does not know, return the value unchanged. |
| UsRules.ConvertRoundTrip | fba_fee_calculator_us.py:116-133 | Converting there and back gives the value again, for every pair of unit names. |
| UsRules.KilogramsToPounds | fba_fee_calculator_us.py:33-34 | Kilograms read through grams (`weight * 1000`, then grams to pounds) come out as kilograms times 2.20462. |
| UsRules.CentimetersToInches | fba_fee_calculator_us.py:29-30 | Centimetres become inches by dividing by 2.54. |
| UsRules.VolumeWeight | fba_fee_calculator_us.py:135-137 | The dimensional weight `L*W*H/139` is non-negative for non-negative sides. |
| UsRules.VolumeWeightSymmetric | fba_fee_calculator_us.py:135-137 | The dimensional weight is the same for all six orders of the sides. |
| UsRules.Sort3 | fba_fee_calculator_us.py:142-144 | The three sides come out longest first. |
| UsRules.Sort3Permutation | fba_fee_calculator_us.py:142-144 | The sorted triple is a permutation of the given sides. |
| UsRules.Sort3Symmetric | fba_fee_calculator_us.py:142-144 | Sorting gives the same triple for all six input orders. |
| UsRules.Sort3Monotone | fba_fee_calculator_us.py:142-144 | When no side shrinks, none of the longest, middle and shortest sides shrinks. |
| UsRules.VolumeWeightMonotone | fba_fee_calculator_us.py:135-137 | When no non-negative side shrinks, the dimensional weight does not shrink. |
| UsRules.Label | fba_fee_calculator_us.py:157-177 | Every tier has a non-empty label. |
| UsRules.LabelInjective | fba_fee_calculator_us.py:157-177 | Two tiers have the same label exactly when they are the same tier. |
| UsRules.OversizeBand | fba_fee_calculator_us.py:157-166 | Oversize band by weight: over 150, (70,150], (50,70], and at most 50 (zero and negative weights included), each as an if-and-only-if. |
| UsRules.Classify2024 | fba_fee_calculator_us.py:139-177 | The 2024 rules never give the small bulky tier. A standard or large bulky result means the sorted sides and the weight fit that tier's bounds, and a parcel through the oversize gate gets an oversize band. The full characterisation is `Classify2024Tiers`. |
| UsRules.Classify2026 | fba_fee_calculator_us.py:212-265 | A standard, small bulky or large bulky result means the sorted sides and the weight fit that tier's bounds, and a parcel through the oversize gate gets an oversize band. How it relates to the 2024 rules is `Classify2026Agrees`, and oversize is `Classify2026Oversize`. |
| UsRules.Classify2024Tiers | fba_fee_calculator_us.py:139-177 | Tier by tier: the oversize gate sends every parcel to the band of its weight. Each standard and bulky tier is given exactly when its bounds hold and no earlier test did. |
| UsRules.ClassifySymmetric | fba_fee_calculator_us.py:139-265 | Neither classifier depends on the order the three sides are given in. |
| UsRules.Classify2026Agrees | fba_fee_calculator_us.py:212-265 | The 2026 tier equals the 2024 tier, except that some large bulky parcels become small bulky. That happens exactly when the small bulky bounds hold. |
| UsRules.TierTestsMonotone | fba_fee_calculator_us.py:146-177 | Larger sorted sides and a larger weight pass the oversize gate if the smaller ones did. They fit a standard or bulky tier only if the smaller ones did. |
| UsRules.Classify2024Oversize | fba_fee_calculator_us.py:139-177 | The 2024 tier is an oversize band exactly when the gate is passed or no standard or large bulky tier fits. |
| UsRules.Classify2026Oversize | fba_fee_calculator_us.py:212-265 | The 2026 tier is an oversize band exactly when the gate is passed or no standard or bulky tier fits. |
| UsRules.HeavierStaysOversize | fba_fee_calculator_us.py:139-265 | With the same sides, a heavier parcel of an oversize band is still in an oversize band, under both years' rules. |
| UsRules.LargerStaysOversize | fba_fee_calculator_us.py:139-265 | When no non-negative side shrinks and the weight does not shrink, an oversize parcel stays oversize, under both years' rules. |
| UsRules.AllSidesGateSameAsAnySide | fba_fee_calculator_us.py:224-228 | Reading the all-sides test of the oversize gate as "any side too big" gives the same tier for every input. |
| UsRules.ShippingWeight | fba_fee_calculator_us.py:285-300 | There is a billing weight exactly for the years 2024 and 2026. It is the actual weight or the larger of the two weights. |
| UsRules.ShippingWeightRule | fba_fee_calculator_us.py:288-299 | The billing weight is the actual weight for each year's listed categories and the larger weight for all others. It is never below the actual weight. |
| UsRules.ShippingWeightYears | fba_fee_calculator_us.py:288-299 | The two years bill alike, except for `特殊大件` when the volume weight is larger. |
| UsRules.ShippingWeightOfTier | fba_fee_calculator_us.py:285-300 | For the tiers the classifiers give, small standard and the over-150 band are billed by actual weight. Every other tier is billed by the larger weight, in both years. |
| UsRules.RemovalFee | fba_fee_calculator_us.py:473-515 | A billing weight of zero or less removes for free. |
| UsRules.RemovalFeeCents | fba_fee_calculator_us.py:484-511 | A removal fee is never negative and is already a whole number of cents. |
| UsRules.RemovalFeeMonotone | fba_fee_calculator_us.py:484-511 | Within the standard class and within the other class, a heavier parcel never costs less to remove. |
| EuRules.VolumeWeight | fba_fee_calculator_eu.py:235-239 | The volume weight in grams, `L*W*H/5`, is non-negative for non-negative sides. |
| EuRules.VolumeWeightSymmetric | fba_fee_calculator_eu.py:235-239 | The volume weight is the same for all six orders of the sides. |
| EuRules.VolumeWeightMonotone | fba_fee_calculator_eu.py:235-239 | When no non-negative side shrinks, the volume weight does not shrink. |
| EuRules.LabelInjective | fba_fee_calculator_eu.py:157-232 | Two European tiers have the same label exactly when they are the same tier. |
| EuRules.IsSpecialOversize | fba_fee_calculator_eu.py:133-155 | A parcel over 31500 g or longer than 175 cm is special oversize. A special parcel within both of those limits has a width plus height of more than 92.5 cm. |
| EuRules.EuClassify | fba_fee_calculator_eu.py:157-232 | A special oversize parcel is `特殊大件`, and every envelope tier lies within the largest envelope (960 g, 33x23x6 cm). The order of the tests is `SpecialOversizeFirst`, `EnvelopeFirstFit` and `ParcelTierBounds`. |
| EuRules.FirstEnvelope | fba_fee_calculator_eu.py:179-191 | The envelope found is the first row whose four limits all hold. When none is found, no row's limits hold. |
| EuRules.DetermineEuropeanSizeCategory | fba_fee_calculator_eu.py:157-232 | The method with its envelope loop gives the tier the classifier defines. |
| EuRules.SpecialOversizeFirst | fba_fee_calculator_eu.py:133-155 | A parcel over 31500 g, longer than 175 cm, or with length plus girth over 360 cm is `特殊大件`, before any other test. |
| EuRules.EnvelopeFirstFit | fba_fee_calculator_eu.py:171-191 | An envelope tier means the parcel is not special oversize and this is the first envelope row that fits. The volume weight plays no part. |
| EuRules.EnvelopesNested | fba_fee_calculator_eu.py:179-184 | A parcel that fits one envelope row fits every later row. |
| EuRules.ParcelTierBounds | fba_fee_calculator_eu.py:193-229 | A parcel or oversize tier means all of its bounds hold and no earlier tier's bounds do. It also means no envelope fits and the parcel is not special oversize. |
| EuRules.HeavyStandardExactly | fba_fee_calculator_eu.py:213-216 | `重型标准大件` means exactly: over 15000 g and at most 23000 g, within 101x60x60 cm, and at most 72720 g of volume weight. |
| EuRules.SpecialOversizeExactly | fba_fee_calculator_eu.py:228-232 | `特殊大件` means special oversize, or over 31500 g, or over 126000 g of volume weight. For non-negative sides the converse holds too. |
| EuRules.EuShippingWeight | fba_fee_calculator_eu.py:241-259 | The billing weight is never below the actual weight. It is the actual weight, or the volume weight when that is larger. |
| EuRules.ShippingWeightOfTier | fba_fee_calculator_eu.py:254-259 | Envelopes and `特殊大件` are billed by actual weight. Every other tier is billed by the larger weight. |
| FeeLookup.CleanFee | fba_fee_calculator_us.py:397 | The cleaned fee has no currency sign of its region and no comma. |
| FeeLookup.EvalFee | fba_fee_calculator_us.py:397-419 | Only a literal cell can raise. A fee read from a formula is already a whole number of cents. When a cell raises, what it reads as is `EvalFeeRaisedIff`. |
| FeeLookup.FindFee | fba_fee_calculator_us.py:367-421 | With no band holding the weight the result is `Unresolved`. Any other result is the fee of a band that holds the weight. The first such band is `FindFeeByWeight`. |
| FeeLookup.FirstMatch | fba_fee_calculator_us.py:382-387 | The first band, in table order, whose range holds the weight. `None` means no band's range holds it. |
| FeeLookup.FindFeeByWeight | fba_fee_calculator_us.py:367-421 | The row loop returns what the matched band's fee reads as, and `Unresolved` when no band matches. |
| FeeLookup.FirstMatchAt | fba_fee_calculator_eu.py:332-337 | A band that matches, with no match before it, is the one that is used. |
| FeeLookup.Select | fba_fee_calculator_us.py:329-338 | Selecting rows by key keeps no more rows than the table has. The result is empty exactly when no row has the key. |
| FeeLookup.FirstRow | fba_fee_calculator_us.py:329-341 | The first row in table order with the key and a range that holds the weight. |
| FeeLookup.SelectFirstMatch | fba_fee_calculator_us.py:329-341 | Selecting and then matching gives the fee of the first row with the key whose range holds the weight. |
| FeeLookup.Cascade | fba_fee_calculator_us.py:340-361 | With the FBA policy (`fee > 0`), the cascade's fee is never negative. |
| FeeLookup.CascadeFirstAccepted | fba_fee_calculator_us.py:340-357 | When the earlier weights all pass on, the first weight with an accepted fee decides the result. |
| FeeLookup.CascadeRaised | fba_fee_calculator_us.py:363-365 | When the earlier weights all pass on, a weight whose fee cell raises ends the cascade with 0.0. |
| FeeLookup.CascadeExhausted | fba_fee_calculator_us.py:359-361 | When every weight passes on, the fee is 0.0. |
| FeeLookup.NoBandsNoFee | fba_fee_calculator_us.py:421 | With no rows, every weight gives 0.0. |
| FeeLookup.UsFallbackWeights | fba_fee_calculator_us.py:340-357 | The US order is the billing weight, then the actual weight when it differs, then the volume weight when it differs from both. Every entry is one of the three weights, and no weight repeats. |
| FeeLookup.FallbackWeights | fba_fee_calculator_eu.py:292-311 | The EU and multichannel order is the billing weight, then each given weight that differs from it: the actual weight second, the volume weight last. So it holds at most three weights, and only the first is the billing weight. |
| FeeLookup.FallbackRepeats | fba_fee_calculator_eu.py:299-311 | The EU order can try the same weight twice; the US order cannot. |
| FeeLookup.PriceRange | fba_fee_calculator_us.py:321-326 | The price bucket: `<10`, `[10,50]` or `>50`, each as an if-and-only-if. |
| FeeLookup.UsFbaFee | fba_fee_calculator_us.py:303-365 | The US FBA fee is never negative, and it is 0.0 when no row has the period, price bucket and tier. |
| FeeLookup.CalculateFeeFromTable | fba_fee_calculator_us.py:303-365 | The method computes the US FBA fee. |
| FeeLookup.UsFallbackCascade | fba_fee_calculator_us.py:340-361 | The method's weight-by-weight tries are the cascade over the US fallback order. |
| FeeLookup.EuFbaFee | fba_fee_calculator_eu.py:261-318 | The EU fee is never negative, and it is 0.0 when no row has the period, country and tier. |
| FeeLookup.CalculateEuropeanFeeFromTable | fba_fee_calculator_eu.py:261-318 | The method computes the EU fee. |
| FeeLookup.FallbackCascade | fba_fee_calculator_eu.py:292-314 | The method's tries are the cascade over the EU and multichannel order. |
| FeeLookup.MultichannelFee | fba_fee_calculator_us.py:561-613 | No table, or no row with the shipping type and tier, gives 0.0. |
| FeeLookup.CalculateMultichannelFee | fba_fee_calculator_us.py:535-609 | The method computes the multichannel fee, accepting the first resolved fee. |
| FeeLookup.LiteralRaisesIff | fba_fee_calculator_us.py:400-401 | A digits-and-dots literal slips past the `isdigit` test and then makes `float` raise exactly when it holds two or more dots. |
| FeeLookup.EvalFeeRaisedIff | fba_fee_calculator_us.py:397-403 | A fee cell raises exactly when its cleaned text is digits and dots with at least two dots. |
| FeeLookup.ReadDecimal | fba_fee_calculator_us.py:400-403 | A `digits.digits` cell is a literal and reads as its decimal value. |
| FeeLookup.CleanPlain | fba_fee_calculator_us.py:397 | A text with no currency sign and no comma is left as it is. |
| FeeLookup.CleanSigned | fba_fee_calculator_eu.py:348 | The region's currency sign in front of such a text is dropped: `$` in the US, `£` or `€` in the EU. |
| FeeLookup.CleanAmount | fba_fee_calculator_eu.py:348 | Cleaning the region's currency sign (`$`, or `£` or `€`) followed by a plain amount gives the amount. |
| FeeLookup.EvalFeeAmount | fba_fee_calculator_eu.py:348-354 | A fee cell such as `£3.45` or `€3.45` (or `$3.45` in the US) reads as the amount 3.45. |
| FeeLookup.OperatorNotLiteral | fba_fee_calculator_us.py:400 | A text holding `+` is not taken for a literal. |
| FeeLookup.EvalFeeFormula | fba_fee_calculator_us.py:404-413 | A cell that is not a literal and has no sign or comma costs its evaluated value rounded to two places. |
| FeeLookup.EvalFeeSignedFormula | fba_fee_calculator_eu.py:348-360 | The same cell after the region's currency sign costs the same. |
| FeeLookup.EvalFeeLinear | fba_fee_calculator_us.py:397-413 | A cell `base+rate*发货重量` with decimal `base` and `rate` costs `base + rate * w` rounded to two places. |
| FeeLookup.EvalFeeExample | fba_fee_calculator_us.py:397-413 | The US cell `$0.40+0.10*发货重量` at 5 pounds costs 0.90. |
| Formula.Apply | fba_fee_calculator_us.py:412 | An arithmetic step fails exactly on a division by zero. |
| Formula.ParseOfPrint | fba_fee_calculator_us.py:412 | Parsing a printed expression gives the expression back. |
| Formula.ProductBindsTighter | fba_fee_calculator_us.py:412 | `a+b*c` parses as `a+(b*c)` and `a*b+c` as `(a*b)+c`, for either sum operator and either product operator. |
| Formula.LeftAssociative | fba_fee_calculator_us.py:412 | Two operators of the same level group to the left: `a-b+c` is `(a-b)+c` and `a/b*c` is `(a/b)*c`. |
| Formula.LinearFormula | fba_fee_calculator_us.py:407-412 | The text `base+rate*发货重量`, with decimal `base` and `rate`, evaluates to `base + rate * w`. |
| Formula.FormulaExample | fba_fee_calculator_us.py:407-412 | `0.40+0.10*发货重量` at the weight 5 evaluates to 0.9. |
| Formula.Evaluate | fba_fee_calculator_us.py:407-412 | An empty formula does not evaluate. Precedence and grouping are `ProductBindsTighter` and `LeftAssociative`, and the linear fee cell is `LinearFormula`. |
| Formula.Round | fba_fee_calculator_us.py:413 | The rounded value is within half a unit of the last place of the value. |
| Formula.RoundHalfEven | fba_fee_calculator_us.py:413 | The integer chosen is within one half of the value, strictly so unless the value lies exactly halfway, and a halfway value goes to the even neighbour. |
| Formula.RoundMonotone | fba_fee_calculator_us.py:413 | Rounding never reverses the order of two values. |
| Formula.RoundOnGrid | fba_fee_calculator_us.py:413 | A value that is a whole number of hundredths (for two places) is unchanged by rounding. |
| Formula.RoundExact | fba_fee_calculator_us.py:682 | A value that already has the given number of places is unchanged by rounding. |
| Formula.RoundNonNegative | fba_fee_calculator_us.py:708 | Rounding a non-negative value gives a non-negative value. |
| Formula.RoundIdempotent | fba_fee_calculator_us.py:677-714 | Rounding twice to the same places is rounding once. |
| RangeMatch.IntervalSyntax | fba_fee_calculator_us.py:439 | A match of the interval pattern captures two numeric groups, and the text holds `]`. |
| RangeMatch.BoundForm | fba_fee_calculator_us.py:454-465 | A leading `<`, `<=`, `>=` or `>` is split off from its limit. Texts without a leading `<` or `>` have none. |
| RangeMatch.RemoveBrackets | fba_fee_calculator_us.py:447 | Removing brackets keeps exactly the characters that are not `()[]`. |
| RangeMatch.UsInRange | fba_fee_calculator_us.py:423-471 | A US range holds a weight only when it has a `]` or its cleaned text leads with `<` or `>`. The forms it reads are `UsIntervalForm` and `UsBoundForm`. |
| RangeMatch.EuInRange | fba_fee_calculator_eu.py:374-426 | An EU range holds a weight only when its cleaned text leads with `<` or `>`. The forms it reads are `EuBoundForm`. |
| RangeMatch.UsIntervalForm | fba_fee_calculator_us.py:436-443 | A US range `(a,b]`, optionally followed by `磅`, holds exactly the weights with `a < w <= b`. |
| RangeMatch.UsBoundForm | fba_fee_calculator_us.py:454-465 | A US range `<x`, `<=x`, `>=x` or `>x`, optionally followed by `磅`, holds exactly the weights that satisfy the comparison. |
| RangeMatch.EuBoundForm | fba_fee_calculator_eu.py:387-418 | An EU range `<x`, `<=x`, `>=x` or `>x`, optionally followed by `g`, holds exactly the weights that satisfy the comparison. |
| RangeMatch.UsRejectsOther | fba_fee_calculator_us.py:436-467 | A US range without `]` and without a leading comparison holds no weight. This is the contract of `UsInRange`, stated as a lemma. |
| RangeMatch.EuRejectsOther | fba_fee_calculator_eu.py:420-421 | An EU range without a leading comparison holds no weight. This is the fall-through case of the single-bound reading by definition, the contract of `EuInRange` stated as a lemma. |
| RangeMatch.EuRejectsInterval | fba_fee_calculator_eu.py:387-421 | The EU matcher holds no weight in an interval `(a,b]`. |
| RangeMatch.UsRejectsSquareOpener | fba_fee_calculator_us.py:439-451 | A US range `[a,b]` holds no weight: the pattern needs `(` or nothing before the first number, and the fallback needs `(`. |
| RangeMatch.UsRejectsRoundCloser | fba_fee_calculator_us.py:439-451 | A US range `(a,b)` holds no weight. |
| Text.Strip | fba_fee_calculator_eu.py:445 | `strip` keeps a contiguous slice that neither begins nor ends with a blank. |
| Text.StripIdempotent | fba_fee_calculator_eu.py:445 | Stripping twice is stripping once. |
| Text.RemoveChar | fba_fee_calculator_us.py:397 | `replace(c, '')` keeps exactly the other characters, in order. |
| Text.ParseFloat | fba_fee_calculator_us.py:648-658 | `float` of a blank text raises. |
| Text.ParseFloatStrip | fba_fee_calculator_us.py:648-658 | `float` ignores surrounding blanks. |
| Text.ParseFloatDigits | fba_fee_calculator_us.py:401 | `float` of a digit string is its decimal value. |
| Text.ParseUnsignedDecimal | fba_fee_calculator_us.py:401 | `float` of `whole.frac` is its decimal value. |
| Cells.ReadFloat | fba_fee_calculator_us.py:648-658 | A numeric cell reads as its number, and a blank text cell does not read. |
| UsPipeline.InPoundsFactor | fba_fee_calculator_us.py:657-662 | Grams and kilograms (any letter case) are converted to pounds by their factors; other units are taken as pounds. |
| UsPipeline.Measures | fba_fee_calculator_us.py:647-662 | A record gives measures exactly when all four number cells read. |
| UsPipeline.FbaColumn | fba_fee_calculator_us.py:703-714 | One fee per period. |
| UsPipeline.FbaFees | fba_fee_calculator_us.py:703-714 | The per-period loop computes the rounded FBA fee for every period. |
| UsPipeline.ProcessMeasured | fba_fee_calculator_us.py:664-714 | The loop body computes the record's tiers, weights and fees. |
| UsPipeline.ProcessRecord | fba_fee_calculator_us.py:645-718 | The loop body leaves the output record the row rule describes. An unreadable side or weight leaves the defaults. |
| UsPipeline.ProcessProductDataframe | fba_fee_calculator_us.py:616-720 | One output record per input record, each as the row rule describes. |
| UsPipeline.UsRowResult | fba_fee_calculator_us.py:645-718 | Both FBA columns have one entry per period. A tier column is empty exactly when a side or the weight does not read. The values are `RowTiers` and `RowFees`. |
| UsPipeline.RowTiers | fba_fee_calculator_us.py:664-679 | An unreadable record keeps its defaults. A readable one gets the labels of its 2024 and 2026 tiers, which are never empty. |
| UsPipeline.RowFees | fba_fee_calculator_us.py:680-714 | Every record has one fee per period under each rule set. The FBA fees and the removal fee are non-negative. An unreadable price leaves the FBA fees at zero. |
| EuPipeline.StoreCountry | fba_fee_calculator_eu.py:444-452 | A store that is processed maps to 英国 or 德国. |
| EuPipeline.StoreCountryIgnoresBlanks | fba_fee_calculator_eu.py:445 | The store code is read without regard to surrounding blanks. |
| EuPipeline.StoreCountryIgnoresCase | fba_fee_calculator_eu.py:445 | The store code is read without regard to letter case. |
| EuPipeline.EuMeasures | fba_fee_calculator_eu.py:455-458 | A record gives measures exactly when all four number cells read. |
| EuPipeline.EuFeeColumn | fba_fee_calculator_eu.py:479-488 | One fee per period. |
| EuPipeline.ProcessMeasured | fba_fee_calculator_eu.py:460-488 | The loop body, with its envelope loop and per-period loop, computes the record's tier, weight and fees. |
| EuPipeline.ProcessRecord | fba_fee_calculator_eu.py:443-492 | A record is skipped exactly for an unknown store or an unreadable number, and a skipped record keeps its defaults. Every other record gets the row rule's result. |
| EuPipeline.ProcessProductDataframe | fba_fee_calculator_eu.py:428-494 | One output record per input record, each as the row rule describes. |
| EuPipeline.EuRowResult | fba_fee_calculator_eu.py:441-492 | The fee column has one entry per period. The country is empty exactly when the store is unknown or a number does not read, and otherwise it is 英国 or 德国. The values are `RowFacts`. |
| EuPipeline.CountryEmptyIffDefaults | fba_fee_calculator_eu.py:433-476 | A record keeps its defaults exactly when its country column stays empty, which is exactly when it is skipped. |
| EuPipeline.RowFacts | fba_fee_calculator_eu.py:460-488 | A processed record holds the classifier's label and the billing weight to three places. Every period's fee is non-negative. |

## Left out

- File and console I/O are not modelled. That covers `load_excel_data`,
  `process_file`, `_resolve_path`, the multichannel CSV read (taken as an
  `Option` table) and every `print`.
- `dimension_rules` is loaded but never used by the rules, so it is not
  modelled.
- The European `convert_units` is not modelled, because it refers to a
  constant (`G_TO_KG`) that the class never defines.
- DataFrame mechanics are not modelled: `copy`, `iterrows`, column creation
  and the missing-column `KeyError`. Records arrive as a sequence whose
  required columns are present; only the US `sales-price` column is
  optional.
- `eval` is modelled only on the arithmetic subset the fee cells use:
  numbers, the weight, `+ - * /`, unary signs and parentheses. Another
  Python expression (`**`, `//`, `%`, names, calls) counts as a failed
  evaluation.
- The `str(weight)` text substitution is not modelled: the formula reads
  the weight as an exact value.
- Binary floating point is not modelled. Numbers are exact reals, so
  `round` is half-to-even on the exact value, and float representation
  error is absent.
- `float` is modelled for ASCII decimal texts with an optional sign. It
  omits exponents, `inf`/`nan` and underscores.
- `isdigit` is modelled for ASCII digits only. `lower`/`upper` change ASCII
  letters only.
- Python's `re` is not modelled in general: only the one pattern the US
  matcher uses, `^\(?\s*([0-9\.]+)\s*,\s*([0-9\.]+)\s*\]$`, and the
  bracket removal of its fallback, are written out.
- UsRules.Sort3: its own contract states only the order of the result; the
  permutation property is the separate lemma `UsRules.Sort3Permutation`.
- UsRules.ShippingWeight: a year other than 2024 and 2026 gives `None`,
  where the source raises `UnboundLocalError`; that exception is caught by
  no caller in the core because both callers pass 2024 or 2026.
- EuPipeline.ProcessProductDataframe writes a skipped record's defaults
  explicitly, where the source leaves that row of the freshly created
  columns as it was; the values are the same.
- Cells.ReadFloat, UsPipeline.Measures and EuPipeline.EuMeasures: an empty
  cell is left out. pandas reads it as NaN (fba_fee_calculator_us.py:741,
  fba_fee_calculator_eu.py:515), and `float` of NaN does not raise. Every
  comparison with NaN is false, so a blank side or weight would reach the
  catch-all tiers, and a blank price would fall in the `>50` bucket
  (fba_fee_calculator_us.py:321-326). A cell here is a number or a text.
- The formula tokenizer accepts line breaks inside parentheses and at the
  end, as Python does, and rejects integers with a leading zero such as
  `05`. It does not accept a line break before the first token, and it has
  no exponents (`1e3`), no underscores in numbers (`1_000`) and no `0x`
  prefixes.
- Exceptions other than those described (a missing dictionary key, a
  non-string cell in a text column) are not modelled.
