# Minimum living cost calculator — Dafny model

This project models the logic of the `MinimumLivingCostCalculator` React
component. The component computes a household's monthly minimum living cost
in Taiwan: the per-person figure of the chosen county or city times the
number of household members typed in.

It is organised in four modules:

- `Options` (options.dfy): the `Option` datatype. `None` stands for
  JavaScript's `null`, `undefined` or NaN, depending on where it is used.
- `CostTable` (cost_table.dfy): the cost table `livingCostData` and the
  grouping `regionGroups`.
  - The 22 keys are a closed datatype `Region`, with `Name` (its key string)
    and `Cost` (its figure).
  - `Lookup` and `CostOf` model the lookup by an arbitrary string key.
  - `PickerOptions` is the list of values the region picker offers.
  - The lemmas prove that the table and the groups agree.
- `NumberParsing` (number_parsing.dfy): `Number.parseInt(s)` without a radix
  argument, as section 19.2.5 of ECMA-262 defines it:
  - skip white space and line terminators;
  - read an optional sign;
  - switch to radix 16 after a "0x" or "0X" prefix;
  - read the longest run of digits.
- `Calculator` (calculator.dfy): the component itself.
  - The pure part is a `State` of the three `useState` variables with the
    `Calculate` transition, the button's enabled condition and the result
    card's display guard.
  - The imperative part is the class `MinimumLivingCostCalculator`. Its three
    fields are updated by the handlers `SelectRegion`, `EditHouseholdSize`,
    `HandleCalculate` and `HandleReset`. Each handler is specified against the
    pure transition.

The calculation has no range check on the household size. The input's
`min="1"`/`max="20"` (components/minimum-living-cost-calculator.tsx:124-125)
only constrain the browser widget; `handleCalculate` checks no range. So "0"
gives a result of 0, for which the result card is not shown, and "21" gives
21 times the cost (`Calculator.NoRangeCheck`).

## Model

| member | source | states |
|---|---|---|
| CostTable.AllRegions | components/minimum-living-cost-calculator.tsx:13-36 | the table's 22 entries in source order; its contract is carried by AllRegionsEnumerated and AllRegionsDistinct |
| CostTable.RegionGroups | components/minimum-living-cost-calculator.tsx:38-57 | the three groups with their members in source order; its contract is carried by GroupLayout and the three group-order lemmas |
| CostTable.Name | components/minimum-living-cost-calculator.tsx:13-36 | each region's key in the table is a non-empty string |
| CostTable.Cost | components/minimum-living-cost-calculator.tsx:13-36 | every per-person figure is a positive whole amount between 14341 and 20379 |
| CostTable.AllRegionsEnumerated | components/minimum-living-cost-calculator.tsx:13-36 | every region of the table appears in the enumeration of its entries |
| CostTable.AllRegionsDistinct | components/minimum-living-cost-calculator.tsx:13-36 | the table has exactly 22 entries, no two the same |
| CostTable.Lookup | components/minimum-living-cost-calculator.tsx:67 | a key that finds a region is exactly that region's name |
| CostTable.LookupName | components/minimum-living-cost-calculator.tsx:67 | looking up a region's name finds that region |
| CostTable.LookupInvertsName | components/minimum-living-cost-calculator.tsx:67 | lookup inverts `Name`, and a key misses exactly when no region has that name |
| CostTable.NamesDistinct | components/minimum-living-cost-calculator.tsx:13-36 | two regions share a key exactly when they are the same region |
| CostTable.CostOf | components/minimum-living-cost-calculator.tsx:67 | indexing the table finds no own property exactly for strings that are no region's name (JavaScript then reads `undefined` or an inherited non-number, and the product is NaN either way), finds the region's figure otherwise, and that figure is positive |
| CostTable.CostExamples | components/minimum-living-cost-calculator.tsx:13-36 | 台北市 costs 20379, 新北市 16900, and 金門縣 and 連江縣 14341 each |
| CostTable.UnknownKeys | components/minimum-living-cost-calculator.tsx:67 | the empty string, "臺北市" and "台北" are not keys: keys match exactly |
| CostTable.PickerOptions | components/minimum-living-cost-calculator.tsx:101-108 | the picker offers every region listed in every group, and nothing else |
| CostTable.GroupLayout | components/minimum-living-cost-calculator.tsx:38-57 | there are three groups, 六都 (6), 台灣省 (14) and 福建省 (2), in that order |
| CostTable.MunicipalitiesGroupOrder | components/minimum-living-cost-calculator.tsx:39 | the 六都 group lists the first six table keys in table order |
| CostTable.TaiwanProvinceGroupOrder | components/minimum-living-cost-calculator.tsx:40-55 | the 台灣省 group lists the next fourteen table keys in table order |
| CostTable.FujianProvinceGroupOrder | components/minimum-living-cost-calculator.tsx:56 | the 福建省 group lists the last two table keys |
| CostTable.PickerOptionsOfGroups | components/minimum-living-cost-calculator.tsx:101-108 | the picker's options are the three groups' regions one group after another |
| CostTable.GroupsFollowTableOrder | components/minimum-living-cost-calculator.tsx:13-57 | the groups, concatenated, are the table's keys in table order |
| CostTable.PickerListsTableKeys | components/minimum-living-cost-calculator.tsx:13-57 | the picker's options are exactly the table's keys, in table order |
| CostTable.PickerOffersEveryRegion | components/minimum-living-cost-calculator.tsx:101-108 | every region of the table can be picked |
| CostTable.PickerOptionsDistinct | components/minimum-living-cost-calculator.tsx:38-57 | no region is offered twice, within or across groups |
| CostTable.PickedRegionHasCost | components/minimum-living-cost-calculator.tsx:67 | a value chosen through the picker always finds a figure in the table, so the lookup never gives `undefined` |
| NumberParsing.DigitValue | components/minimum-living-cost-calculator.tsx:68 | a digit's value is below the radix; "0"-"9" have their decimal values and, in radix 16, "a"-"f" and "A"-"F" the values 10-15 |
| NumberParsing.DigitsOfRadix | components/minimum-living-cost-calculator.tsx:68 | the radix-10 digits are exactly "0"-"9"; the radix-16 digits are exactly those and "a"-"f", "A"-"F" |
| NumberParsing.TrimStart | components/minimum-living-cost-calculator.tsx:68 | the trimmed string is a suffix of the input, everything removed is white space, and it does not start with white space |
| NumberParsing.DigitRun | components/minimum-living-cost-calculator.tsx:68 | the digit run is the longest prefix of digits of the radix |
| NumberParsing.SplitSign | components/minimum-living-cost-calculator.tsx:68 | the sign step; its meaning is carried by ParseMinusSign ("-" negates, NaN stays NaN) and ParsePlusSign ("+" changes nothing) |
| NumberParsing.SplitRadix | components/minimum-living-cost-calculator.tsx:68 | the prefix step; its meaning is carried by ParseHexPrefixed and ParseHexDigits (after "0x"/"0X" the rest is read in radix 16) and by UnsignedUnchanged and NoHexPrefix (otherwise radix 10 from the first character) |
| NumberParsing.ParseInt | components/minimum-living-cost-calculator.tsx:68 | `Number.parseInt` gives a number only when, after the leading white space, the input starts with a sign or a numeral |
| NumberParsing.TrimStartUnchanged | components/minimum-living-cost-calculator.tsx:68 | input that does not start with white space is not trimmed |
| NumberParsing.UnsignedUnchanged | components/minimum-living-cost-calculator.tsx:68 | input with no sign and no "0x" prefix is read in radix 10 from its first character |
| NumberParsing.ParsePlusSign | components/minimum-living-cost-calculator.tsx:68 | a leading "+" changes nothing: "+" followed by unsigned text reads as that text does, NaN included |
| NumberParsing.ParseTwoDigits | components/minimum-living-cost-calculator.tsx:68 | two numerals read as the two-digit decimal number they spell |
| NumberParsing.ReadDigits | components/minimum-living-cost-calculator.tsx:68 | reading digits gives NaN exactly when the text does not start with a digit |
| NumberParsing.DecimalString | components/minimum-living-cost-calculator.tsx:68 | the decimal form of `n` is a non-empty run of numerals with no leading zero |
| NumberParsing.DecimalStringValue | components/minimum-living-cost-calculator.tsx:68 | the decimal form of `n` consists of digits that denote `n` |
| NumberParsing.DigitRunOfDigits | components/minimum-living-cost-calculator.tsx:68 | the digit run of digits followed by a non-digit ends at that non-digit |
| NumberParsing.NoHexPrefix | components/minimum-living-cost-calculator.tsx:68 | decimal digits start a hexadecimal prefix only when they are a lone "0" followed by "x" or "X" |
| NumberParsing.ParseUnsignedDecimal | components/minimum-living-cost-calculator.tsx:68 | input starting with a numeral and no "0x" prefix parses as its leading decimal run |
| NumberParsing.ReadDigitsThenRest | components/minimum-living-cost-calculator.tsx:68 | digits followed by a non-digit read as the value of those digits |
| NumberParsing.ParseDigitsThenRest | components/minimum-living-cost-calculator.tsx:68 | decimal digits followed by anything that does not continue the number parse as the value of those digits |
| NumberParsing.ParseDecimalPrefix | components/minimum-living-cost-calculator.tsx:68 | the decimal form of `n` followed by a non-digit parses as `n` |
| NumberParsing.ParseDecimalString | components/minimum-living-cost-calculator.tsx:68 | round trip: parsing the decimal form of every natural `n` gives `n` |
| NumberParsing.ParseMinusSign | components/minimum-living-cost-calculator.tsx:68 | a leading "-" negates what follows and keeps NaN as NaN |
| NumberParsing.ParseNegative | components/minimum-living-cost-calculator.tsx:68 | "-" followed by the decimal form of `n` parses as `-n` |
| NumberParsing.TrimStartSkipsWhiteSpace | components/minimum-living-cost-calculator.tsx:68 | trimming skips any prefix of white space entirely |
| NumberParsing.ParseSkipsWhiteSpace | components/minimum-living-cost-calculator.tsx:68 | leading white space never changes the parsed value |
| NumberParsing.ParseNoNumber | components/minimum-living-cost-calculator.tsx:68 | input that starts with neither white space, a sign nor a numeral parses as NaN |
| NumberParsing.ParseSingleDigit | components/minimum-living-cost-calculator.tsx:68 | a single numeral parses as its digit value |
| NumberParsing.ParseWholeExample | components/minimum-living-cost-calculator.tsx:68 | "4" parses as 4 |
| NumberParsing.ParseOverTwentyExample | components/minimum-living-cost-calculator.tsx:68 | "21" parses as 21 |
| NumberParsing.ParseFractionExample | components/minimum-living-cost-calculator.tsx:68 | "2.5" parses as 2: reading stops at the decimal point |
| NumberParsing.ParseExponentExample | components/minimum-living-cost-calculator.tsx:68 | "1e3" parses as 1: an exponent is not read |
| NumberParsing.ParseHexExample | components/minimum-living-cost-calculator.tsx:68 | "0x1A" parses as 26: without a radix argument a "0x" prefix selects hexadecimal |
| NumberParsing.ParseHexPrefixed | components/minimum-living-cost-calculator.tsx:68 | after a "0x" or "0X" prefix the rest of the input, whatever it is, is read as radix-16 digits |
| NumberParsing.ParseHexDigits | components/minimum-living-cost-calculator.tsx:68 | "0x" or "0X", then hexadecimal digits, then a non-digit, parses as the number those digits denote |
| NumberParsing.ParseBarePrefix | components/minimum-living-cost-calculator.tsx:68 | "0x" with no hexadecimal digits parses as NaN |
| NumberParsing.ParseBareSign | components/minimum-living-cost-calculator.tsx:68 | a lone "-" parses as NaN |
| Calculator.Times | components/minimum-living-cost-calculator.tsx:68 | JavaScript's `*` on a possibly undefined cost and a possibly NaN size; its meaning is carried by TotalCostOfRegion, TotalCostNaN and Calculate |
| Calculator.TotalCost | components/minimum-living-cost-calculator.tsx:67-68 | the lookup-and-multiply; its meaning is carried by TotalCostOfRegion (a region's figure times `n` for the size `n`), TotalCostNaN and Calculate |
| Calculator.Ready | components/minimum-living-cost-calculator.tsx:65 | the guard of `handleCalculate`; its meaning is carried by Calculate (a failed guard changes nothing) and CalculateEnabled (it is the button's condition) |
| Calculator.CalculateEnabled | components/minimum-living-cost-calculator.tsx:137 | the button is enabled exactly when the guard of `handleCalculate` passes |
| Calculator.ResultShown | components/minimum-living-cost-calculator.tsx:151 | the card's display guard; its meaning is carried by NoRangeCheck (a computed 0 shows no card), ShownResultHasRegionCost and BreakdownShowsRawSize |
| Calculator.TotalCostOfRegion | components/minimum-living-cost-calculator.tsx:67-68 | a region's total for a size typed as `n` is its figure times `n` |
| Calculator.TotalCostNaN | components/minimum-living-cost-calculator.tsx:67-68 | for a picked region the total is NaN exactly when the size has no number in it |
| Calculator.Calculate | components/minimum-living-cost-calculator.tsx:64-70 | calculation never changes the two inputs; when both are non-empty it sets the result to the region's figure times the parsed size, or NaN when either is missing; otherwise it changes nothing |
| Calculator.InitialReachable | components/minimum-living-cost-calculator.tsx:60-62 | the initial state has no region and no result, so it is reachable |
| Calculator.SelectKeepsReachable | components/minimum-living-cost-calculator.tsx:96 | picking one of the picker's options keeps the region pickable and the state reachable |
| Calculator.EditKeepsReachable | components/minimum-living-cost-calculator.tsx:127 | typing any size keeps the state reachable |
| Calculator.CalculateKeepsReachable | components/minimum-living-cost-calculator.tsx:64-70 | a calculation sets a result only once a region is chosen, keeping the state reachable |
| Calculator.EnabledIffCalculates | components/minimum-living-cost-calculator.tsx:137 | when the button is enabled, pressing it sets the total; when it is disabled, pressing it does nothing |
| Calculator.CalculateIdempotent | components/minimum-living-cost-calculator.tsx:64-70 | calculating twice leaves the same state as calculating once |
| Calculator.CalculateNaNOnlyForBadSize | components/minimum-living-cost-calculator.tsx:64-70 | in a reachable state a calculation gives NaN exactly when the size has no number in it |
| Calculator.NoRangeCheck | components/minimum-living-cost-calculator.tsx:65-68 | no range check: size "0" gives 0, for which the result card is not shown, and "21" gives 21 times the cost |
| Calculator.ShownResultHasRegionCost | components/minimum-living-cost-calculator.tsx:151-169 | while the card is shown, the breakdown's lookup of the current region is defined |
| Calculator.BreakdownAfterCalculate | components/minimum-living-cost-calculator.tsx:151-171 | right after a calculation that shows a result, the result equals the current region's per-person figure times the size as `parseInt` reads it |
| Calculator.BreakdownShowsRawSize | components/minimum-living-cost-calculator.tsx:151-171 | the breakdown prints the size as typed: 台北市 with "2.5" shows the result 40758, which is 20379 times 2, beside the text "2.5" |
| Calculator.BreakdownGoesStale | components/minimum-living-cost-calculator.tsx:96 | after 台北市 with "2" gives 40758, picking 新北市 keeps 40758 on screen beside 新北市's figure 16900 |
| Calculator.InitialStateIsQuiet | components/minimum-living-cost-calculator.tsx:60-62 | the initial state shows no card, has the button disabled, and a calculation does not change it |
| Calculator.TaipeiSinglePersonExample | components/minimum-living-cost-calculator.tsx:64-70 | 台北市 with "1" gives 20379 |
| Calculator.NewTaipeiFourPersonsExample | components/minimum-living-cost-calculator.tsx:64-70 | 新北市 with "4" gives 67600 |
| Calculator.KinmenThreePersonsExample | components/minimum-living-cost-calculator.tsx:64-70 | 金門縣 with "3" gives 43023 |
| Calculator.MinimumLivingCostCalculator.constructor | components/minimum-living-cost-calculator.tsx:60-62 | the component starts with "", "" and `null` |
| Calculator.MinimumLivingCostCalculator.SelectRegion | components/minimum-living-cost-calculator.tsx:96 | picking sets only the region, and keeps the state reachable |
| Calculator.MinimumLivingCostCalculator.EditHouseholdSize | components/minimum-living-cost-calculator.tsx:127 | editing sets only the size text, and keeps the state reachable |
| Calculator.MinimumLivingCostCalculator.HandleCalculate | components/minimum-living-cost-calculator.tsx:64-70 | the new state is `Calculate` of the old one, only `result` changes, and the state stays reachable |
| Calculator.MinimumLivingCostCalculator.HandleReset | components/minimum-living-cost-calculator.tsx:72-76 | from any state, reset restores "", "" and `null`, so a second reset changes nothing |
| Calculator.MinimumLivingCostCalculator.CanCalculate | components/minimum-living-cost-calculator.tsx:137 | the button is enabled exactly when both fields are non-empty |
| Calculator.MinimumLivingCostCalculator.ShowsResult | components/minimum-living-cost-calculator.tsx:151-169 | whenever the card is shown, the breakdown's lookup of the current region finds a figure |

## Left out

- The JSX markup and the UI library components (cards, select, input, buttons, alert, icons) are not modelled. They are presentation only.
- The page that mounts the component (app/page.tsx) is not part of this model. It is layout only.
- `toLocaleString` formatting of the amounts is not modelled. Its output depends on the host's locale.
- React's state scheduling and re-rendering are not modelled. Each setter is a plain field assignment, applied in order.
- The static explanation and data-source texts are not modelled.
- JavaScript numbers are modelled as NaN or an exact integer. Rounding beyond 2^53 is not modelled; every realistic product is far below it. Products that exceed 2^53 and digit strings long enough to round or overflow to Infinity are out of scope.
- JavaScript's -0 (from "-0") is the integer 0. Both are falsy, so nothing shown differs.
- Strings are sequences of code points. ECMA-262 works on UTF-16 code units; for the Basic Multilingual Plane the white-space set and the digits are the same either way.
- Calculator.MinimumLivingCostCalculator.EditHouseholdSize: accepts any text. The browser's sanitising of a `type="number"` input is not modelled, so every string the field might hold is covered.
- Calculator.MinimumLivingCostCalculator.SelectRegion: requires a value that the picker offers. The select component only calls back with one of its item values.
- No range check on the household size is modelled, because `handleCalculate` has none. The input's `min`/`max` (components/minimum-living-cost-calculator.tsx:124-125) only constrain the browser widget.
- The stray number is not modelled. When `result` is 0 or NaN, `{result && (...)}` (components/minimum-living-cost-calculator.tsx:151) evaluates to that number, and React renders it as the text "0" or "NaN" where the card would be (for example after a size of "0" or ".5"). `ResultShown` models only whether the card appears.
- The text of the breakdown line is not modelled. Lines 160 and 170 print `householdSize` as typed, not as parsed, so for sizes such as "2.5" or "1e3" the line reads, for example, "20,379 × 2.5 = 40,758". `BreakdownShowsRawSize` exhibits the "2.5" case.
- Inherited property names are not modelled. The table is an object literal, so `livingCostData["toString"]` and similar names read an inherited `Object.prototype` member, not `undefined`. `CostOf` gives None for them as for any other non-key; the product at line 68 is NaN either way, and the picker never offers such names.
