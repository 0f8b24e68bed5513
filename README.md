# Freight calculator quote engine, in Dafny

This project models the pricing logic of the mirror-freight calculator (`components/freight-calculator.tsx`). The form collects lines of mirrors (width and height in inches, and a quantity), a destination state and optional accessorial services. It then computes a freight quote or shows one of three messages telling the customer to fix the input or ask for a manual quote.

The model has five modules:

- `Wrappers` (Wrappers.dfy) holds `Option` and `Result`.
- `FreightTables` (Tables.dfy) holds the static configuration:
  - the six pallet size tiers; the last one has no size bound;
  - the small-parcel (UPS) and pallet state-adder groups;
  - the 48 selectable states;
  - `FindTier`, the first-match tier lookup (`PALLET_SIZES.find`).
- `Accessorials` (Accessorials.dfy) holds:
  - the four accessorial options;
  - the checkbox rule, under which 'None' excludes the others;
  - the flat 25 fee for each paid service.
- `FreightQuote` (Quote.dfy) is the pricing engine as pure functions:
  - `ItemCost` prices one line, by small parcel or by pallet;
  - `Total` sums a measure over the lines (units, oversized units or cost);
  - `ApplyVolumeCap` applies the volume-band caps;
  - `ComputeQuote` returns the quote or the first error, in the source's order.
- `FreightForm` (Calculator.dfy) holds the form state as a `FreightCalculator` class. Its fields are `items`, `state`, `accessorials`, `totalPrice` and `error`. Its methods are the handlers: add, remove and update a line, select the state, toggle an accessorial, calculate and reset.
  - `CalculatePrice` runs the source's loop, in `PriceLines`, and then the accessorial, cap and error steps.
  - It is proved to agree with `ComputeQuote`.
  - On every error path it leaves `totalPrice` untouched.

Modelling choices:
- Dimensions and quantities are natural numbers.
- The source compares face areas in square feet, dividing by 144 in floating point. The model compares the areas in square inches, which is the same test without rounding. The small-parcel test is by area, so a 50 by 20 line of 3 ships as a parcel, yet it counts as oversized because it is wider than 42.
- `Math.ceil(q / n)` is exact ceiling division (`CeilDiv`).
- The `Infinity` bounds of the last tier become `Bound.Unbounded`.
- The `|| 1` and `|| 200` fallbacks are kept as written. Like JavaScript's `||`, they also apply to a zero capacity or price. They are proved unreachable for the real table.
- The error messages are the source's strings. `error` is an `Option<string>`.

Three details of the code that the model keeps:
- The accessorial selection is a list (a JavaScript array), not a set. The surcharge tests membership, so a duplicate is never charged twice.
- The fallback pallet price when no tier matches is 200. It is not the price of the catch-all tier, which is 850.
- The engine only rejects an empty state. Any other code is accepted. A code in neither adder group gets the 0 adder, and that includes a code outside the 48.

## Model

| member | source | states |
|---|---|---|
| `FreightTables.FindTier` | components/freight-calculator.tsx:71-73 | The lookup returns None exactly when no tier fits. Any tier it returns fits the item. When tier i fits and no earlier tier does, it returns tier i. |
| `FreightTables.FirstFitIsSmallest` | components/freight-calculator.tsx:20-27 | In a list of nested tiers, the first tier that fits is also the smallest: its bound lies inside the bound of every tier the item fits. |
| `FreightTables.PalletSizesWellFormed` | components/freight-calculator.tsx:20-27 | The table has six tiers. Their bounds are nested, the last one is unbounded, and every capacity and price is positive. |
| `FreightTables.TierAlwaysFound` | components/freight-calculator.tsx:70-75 | Every item fits some tier, and that tier has a positive capacity and price. So the `\|\| 1` and `\|\| 200` fallbacks are unreachable. |
| `FreightTables.StateTablesAgree` | components/freight-calculator.tsx:29-39 | The UPS table and the pallet table put every state in the same group. |
| `FreightTables.AdderGroupsDisjoint` | components/freight-calculator.tsx:29-33 | No state is in both adder groups, so the order of the `else if` tests makes no difference. |
| `FreightTables.StandardStatesHaveNoAdder` | components/freight-calculator.tsx:29-39 | Every standard state gets adder 0 from both tables. |
| `FreightTables.UngroupedStatesSelectable` | components/freight-calculator.tsx:41-47 | CO, CT, DE, MD, NJ, PA and RI are among the selectable states. |
| `FreightTables.UngroupedStatesGetNoAdder` | components/freight-calculator.tsx:29-47 | CO, CT, DE, MD, NJ, PA and RI get adder 0 from both tables. |
| `FreightTables.UngroupedStatesNotStandard` | components/freight-calculator.tsx:29-47 | CO, CT, DE, MD, NJ, PA and RI are not in any standard group either. |
| `FreightTables.UpsStateAdder` | components/freight-calculator.tsx:97-102 | The small-parcel adder chain. Its property is stated by `StateTablesAgree`, `AdderGroupsDisjoint`, `StandardStatesHaveNoAdder` and `StateAddersCorrespond`. |
| `FreightTables.PalletStateAdder` | components/freight-calculator.tsx:111-115 | The pallet adder chain. Its property is stated by `StateAddersCorrespond`: it gives 100, 150 or 0 exactly when the small-parcel chain gives 20, 40 or 0. |
| `FreightTables.StateAddersCorrespond` | components/freight-calculator.tsx:97-115 | A state's UPS adder is 20, 40 or 0 exactly when its pallet adder is 100, 150 or 0. Adder 0 means the state is in neither adder group. |
| `FreightTables.UsStatesCount` | components/freight-calculator.tsx:41-47 | The selector offers 48 states. |
| `Accessorials.Without` | components/freight-calculator.tsx:243 | The filter keeps exactly the elements that differ from the removed option, and it never grows the list. |
| `Accessorials.WithoutCounts` | components/freight-calculator.tsx:240-243 | Filtering removes every occurrence of the option. Every other option keeps its exact number of occurrences. |
| `Accessorials.Toggled` | components/freight-calculator.tsx:236-244 | Checking 'None' gives exactly ['None']. Checking another option removes 'None', adds the option and keeps the others. Unchecking an option removes it and keeps everything else. |
| `Accessorials.ToggledKeepsExclusive` | components/freight-calculator.tsx:236-244 | If 'None' was exclusive of the other options before a toggle, it still is afterwards. |
| `Accessorials.WithoutKeepsDistinct` | components/freight-calculator.tsx:240-243 | Filtering a list without duplicates leaves a list without duplicates. |
| `Accessorials.ToggledKeepsDistinct` | components/freight-calculator.tsx:232-244 | A checkbox only reports "checked" for an option that is not yet selected. Under that condition, toggling never duplicates an option. |
| `Accessorials.Surcharge` | components/freight-calculator.tsx:121-123 | The accessorial surcharge is a multiple of 25 and at most 75. |
| `Accessorials.SurchargeCountsPaidServices` | components/freight-calculator.tsx:121-123 | The surcharge is 25 times the number of distinct paid services selected. |
| `Accessorials.NoSurchargeWithoutPaidServices` | components/freight-calculator.tsx:121-123 | The surcharge is 0 exactly when nothing but 'None' is selected. |
| `Accessorials.ToggleChangesSurchargeByOneFee` | components/freight-calculator.tsx:121-123 | Checking an unselected paid service adds exactly 25. Unchecking a selected one removes exactly 25. Checking 'None' leaves no surcharge. |
| `FreightQuote.ErrorMessage` | components/freight-calculator.tsx:78-146 | The three messages of the form. Their property is stated by `ErrorMessagesDistinct`. |
| `FreightQuote.ErrorMessagesDistinct` | components/freight-calculator.tsx:78-146 | Two errors show the same message exactly when they are the same error, so the message tells which check failed. |
| `FreightQuote.IsSmallParcel` | components/freight-calculator.tsx:93-94 | The small-parcel test: area at most 26×42 square inches and fewer than 5 units. Its property is stated by `SmallParcelCost` and `WideParcelIsOversized`. |
| `FreightQuote.IsOversized` | components/freight-calculator.tsx:89 | The oversize test: wider than 42 or taller than 84. Its property is stated by `OversizedIsCatchAllTier`. |
| `FreightQuote.OversizedIsCatchAllTier` | components/freight-calculator.tsx:89 | A line is oversized exactly when the first tier it fits is the catch-all tier, so the oversize rule agrees with the size table. |
| `FreightQuote.CeilDiv` | components/freight-calculator.tsx:74 | The pallet count times the capacity holds all the units, and one pallet fewer would not. |
| `FreightQuote.CeilDivAtMost` | components/freight-calculator.tsx:74 | With a capacity of at least one, the count never exceeds the units, and it is zero exactly when there are no units. |
| `FreightQuote.CalculatePallets` | components/freight-calculator.tsx:70-75 | A line never needs more pallets than units, and needs none exactly when it has no units. That the count is the least sufficient one for the first fitting tier is stated by `PalletsOfFirstFit`. |
| `FreightQuote.PalletCountIsLeast` | components/freight-calculator.tsx:70-75 | Any count that is enough and minimal equals the ceiling division. So the pallet count is the least p with p times the capacity at least the quantity. |
| `FreightQuote.PalletsOfFirstFit` | components/freight-calculator.tsx:70-75 | `calculatePallets` uses the first tier the line fits, whose price is nonzero. The count it returns is the least sufficient one. |
| `FreightQuote.ItemCost` | components/freight-calculator.tsx:93-116 | The cost of one line. Its properties are stated by `SmallParcelCost`, `PalletCost` and `ItemCostIsZeroExactly`. |
| `FreightQuote.ItemCostIsZeroExactly` | components/freight-calculator.tsx:93-116 | A line costs nothing exactly when it has no units, on either shipping path and for every state. |
| `FreightQuote.SmallParcelCost` | components/freight-calculator.tsx:93-103 | A line whose area is at most 26×42 and whose quantity is under 5 costs (60 + a) per unit. Here a is 20 for the first UPS adder group, 40 for the second and 0 otherwise. |
| `FreightQuote.PalletCost` | components/freight-calculator.tsx:104-116 | Every other line costs (tier price + b) per pallet. The tier is the first one the line fits, and the count is the least sufficient one. Here b is 100, 150 or 0 by pallet adder group. |
| `FreightQuote.FirstFittingTierExists` | components/freight-calculator.tsx:71-73 | Every pair of dimensions has a first fitting tier in the table. |
| `FreightQuote.Total` | components/freight-calculator.tsx:87-118 | The three running totals of the loop. Their properties are stated by `TotalIsZeroExactly`, `TotalAppend`, `TotalIgnoresOrder`, `OversizedWithinTotal` and, for the loop itself, `PriceLines`. |
| `FreightQuote.TotalIsZeroExactly` | components/freight-calculator.tsx:87-118 | A running total is zero exactly when every line contributes zero to it. |
| `FreightQuote.TotalAppend` | components/freight-calculator.tsx:87-91 | Each running total over two lists of lines is the sum of their totals. |
| `FreightQuote.TotalWithoutLine` | components/freight-calculator.tsx:87-118 | Taking one line out of a list takes exactly that line's contribution out of each running total. |
| `FreightQuote.TotalIgnoresOrder` | components/freight-calculator.tsx:87-118 | Each running total (units, oversized units, cost) depends only on the lines present, not on their order. |
| `FreightQuote.OversizedWithinTotal` | components/freight-calculator.tsx:87-91 | The oversized quantity never exceeds the total quantity. |
| `FreightQuote.QuoteIgnoresItemOrder` | components/freight-calculator.tsx:77-150 | Reordering the lines never changes the quote. |
| `FreightQuote.ApplyVolumeCap` | components/freight-calculator.tsx:125-136 | The cap never raises the price. It leaves the price alone below 50 units and above 400. From 50 to 400 units, the capped price is at most 4000. |
| `FreightQuote.VolumeBandsContiguous` | components/freight-calculator.tsx:125-136 | The bands run from 50 to 400 with no gap and no overlap, and their caps rise band by band. |
| `FreightQuote.VolumeCapMatchesBands` | components/freight-calculator.tsx:125-136 | The `if`/`else if` chain equals the band table. In the bands [50,100), [100,150), [150,200), [200,300) and [300,400] the price becomes min(price, cap), with caps 1200, 1750, 2000, 3000 and 4000. Outside them the price is unchanged. |
| `FreightQuote.ComputeQuote` | components/freight-calculator.tsx:77-150 | An empty state gives MissingState. Otherwise more than 400 units gives QuantityTooHigh. Otherwise more than 25 oversized units gives OversizedTooHigh. Otherwise the quote succeeds. An accepted price never exceeds the line costs plus the fees. Under 50 units it equals them. From 50 units on it is at most 4000. |
| `FreightQuote.QuoteIsCappedSum` | components/freight-calculator.tsx:119-136 | An accepted quote is the line costs plus the accessorial fees, capped by the band ceiling for its total quantity. The cap comes after the fees. |
| `FreightQuote.TotalOfOneLine` | components/freight-calculator.tsx:87-117 | For a single line, each running total is that line's own contribution. |
| `FreightQuote.QuoteOfOneLine` | components/freight-calculator.tsx:77-150 | With a state chosen, a single line of fewer than 50 units, at most 25 of them oversized, is quoted at its own cost plus the accessorial fees. |
| `FreightQuote.WideParcelIsOversized` | components/freight-calculator.tsx:89-94 | A 50×20 line of 3 ships as a small parcel, yet it counts 3 toward the oversized quantity. |
| `FreightQuote.ThirtyByFiftyToGeorgia` | components/freight-calculator.tsx:104-116 | 20 units of 30×50 to GA use the 36×60 tier: 2 pallets at 300, 600 in total. |
| `FreightForm.RemoveItemAt` | components/freight-calculator.tsx:61 | The index filter of the remove handler. Its property is stated by `RemoveItemAtSplices`. |
| `FreightForm.RemoveItemAtSplices` | components/freight-calculator.tsx:60-62 | Filtering out index i removes exactly that line and keeps the rest in order. An index outside the list removes nothing. |
| `FreightForm.WithField` | components/freight-calculator.tsx:64-66 | Field by field: the chosen field of the result holds the new value, and each of the other two fields keeps the line's old value. |
| `FreightForm.PriceLines` | components/freight-calculator.tsx:83-118 | The loop ends with the price equal to the sum of the line costs, the total quantity equal to the sum of the quantities, and the oversized quantity equal to the sum over oversized lines. |
| `FreightForm.FreightCalculator.constructor` | components/freight-calculator.tsx:50-54 | The form starts with one blank line, no state, ['None'], price 0 and no error. The selection invariant ('None' exclusive, no duplicates) holds. |
| `FreightForm.FreightCalculator.AddItem` | components/freight-calculator.tsx:56-58 | Adding a line appends one blank line. |
| `FreightForm.FreightCalculator.RemoveItem` | components/freight-calculator.tsx:60-62 | Removing splices the line at the index out of the list. An out-of-range index changes nothing. |
| `FreightForm.FreightCalculator.UpdateItem` | components/freight-calculator.tsx:64-68 | Only the chosen field of the chosen line changes. Every other line is unchanged. |
| `FreightForm.FreightCalculator.SelectState` | components/freight-calculator.tsx:213 | Selecting a state sets it. |
| `FreightForm.FreightCalculator.ToggleAccessorial` | components/freight-calculator.tsx:232-245 | The selection becomes `Toggled` of the old one. 'None' stays exclusive and no option is ever listed twice. The checkbox shows whether its option is selected, so it reports "checked" only for an option not yet selected; the method requires exactly that. |
| `FreightForm.FreightCalculator.CalculatePrice` | components/freight-calculator.tsx:77-150 | On success, `totalPrice` becomes the quote and `error` is cleared. On each error, `error` becomes that error's message and `totalPrice` keeps its old value. |
| `FreightForm.FreightCalculator.ResetCalculator` | components/freight-calculator.tsx:152-158 | Reset restores all five fields to their initial values, so the selection invariant holds again. |

## Left out

- JSX rendering, the UI widget components and the icons (lines 160-282) are presentation only.
- The page layout file has no logic and is not part of this model.
- React state hooks: the `set…` calls become field assignments that take effect at once. React's deferred, batched updates are not modelled.
- FreightForm.FreightCalculator.UpdateItem: `[...items]` is a shallow copy, so the source also mutates the line object shared with the previous state. The model updates lines as values, so this aliasing is not captured.
- JavaScript number behaviour is not modelled: `Number(e.target.value)` giving NaN, negative or fractional values; floating-point rounding of the division by 144; `Infinity`. Inputs are natural numbers and the arithmetic is exact.
- `toFixed(2)` formatting and the rule that shows the price only when it is positive and there is no error (lines 271-275) are display only.
- The help text about white-glove delivery, Alaska, Hawaii and non-US destinations (lines 278-279) is not enforced by the logic, and the model does not enforce it either.
- FreightTables.UsStatesCount: it states only the number of selectable states. That the 48 codes are distinct, and that every grouped state is among them, is not proved. The membership tests over 48 string literals are too costly for the verifier.
- The end-to-end quote for 20 units of 30×50 inches to GA is not stated as one lemma. `ThirtyByFiftyToGeorgia` gives the line cost, and `QuoteOfOneLine` gives the quote from it.
