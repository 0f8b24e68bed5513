/**
 * The freight-quote engine: per-item pricing (small parcel or pallet), the
 * accessorial surcharge, the volume-band price caps and the ordered error
 * checks, as pure functions over the line items, the destination state and
 * the accessorial selection.
 */
module FreightQuote {
  import opened Wrappers
  import opened FreightTables
  import opened Accessorials

  /** One line of the form: dimensions in inches and a unit count. */
  datatype Item = Item(width: nat, height: nat, quantity: nat)

  /** The blank line the form starts with and adds. */
  const EmptyItem: Item := Item(0, 0, 0)

  datatype QuoteError = MissingState | QuantityTooHigh | OversizedTooHigh

  /** The message the form shows for each error. */
  function ErrorMessage(e: QuoteError): string
  {
    match e
    case MissingState => "Please select a state."
    case QuantityTooHigh => "Please request a quote for quantities over 400."
    case OversizedTooHigh => "Please request a quote for oversized mirror sizes/quantities."
  }

  /** Each error has its own message, so the message shown tells which check failed. */
  lemma ErrorMessagesDistinct(a: QuoteError, b: QuoteError)
    ensures ErrorMessage(a) == ErrorMessage(b) <==> a == b
  {
  }

  const UpsBasePrice: nat := 60
  /** Largest face area, in square inches, shipped as a small parcel (26 by 42 inches). */
  const SmallParcelMaxArea: nat := 26 * 42
  /** Small parcels are limited to fewer than this many units per line. */
  const SmallParcelQuantityLimit: nat := 5
  const OversizeWidth: nat := 42
  const OversizeHeight: nat := 84
  const MaxTotalQuantity: nat := 400
  const MaxOversizedQuantity: nat := 25
  /** The defaults `calculatePallets` and `calculatePrice` use when no tier is found. */
  const FallbackPerPallet: nat := 1
  const FallbackPalletPrice: nat := 200

  /**
   * A line ships as a small parcel when its face area is at most 26 by 42
   * inches and it has fewer than 5 units. Comparing areas in square inches
   * is the same test as comparing them in square feet, without rounding.
   */
  predicate IsSmallParcel(item: Item)
  {
    item.width * item.height <= SmallParcelMaxArea && item.quantity < SmallParcelQuantityLimit
  }

  /** A line counts as oversized when wider than 42 or taller than 84 inches, whichever way it ships. */
  predicate IsOversized(item: Item)
  {
    item.width > OversizeWidth || item.height > OversizeHeight
  }

  function Min(a: nat, b: nat): nat
  {
    if a <= b then a else b
  }

  /** `Math.ceil(n / d)` on naturals: the least count of size-`d` groups that holds `n`. */
  function CeilDiv(n: nat, d: nat): (r: nat)
    requires d > 0
    ensures r * d >= n
    ensures r > 0 ==> (r - 1) * d < n
  {
    var q := (n + d - 1) / d;
    assert q * d + (n + d - 1) % d == n + d - 1;
    q
  }

  /** Dividing by a capacity of at least one never needs more groups than units, and needs none only for no units. */
  lemma CeilDivAtMost(n: nat, d: nat)
    requires d > 0
    ensures CeilDiv(n, d) <= n
    ensures CeilDiv(n, d) == 0 <==> n == 0
  {
    var r := CeilDiv(n, d);
    if r > 0 {
      assert (r - 1) * d >= r - 1 by { MulMonotone(1, d, r - 1); }
    }
  }

  /** Pallets needed for a line: its units divided by the capacity of the first tier it fits, rounded up. */
  function CalculatePallets(item: Item): (r: nat)
    ensures r <= item.quantity
    ensures r == 0 <==> item.quantity == 0
  {
    var size := FindTier(PalletSizes, item.width, item.height);
    CeilDivAtMost(item.quantity, if size.Some? && size.value.maxPerPallet != 0 then size.value.maxPerPallet else FallbackPerPallet);
    CeilDiv(item.quantity, if size.Some? && size.value.maxPerPallet != 0 then size.value.maxPerPallet else FallbackPerPallet)
  }

  /** What one line costs to ship to `state`. */
  function ItemCost(item: Item, state: string): nat
  {
    if IsSmallParcel(item) then
      var parcelPrice: nat := UpsBasePrice + UpsStateAdder(state);
      MulMonotone(1, parcelPrice, item.quantity);
      parcelPrice * item.quantity
    else
      var pallets := CalculatePallets(item);
      var size := FindTier(PalletSizes, item.width, item.height);
      var palletPrice: nat := (if size.Some? && size.value.standardPrice != 0 then size.value.standardPrice else FallbackPalletPrice)
                              + PalletStateAdder(state);
      MulMonotone(1, palletPrice, pallets);
      palletPrice * pallets
  }

  /** The three running totals `calculatePrice` keeps over the lines. */
  datatype Measure = Units | OversizedUnits | Charge(state: string)

  function Contribution(item: Item, m: Measure): nat
  {
    match m
    case Units => item.quantity
    case OversizedUnits => if IsOversized(item) then item.quantity else 0
    case Charge(state) => ItemCost(item, state)
  }

  /** The sum of a measure over the lines, accumulated front to back. */
  function Total(items: seq<Item>, m: Measure): nat
  {
    if items == [] then 0 else Total(items[..|items| - 1], m) + Contribution(items[|items| - 1], m)
  }

  function TotalQuantity(items: seq<Item>): nat { Total(items, Units) }
  function OversizedQuantity(items: seq<Item>): nat { Total(items, OversizedUnits) }
  function ItemsCost(items: seq<Item>, state: string): nat { Total(items, Charge(state)) }

  /** The volume-band ceilings: the price is lowered to its band's cap, chosen by total unit count. */
  function ApplyVolumeCap(price: nat, totalQuantity: nat): (r: nat)
    ensures r <= price
    ensures totalQuantity < 50 || totalQuantity > MaxTotalQuantity ==> r == price
    ensures 50 <= totalQuantity <= MaxTotalQuantity ==> r <= 4000
  {
    if 50 <= totalQuantity < 100 then Min(price, 1200)
    else if 100 <= totalQuantity < 150 then Min(price, 1750)
    else if 150 <= totalQuantity < 200 then Min(price, 2000)
    else if 200 <= totalQuantity < 300 then Min(price, 3000)
    else if 300 <= totalQuantity <= 400 then Min(price, 4000)
    else price
  }

  /**
   * The quote: a missing state fails before anything is computed; otherwise
   * all lines are priced, the accessorial fees added and the volume cap
   * applied, and only then does a total over 400 units, and after it more
   * than 25 oversized units, reject the quote.
   */
  function ComputeQuote(items: seq<Item>, state: string, selection: seq<Accessorial>): (r: Result<nat, QuoteError>)
    ensures r == Err(MissingState) <==> state == ""
    ensures r == Err(QuantityTooHigh) <==> state != "" && TotalQuantity(items) > MaxTotalQuantity
    ensures r == Err(OversizedTooHigh) <==>
              state != "" && TotalQuantity(items) <= MaxTotalQuantity && OversizedQuantity(items) > MaxOversizedQuantity
    ensures r.Ok? ==> r.value <= ItemsCost(items, state) + Surcharge(selection)
    ensures r.Ok? && TotalQuantity(items) < 50 ==> r.value == ItemsCost(items, state) + Surcharge(selection)
    ensures r.Ok? && TotalQuantity(items) >= 50 ==> r.value <= 4000
  {
    if state == "" then Err(MissingState)
    else
      var totalQuantity := TotalQuantity(items);
      var price := ApplyVolumeCap(ItemsCost(items, state) + Surcharge(selection), totalQuantity);
      if totalQuantity > MaxTotalQuantity then Err(QuantityTooHigh)
      else if OversizedQuantity(items) > MaxOversizedQuantity then Err(OversizedTooHigh)
      else Ok(price)
  }

  // ---------------------------------------------------------------------
  // Per-line pricing

  /** The pallet count is the only count that is both enough and minimal. */
  lemma {:induction false} PalletCountIsLeast(n: nat, d: nat, p: nat)
    requires d > 0
    requires p * d >= n && (p > 0 ==> (p - 1) * d < n)
    ensures CeilDiv(n, d) == p
  {
    var r := CeilDiv(n, d);
    if p < r {
      MulMonotone(p, r - 1, d);
    } else if r < p {
      MulMonotone(r, p - 1, d);
    }
  }

  lemma MulMonotone(a: nat, b: nat, d: nat)
    requires a <= b
    ensures a * d <= b * d
  {
  }

  /** The small-parcel state adder by group membership alone: 20 in one adder group, 40 in the other, 0 outside both. */
  ghost predicate IsUpsAdder(state: string, a: nat)
  {
    && (state in UpsAdder20 ==> a == 20)
    && (state in UpsAdder40 ==> a == 40)
    && (state !in UpsAdder20 && state !in UpsAdder40 ==> a == 0)
  }

  /** The pallet state adder by group membership alone: 100 in one adder group, 150 in the other, 0 outside both. */
  ghost predicate IsPalletAdder(state: string, b: nat)
  {
    && (state in PalletAdder100 ==> b == 100)
    && (state in PalletAdder150 ==> b == 150)
    && (state !in PalletAdder100 && state !in PalletAdder150 ==> b == 0)
  }

  /** A small parcel line costs exactly (60 + adder) per unit. */
  lemma SmallParcelCost(item: Item, state: string, a: nat)
    requires IsSmallParcel(item)
    requires IsUpsAdder(state, a)
    ensures ItemCost(item, state) == (60 + a) * item.quantity
  {
    AdderGroupsDisjoint(state);
    assert UpsStateAdder(state) == a;
  }

  /** The tier and pallet count a pallet line uses, given the first tier it fits and the least sufficient count. */
  lemma PalletsOfFirstFit(item: Item, i: nat, p: nat)
    requires i < |PalletSizes| && Fits(PalletSizes[i], item.width, item.height)
    requires forall j :: 0 <= j < i ==> !Fits(PalletSizes[j], item.width, item.height)
    requires p * PalletSizes[i].maxPerPallet >= item.quantity
    requires p > 0 ==> (p - 1) * PalletSizes[i].maxPerPallet < item.quantity
    ensures FindTier(PalletSizes, item.width, item.height) == Some(PalletSizes[i])
    ensures PalletSizes[i].standardPrice != 0
    ensures CalculatePallets(item) == p
  {
    var tier := PalletSizes[i];
    assert tier.maxPerPallet > 0 && tier.standardPrice > 0 by {
      PalletSizesWellFormed();
    }
    PalletCountIsLeast(item.quantity, tier.maxPerPallet, p);
  }

  /**
   * Any other line costs (tier price + adder) per pallet, where the tier is
   * the first one the line fits and the pallet count is the least one whose
   * capacity holds the units; the fallbacks play no part.
   */
  lemma PalletCost(item: Item, state: string, i: nat, p: nat, b: nat)
    requires !IsSmallParcel(item)
    requires i < |PalletSizes| && Fits(PalletSizes[i], item.width, item.height)
    requires forall j :: 0 <= j < i ==> !Fits(PalletSizes[j], item.width, item.height)
    requires p * PalletSizes[i].maxPerPallet >= item.quantity
    requires p > 0 ==> (p - 1) * PalletSizes[i].maxPerPallet < item.quantity
    requires IsPalletAdder(state, b)
    ensures ItemCost(item, state) == (PalletSizes[i].standardPrice + b) * p
  {
    PalletsOfFirstFit(item, i, p);
    AdderGroupsDisjoint(state);
    StateTablesAgree(state);
    assert PalletStateAdder(state) == b;
  }

  /** The first-fitting tier always exists, so every pallet line has a well-defined tier and count. */
  lemma {:induction false} FirstFittingTierExists(width: nat, height: nat) returns (i: nat)
    ensures i < |PalletSizes| && Fits(PalletSizes[i], width, height)
    ensures forall j :: 0 <= j < i ==> !Fits(PalletSizes[j], width, height)
  {
    PalletSizesWellFormed();
    i := 0;
    while !Fits(PalletSizes[i], width, height)
      invariant i < |PalletSizes|
      invariant forall j :: 0 <= j < i ==> !Fits(PalletSizes[j], width, height)
      decreases |PalletSizes| - i
    {
      i := i + 1;
    }
  }

  // ---------------------------------------------------------------------
  // Totals over the lines

  lemma {:induction false} TotalAppend(a: seq<Item>, b: seq<Item>, m: Measure)
    ensures Total(a + b, m) == Total(a, m) + Total(b, m)
    decreases |b|
  {
    if b == [] {
      assert a + b == a;
    } else {
      var b' := b[..|b| - 1];
      assert (a + b)[..|a + b| - 1] == a + b';
      TotalAppend(a, b', m);
    }
  }

  /** Taking one line out of a list takes its contribution out of the total. */
  lemma TotalWithoutLine(b: seq<Item>, k: nat, m: Measure)
    requires k < |b|
    ensures Total(b, m) == Total(b[..k] + b[k + 1..], m) + Contribution(b[k], m)
    ensures multiset(b[..k] + b[k + 1..]) == multiset(b) - multiset{b[k]}
  {
    assert b == b[..k] + [b[k]] + b[k + 1..];
    TotalAppend(b[..k] + [b[k]], b[k + 1..], m);
    TotalAppend(b[..k], [b[k]], m);
    TotalAppend(b[..k], b[k + 1..], m);
    assert [b[k]][..0] == [];
  }

  /** The total of a measure depends only on which lines there are, not on their order. */
  lemma {:induction false} TotalIgnoresOrder(a: seq<Item>, b: seq<Item>, m: Measure)
    requires multiset(a) == multiset(b)
    ensures Total(a, m) == Total(b, m)
    decreases |a|
  {
    if a == [] {
      assert |b| == |multiset(b)| == 0;
    } else {
      var last := a[|a| - 1];
      var a' := a[..|a| - 1];
      assert a == a' + [last];
      assert multiset(a') == multiset(a) - multiset{last};
      assert last in multiset(b);
      var k :| 0 <= k < |b| && b[k] == last;
      TotalWithoutLine(b, k, m);
      TotalIgnoresOrder(a', b[..k] + b[k + 1..], m);
    }
  }

  /** A line costs nothing exactly when it has no units: every price and adder is positive or zero, and the base rates are positive. */
  lemma ItemCostIsZeroExactly(item: Item, state: string)
    ensures ItemCost(item, state) == 0 <==> item.quantity == 0
  {
    if IsSmallParcel(item) {
      var parcelPrice: nat := UpsBasePrice + UpsStateAdder(state);
      assert ItemCost(item, state) == parcelPrice * item.quantity;
      ProductIsZeroExactly(parcelPrice, item.quantity);
    } else {
      var size := FindTier(PalletSizes, item.width, item.height);
      var palletPrice: nat := (if size.Some? && size.value.standardPrice != 0 then size.value.standardPrice else FallbackPalletPrice)
                              + PalletStateAdder(state);
      assert ItemCost(item, state) == palletPrice * CalculatePallets(item);
      ProductIsZeroExactly(palletPrice, CalculatePallets(item));
    }
  }

  lemma ProductIsZeroExactly(a: nat, b: nat)
    requires a > 0
    ensures a * b == 0 <==> b == 0
  {
    MulMonotone(1, a, b);
  }

  /** A running total is zero exactly when no line contributes to it. */
  lemma {:induction false} TotalIsZeroExactly(items: seq<Item>, m: Measure)
    ensures Total(items, m) == 0 <==> forall i :: 0 <= i < |items| ==> Contribution(items[i], m) == 0
  {
    if items != [] {
      var front := items[..|items| - 1];
      TotalIsZeroExactly(front, m);
      assert forall i :: 0 <= i < |front| ==> front[i] == items[i];
    }
  }

  /** The oversized units are some of the units. */
  lemma {:induction false} OversizedWithinTotal(items: seq<Item>)
    ensures OversizedQuantity(items) <= TotalQuantity(items)
  {
    if items != [] {
      OversizedWithinTotal(items[..|items| - 1]);
    }
  }

  /** Reordering the lines never changes the quote. */
  lemma QuoteIgnoresItemOrder(items: seq<Item>, reordered: seq<Item>, state: string, selection: seq<Accessorial>)
    requires multiset(items) == multiset(reordered)
    ensures ComputeQuote(items, state, selection) == ComputeQuote(reordered, state, selection)
  {
    TotalIgnoresOrder(items, reordered, Units);
    TotalIgnoresOrder(items, reordered, OversizedUnits);
    TotalIgnoresOrder(items, reordered, Charge(state));
  }

  // ---------------------------------------------------------------------
  // Volume caps

  /** A band of total unit counts, both ends included, and the price ceiling it imposes. */
  datatype VolumeBand = VolumeBand(low: nat, high: nat, cap: nat)

  const VolumeBands: seq<VolumeBand> := [
    VolumeBand(50, 99, 1200),
    VolumeBand(100, 149, 1750),
    VolumeBand(150, 199, 2000),
    VolumeBand(200, 299, 3000),
    VolumeBand(300, 400, 4000)
  ]

  /** The ceiling of the band holding `totalQuantity`, if any. */
  function BandCap(bands: seq<VolumeBand>, totalQuantity: nat): Option<nat>
  {
    if bands == [] then None
    else if bands[0].low <= totalQuantity <= bands[0].high then Some(bands[0].cap)
    else BandCap(bands[1..], totalQuantity)
  }

  /** The bands are consecutive and cover exactly the unit counts 50 to 400, with rising ceilings. */
  lemma VolumeBandsContiguous()
    ensures VolumeBands[0].low == 50 && VolumeBands[|VolumeBands| - 1].high == MaxTotalQuantity
    ensures forall i :: 0 <= i < |VolumeBands| ==> VolumeBands[i].low <= VolumeBands[i].high
    ensures forall i :: 0 < i < |VolumeBands| ==>
              VolumeBands[i].low == VolumeBands[i - 1].high + 1 && VolumeBands[i - 1].cap < VolumeBands[i].cap
  {
  }

  /** The `if`/`else if` chain of caps is the band table: the price is capped by its band's ceiling, or left alone. */
  lemma VolumeCapMatchesBands(price: nat, totalQuantity: nat)
    ensures ApplyVolumeCap(price, totalQuantity) ==
              match BandCap(VolumeBands, totalQuantity)
              case None => price
              case Some(cap) => Min(price, cap)
  {
    var b := VolumeBands;
    assert BandCap(b, totalQuantity) == if 50 <= totalQuantity <= 99 then Some(1200) else BandCap(b[1..], totalQuantity);
    assert BandCap(b[1..], totalQuantity) == if 100 <= totalQuantity <= 149 then Some(1750) else BandCap(b[2..], totalQuantity);
    assert BandCap(b[2..], totalQuantity) == if 150 <= totalQuantity <= 199 then Some(2000) else BandCap(b[3..], totalQuantity);
    assert BandCap(b[3..], totalQuantity) == if 200 <= totalQuantity <= 299 then Some(3000) else BandCap(b[4..], totalQuantity);
    assert BandCap(b[4..], totalQuantity) == if 300 <= totalQuantity <= 400 then Some(4000) else BandCap(b[5..], totalQuantity);
    assert b[5..] == [];
  }

  /** An accepted quote is the capped sum of the line costs and the accessorial fees. */
  lemma QuoteIsCappedSum(items: seq<Item>, state: string, selection: seq<Accessorial>)
    requires ComputeQuote(items, state, selection).Ok?
    ensures ComputeQuote(items, state, selection).value ==
              match BandCap(VolumeBands, TotalQuantity(items))
              case None => ItemsCost(items, state) + Surcharge(selection)
              case Some(cap) => Min(ItemsCost(items, state) + Surcharge(selection), cap)
  {
    VolumeCapMatchesBands(ItemsCost(items, state) + Surcharge(selection), TotalQuantity(items));
  }

  // ---------------------------------------------------------------------
  // Worked cases

  lemma TotalOfOneLine(item: Item, m: Measure)
    ensures Total([item], m) == Contribution(item, m)
  {
    assert [item][..0] == [];
  }

  /** A 50 by 20 inch line of 3 units ships as a parcel (area 1000) yet counts as oversized (wider than 42). */
  lemma WideParcelIsOversized()
    ensures IsSmallParcel(Item(50, 20, 3)) && IsOversized(Item(50, 20, 3))
    ensures OversizedQuantity([Item(50, 20, 3)]) == 3
  {
  }

  /**
   * The oversize rule and the tier table agree: a line is oversized exactly
   * when the only tier it fits is the catch-all one, whose bound is unlimited.
   */
  lemma OversizedIsCatchAllTier(item: Item)
    ensures IsOversized(item) <==> FindTier(PalletSizes, item.width, item.height) == Some(PalletSizes[5])
  {
    var i := FirstFittingTierExists(item.width, item.height);
    assert FindTier(PalletSizes, item.width, item.height) == Some(PalletSizes[i]);
    if IsOversized(item) {
      assert i == 5;
    } else {
      assert Fits(PalletSizes[4], item.width, item.height);
      assert i <= 4;
      assert PalletSizes[i].maxSize.Within?;
    }
  }

  /** 20 units of 30 by 50 inches to Georgia: the 36 by 60 tier, 2 pallets at 300, no adder. */
  lemma ThirtyByFiftyToGeorgia()
    ensures FindTier(PalletSizes, 30, 50) == Some(PalletSizes[2])
    ensures CalculatePallets(Item(30, 50, 20)) == 2
    ensures ItemCost(Item(30, 50, 20), "GA") == 600
  {
    var item := Item(30, 50, 20);
    assert !IsSmallParcel(item);
    assert IsPalletAdder("GA", 0);
    assert !Fits(PalletSizes[0], 30, 50) && !Fits(PalletSizes[1], 30, 50) && Fits(PalletSizes[2], 30, 50);
    PalletsOfFirstFit(item, 2, 2);
    PalletCost(item, "GA", 2, 2, 0);
  }

  /**
   * A single line of fewer than 50 units, not more than 25 of them
   * oversized, is quoted at its own cost plus the accessorial fees.
   */
  lemma QuoteOfOneLine(item: Item, state: string, selection: seq<Accessorial>)
    requires state != "" && item.quantity < 50
    requires IsOversized(item) ==> item.quantity <= MaxOversizedQuantity
    ensures ComputeQuote([item], state, selection) == Ok(ItemCost(item, state) + Surcharge(selection))
  {
    TotalOfOneLine(item, Charge(state));
    TotalOfOneLine(item, Units);
    TotalOfOneLine(item, OversizedUnits);
  }
}
