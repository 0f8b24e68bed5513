/**
 * The static configuration of the freight calculator: the pallet size tiers,
 * the two state-adder groupings (small parcel and pallet) and the list of
 * selectable destination states, together with the first-match tier lookup
 * that `calculatePallets` and `calculatePrice` perform over the tiers.
 */
module FreightTables {
  import opened Wrappers

  /** The largest item a tier accepts. The catch-all tier has no bound. */
  datatype Bound = Within(width: nat, height: nat) | Unbounded

  datatype PalletTier = PalletTier(maxSize: Bound, maxPerPallet: nat, standardPrice: nat)

  /** An item of the given dimensions fits within a bound. */
  predicate FitsWithin(b: Bound, width: nat, height: nat)
  {
    match b
    case Unbounded => true
    case Within(w, h) => width <= w && height <= h
  }

  predicate Fits(t: PalletTier, width: nat, height: nat)
  {
    FitsWithin(t.maxSize, width, height)
  }

  /** Bound `a` lies inside bound `b`. */
  predicate Inside(a: Bound, b: Bound)
  {
    match (a, b)
    case (_, Unbounded) => true
    case (Unbounded, Within(_, _)) => false
    case (Within(w, h), Within(w', h')) => w <= w' && h <= h'
  }

  /** The pallet size tiers, in the order they are searched. */
  const PalletSizes: seq<PalletTier> := [
    PalletTier(Within(26, 42), 15, 200),
    PalletTier(Within(36, 48), 12, 200),
    PalletTier(Within(36, 60), 10, 300),
    PalletTier(Within(42, 72), 8, 350),
    PalletTier(Within(42, 84), 5, 450),
    PalletTier(Unbounded, 3, 850)
  ]

  /** Small-parcel (UPS Ground) state groups. */
  const UpsStandard: seq<string> := ["GA", "FL", "AL", "TN", "SC", "NC", "VA", "WV", "KY", "OH", "IN", "MI", "WI", "IL", "MO", "IA", "MN", "NE", "KS", "OK", "TX", "AR", "LA", "MS"]
  const UpsAdder20: seq<string> := ["NY", "MA", "NH", "VT", "ME", "ND", "SD", "WY", "MT", "ID", "UT", "AZ", "NM"]
  const UpsAdder40: seq<string> := ["CA", "NV", "OR", "WA"]

  /** Pallet state groups. */
  const PalletStandard: seq<string> := ["GA", "FL", "AL", "TN", "SC", "NC", "VA", "WV", "KY", "OH", "IN", "MI", "WI", "IL", "MO", "IA", "MN", "NE", "KS", "OK", "TX", "AR", "LA", "MS"]
  const PalletAdder100: seq<string> := ["NY", "MA", "NH", "VT", "ME", "ND", "SD", "WY", "MT", "ID", "UT", "AZ", "NM"]
  const PalletAdder150: seq<string> := ["CA", "NV", "OR", "WA"]

  /** The destination states offered by the state selector. */
  const UsStates: seq<string> := [
    "AL", "AZ", "AR", "CA", "CO", "CT", "DE", "FL", "GA", "ID",
    "IL", "IN", "IA", "KS", "KY", "LA", "ME", "MD", "MA", "MI",
    "MN", "MS", "MO", "MT", "NE", "NV", "NH", "NJ", "NM", "NY",
    "NC", "ND", "OH", "OK", "OR", "PA", "RI", "SC", "SD", "TN",
    "TX", "UT", "VT", "VA", "WA", "WV", "WI", "WY"
  ]

  /** Selectable states that belong to no adder group of either table. */
  const UngroupedStates: seq<string> := ["CO", "CT", "DE", "MD", "NJ", "PA", "RI"]

  /** Per-parcel adder for small-parcel shipments: the adder-20 group is tested first. */
  function UpsStateAdder(state: string): nat
  {
    if state in UpsAdder20 then 20
    else if state in UpsAdder40 then 40
    else 0
  }

  /** Per-pallet adder for palletized shipments: the adder-100 group is tested first. */
  function PalletStateAdder(state: string): nat
  {
    if state in PalletAdder100 then 100
    else if state in PalletAdder150 then 150
    else 0
  }

  /**
   * `Array.find` over the tiers: the first tier the item fits in, or
   * `None` when there is none.
   */
  function FindTier(tiers: seq<PalletTier>, width: nat, height: nat): (r: Option<PalletTier>)
    ensures r.None? <==> forall i :: 0 <= i < |tiers| ==> !Fits(tiers[i], width, height)
    ensures r.Some? ==> r.value in tiers && Fits(r.value, width, height)
    ensures forall i :: 0 <= i < |tiers| && Fits(tiers[i], width, height) && (forall j :: 0 <= j < i ==> !Fits(tiers[j], width, height))
                        ==> r == Some(tiers[i])
  {
    if tiers == [] then None
    else if Fits(tiers[0], width, height) then Some(tiers[0])
    else
      var r := FindTier(tiers[1..], width, height);
      assert forall i :: 1 <= i < |tiers| ==> tiers[i] == tiers[1..][i - 1];
      r
  }

  /** Each tier's bound lies inside the bound of every later tier. */
  ghost predicate Nested(tiers: seq<PalletTier>)
  {
    forall i, j :: 0 <= i < j < |tiers| ==> Inside(tiers[i].maxSize, tiers[j].maxSize)
  }

  /** The tier table is well formed: nested bounds, a catch-all last tier, and positive capacities and prices. */
  lemma PalletSizesWellFormed()
    ensures |PalletSizes| == 6
    ensures PalletSizes[5].maxSize == Unbounded
    ensures Nested(PalletSizes)
    ensures forall i :: 0 <= i < |PalletSizes| ==> PalletSizes[i].maxPerPallet > 0 && PalletSizes[i].standardPrice > 0
  {
  }

  /**
   * In a nested tier list the first tier that fits is also the smallest one
   * that fits: its bound lies inside the bound of every tier the item fits.
   */
  lemma {:induction false} FirstFitIsSmallest(tiers: seq<PalletTier>, width: nat, height: nat, k: nat)
    requires Nested(tiers)
    requires k < |tiers| && Fits(tiers[k], width, height)
    ensures FindTier(tiers, width, height).Some?
    ensures Inside(FindTier(tiers, width, height).value.maxSize, tiers[k].maxSize)
  {
    if !Fits(tiers[0], width, height) {
      assert k > 0;
      var rest := tiers[1..];
      assert Nested(rest) by {
        forall i, j | 0 <= i < j < |rest| ensures Inside(rest[i].maxSize, rest[j].maxSize) {
          assert rest[i] == tiers[i + 1] && rest[j] == tiers[j + 1];
        }
      }
      assert rest[k - 1] == tiers[k];
      FirstFitIsSmallest(rest, width, height, k - 1);
    } else if k > 0 {
      assert Inside(tiers[0].maxSize, tiers[k].maxSize);
    }
  }

  /**
   * The catch-all tier makes the lookup total over the real table: some tier
   * always matches, and it has a positive capacity and price, so neither
   * fallback default (one per pallet, price 200) can ever be taken.
   */
  lemma TierAlwaysFound(width: nat, height: nat)
    ensures FindTier(PalletSizes, width, height).Some?
    ensures FindTier(PalletSizes, width, height).value.maxPerPallet > 0
    ensures FindTier(PalletSizes, width, height).value.standardPrice > 0
  {
    PalletSizesWellFormed();
    assert Fits(PalletSizes[5], width, height);
  }

  /** The two state tables group the states identically. */
  lemma StateTablesAgree(state: string)
    ensures state in UpsStandard <==> state in PalletStandard
    ensures state in UpsAdder20 <==> state in PalletAdder100
    ensures state in UpsAdder40 <==> state in PalletAdder150
  {
  }

  /** The two adder groups are disjoint, so the order of the `else if` tests does not matter. */
  lemma AdderGroupsDisjoint(state: string)
    ensures !(state in UpsAdder20 && state in UpsAdder40)
  {
  }

  /** The standard states get no adder from either table: they are in no adder group. */
  lemma StandardStatesHaveNoAdder()
    ensures forall i :: 0 <= i < |UpsStandard| ==> UpsStateAdder(UpsStandard[i]) == 0
    ensures forall i :: 0 <= i < |PalletStandard| ==> PalletStateAdder(PalletStandard[i]) == 0
  {
  }

  /** The seven states that appear in no group are nevertheless selectable. */
  lemma UngroupedStatesSelectable(state: string)
    requires state in UngroupedStates
    ensures state in UsStates
  {
  }

  /** The seven selectable states that appear in no group get a 0 adder from both tables. */
  lemma UngroupedStatesGetNoAdder()
    ensures forall i :: 0 <= i < |UngroupedStates| ==> UpsStateAdder(UngroupedStates[i]) == 0 && PalletStateAdder(UngroupedStates[i]) == 0
  {
  }

  /** Nor are they standard states: they appear in no group at all. */
  lemma UngroupedStatesNotStandard()
    ensures forall i :: 0 <= i < |UngroupedStates| ==> UngroupedStates[i] !in UpsStandard && UngroupedStates[i] !in PalletStandard
  {
  }

  /** The adders each table gives, and their correspondence across the two tables. */
  lemma StateAddersCorrespond(state: string)
    ensures UpsStateAdder(state) == 20 <==> PalletStateAdder(state) == 100
    ensures UpsStateAdder(state) == 40 <==> PalletStateAdder(state) == 150
    ensures UpsStateAdder(state) == 0 <==> PalletStateAdder(state) == 0
    ensures UpsStateAdder(state) == 0 <==> state !in UpsAdder20 && state !in UpsAdder40
  {
  }

  lemma UsStatesCount()
    ensures |UsStates| == 48
  {
  }
}
