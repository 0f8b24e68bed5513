/**
 * The calculator form's state and its handlers: the line items, the chosen
 * state, the accessorial selection, the last quoted price and the error
 * message, with the price calculation proved to agree with the pure quote.
 */
module FreightForm {
  import opened Wrappers
  import opened FreightTables
  import opened Accessorials
  import opened FreightQuote

  /** Every line except the one at position `index`, kept in their order. */
  function RemoveItemAt(items: seq<Item>, index: int): seq<Item>
  {
    if items == [] then []
    else RemoveItemAt(items[..|items| - 1], index) + (if |items| - 1 == index then [] else [items[|items| - 1]])
  }

  /** Removing a line closes the gap at `index`; an index outside the list removes nothing. */
  lemma {:induction false} RemoveItemAtSplices(items: seq<Item>, index: int)
    ensures 0 <= index < |items| ==> RemoveItemAt(items, index) == items[..index] + items[index + 1..]
    ensures !(0 <= index < |items|) ==> RemoveItemAt(items, index) == items
  {
    if items != [] {
      var n := |items| - 1;
      RemoveItemAtSplices(items[..n], index);
      if index == n {
        assert items[..n] + items[n + 1..] == items[..n];
      } else if 0 <= index < n {
        assert items[..n][..index] + items[..n][index + 1..] + [items[n]] == items[..index] + items[index + 1..];
      } else {
        assert items[..n] + [items[n]] == items;
      }
    }
  }

  datatype ItemField = Width | Height | Quantity

  /** The line with one of its fields replaced. */
  function WithField(item: Item, field: ItemField, value: nat): (r: Item)
    ensures r.width == (if field == Width then value else item.width)
    ensures r.height == (if field == Height then value else item.height)
    ensures r.quantity == (if field == Quantity then value else item.quantity)
  {
    match field
    case Width => item.(width := value)
    case Height => item.(height := value)
    case Quantity => item.(quantity := value)
  }

  /**
   * The loop of the price calculation: walks the lines once, adding each
   * line's units to the total, its units to the oversized total when it is
   * oversized, and its small-parcel or pallet cost to the price.
   */
  method PriceLines(items: seq<Item>, state: string) returns (price: nat, totalQuantity: nat, oversizedQuantity: nat)
    ensures price == ItemsCost(items, state)
    ensures totalQuantity == TotalQuantity(items)
    ensures oversizedQuantity == OversizedQuantity(items)
  {
    price, totalQuantity, oversizedQuantity := 0, 0, 0;

    for i := 0 to |items|
      invariant price == ItemsCost(items[..i], state)
      invariant totalQuantity == TotalQuantity(items[..i])
      invariant oversizedQuantity == OversizedQuantity(items[..i])
    {
      var item := items[i];
      ghost var done := items[..i + 1];
      assert done[..i] == items[..i] && done[i] == item;
      totalQuantity := totalQuantity + item.quantity;
      if item.width > OversizeWidth || item.height > OversizeHeight {
        oversizedQuantity := oversizedQuantity + item.quantity;
      }

      var cost: int;
      if item.width * item.height <= SmallParcelMaxArea && item.quantity < SmallParcelQuantityLimit {
        // small-parcel path: base rate plus the state adder, per unit
        var stateAdder: nat := 0;
        if state in UpsAdder20 {
          stateAdder := 20;
        } else if state in UpsAdder40 {
          stateAdder := 40;
        }
        assert stateAdder == UpsStateAdder(state);
        cost := (UpsBasePrice + stateAdder) * item.quantity;
      } else {
        // pallet path: tier rate plus the state adder, per pallet
        var pallets := CalculatePallets(item);
        var size := FindTier(PalletSizes, item.width, item.height);
        var palletPrice: nat := if size.Some? && size.value.standardPrice != 0 then size.value.standardPrice else FallbackPalletPrice;
        if state in PalletAdder100 {
          palletPrice := palletPrice + 100;
        } else if state in PalletAdder150 {
          palletPrice := palletPrice + 150;
        }
        cost := palletPrice * pallets;
      }
      assert cost == ItemCost(item, state);
      price := price + cost;
    }
    assert items[..|items|] == items;
  }

  class FreightCalculator {
    var items: seq<Item>
    var state: string
    var accessorials: seq<Accessorial>
    var totalPrice: nat
    var error: Option<string>

    /** The accessorial selection never holds 'None' beside another option, nor any option twice. */
    ghost predicate Valid()
      reads this`accessorials
    {
      Exclusive(accessorials) && Distinct(accessorials)
    }

    /** The form as first shown: one blank line, no state, 'None', no price, no error. */
    constructor ()
      ensures Valid()
      ensures items == [EmptyItem] && state == "" && accessorials == [NoAccessorial]
      ensures totalPrice == 0 && error == None
    {
      items := [EmptyItem];
      state := "";
      accessorials := [NoAccessorial];
      totalPrice := 0;
      error := None;
    }

    method AddItem()
      modifies this`items
      ensures items == old(items) + [EmptyItem]
    {
      items := items + [EmptyItem];
    }

    method RemoveItem(index: int)
      modifies this`items
      ensures 0 <= index < |old(items)| ==> items == old(items)[..index] + old(items)[index + 1..]
      ensures !(0 <= index < |old(items)|) ==> items == old(items)
    {
      RemoveItemAtSplices(items, index);
      items := RemoveItemAt(items, index);
    }

    /** Sets one field of an existing line; every other line and field is kept. */
    method UpdateItem(index: nat, field: ItemField, value: nat)
      requires index < |items|
      modifies this`items
      ensures |items| == |old(items)|
      ensures forall i :: 0 <= i < |items| && i != index ==> items[i] == old(items)[i]
      ensures items[index] == WithField(old(items)[index], field, value)
    {
      var newItems := items;
      newItems := newItems[index := WithField(newItems[index], field, value)];
      items := newItems;
    }

    method SelectState(code: string)
      modifies this`state
      ensures state == code
    {
      state := code;
    }

    /**
     * The checkbox handler of one accessorial option. A checkbox shows
     * whether its option is selected, so it reports `checked` only for an
     * option not yet in the selection.
     */
    method ToggleAccessorial(option: Accessorial, checked: bool)
      requires Valid()
      requires checked ==> option !in accessorials
      modifies this`accessorials
      ensures Valid()
      ensures accessorials == Toggled(old(accessorials), option, checked)
    {
      ToggledKeepsExclusive(accessorials, option, checked);
      ToggledKeepsDistinct(accessorials, option, checked);
      accessorials := Toggled(accessorials, option, checked);
    }

    /**
     * Prices the form. On success the quote becomes the total price and the
     * error is cleared; on any error only the message changes and the
     * previous total price stays in place.
     */
    method CalculatePrice()
      modifies this`totalPrice, this`error
      ensures match ComputeQuote(items, state, accessorials)
              case Ok(price) => totalPrice == price && error == None
              case Err(e) => totalPrice == old(totalPrice) && error == Some(ErrorMessage(e))
    {
      if state == "" {
        error := Some(ErrorMessage(MissingState));
        return;
      }

      var price, totalQuantity, oversizedQuantity := PriceLines(items, state);

      if LiftgateDelivery in accessorials { price := price + AccessorialFee; }
      if ResidentialDelivery in accessorials { price := price + AccessorialFee; }
      if AppointmentDelivery in accessorials { price := price + AccessorialFee; }
      assert price == ItemsCost(items, state) + Surcharge(accessorials);

      if 50 <= totalQuantity < 100 {
        price := Min(price, 1200);
      } else if 100 <= totalQuantity < 150 {
        price := Min(price, 1750);
      } else if 150 <= totalQuantity < 200 {
        price := Min(price, 2000);
      } else if 200 <= totalQuantity < 300 {
        price := Min(price, 3000);
      } else if 300 <= totalQuantity <= 400 {
        price := Min(price, 4000);
      }
      assert price == ApplyVolumeCap(ItemsCost(items, state) + Surcharge(accessorials), totalQuantity);

      if totalQuantity > MaxTotalQuantity {
        assert ComputeQuote(items, state, accessorials) == Err(QuantityTooHigh);
        error := Some(ErrorMessage(QuantityTooHigh));
        return;
      }

      if oversizedQuantity > MaxOversizedQuantity {
        assert ComputeQuote(items, state, accessorials) == Err(OversizedTooHigh);
        error := Some(ErrorMessage(OversizedTooHigh));
        return;
      }

      assert ComputeQuote(items, state, accessorials) == Ok(price);
      totalPrice := price;
      error := None;
    }

    /** Puts every field back to its initial value. */
    method ResetCalculator()
      modifies this
      ensures Valid()
      ensures items == [EmptyItem] && state == "" && accessorials == [NoAccessorial]
      ensures totalPrice == 0 && error == None
    {
      items := [EmptyItem];
      state := "";
      accessorials := [NoAccessorial];
      totalPrice := 0;
      error := None;
    }
  }
}
