/**
 * The accessorial services a shipment may add, the checkbox rule that keeps
 * 'None' exclusive of the others, and the flat fee each paid service adds.
 */
module Accessorials {

  /** 'None', 'Residential Delivery', 'Appointment Delivery', 'Lift-gate Delivery'. */
  datatype Accessorial = NoAccessorial | ResidentialDelivery | AppointmentDelivery | LiftgateDelivery

  /** The flat fee of each paid accessorial. */
  const AccessorialFee: nat := 25

  /** The selection with every occurrence of `x` dropped and the rest kept in order. */
  function Without(selection: seq<Accessorial>, x: Accessorial): (r: seq<Accessorial>)
    ensures forall a :: a in r <==> a in selection && a != x
    ensures |r| <= |selection|
  {
    if selection == [] then []
    else (if selection[0] == x then [] else [selection[0]]) + Without(selection[1..], x)
  }

  /**
   * The new selection after the checkbox of `option` changes to `checked`:
   * checking 'None' leaves exactly 'None'; checking another option drops
   * 'None' and appends the option; unchecking drops the option.
   */
  function Toggled(selection: seq<Accessorial>, option: Accessorial, checked: bool): (r: seq<Accessorial>)
    ensures checked && option == NoAccessorial ==> r == [NoAccessorial]
    ensures checked && option != NoAccessorial ==>
              NoAccessorial !in r && option in r &&
              forall a :: a != option ==> (a in r <==> a in selection && a != NoAccessorial)
    ensures !checked ==> forall a :: a in r <==> a in selection && a != option
  {
    if checked then
      if option == NoAccessorial then [NoAccessorial]
      else Without(selection, NoAccessorial) + [option]
    else Without(selection, option)
  }

  /** Filtering removes every occurrence of `x` and keeps every other element as often as before. */
  lemma {:induction false} WithoutCounts(selection: seq<Accessorial>, x: Accessorial)
    ensures multiset(Without(selection, x)) == multiset(selection)[x := 0]
  {
    if selection != [] {
      var head, tail := selection[0], selection[1..];
      WithoutCounts(tail, x);
      assert selection == [head] + tail;
      assert multiset(selection) == multiset{head} + multiset(tail);
      if head == x {
        assert Without(selection, x) == Without(tail, x);
      } else {
        assert Without(selection, x) == [head] + Without(tail, x);
        assert multiset(Without(selection, x)) == multiset{head} + multiset(Without(tail, x));
      }
    }
  }

  /** 'None' never appears beside another option. */
  ghost predicate Exclusive(selection: seq<Accessorial>)
  {
    NoAccessorial in selection ==> selection == [NoAccessorial]
  }

  ghost predicate Distinct(selection: seq<Accessorial>)
  {
    forall i, j :: 0 <= i < j < |selection| ==> selection[i] != selection[j]
  }

  lemma {:induction false} WithoutKeepsDistinct(selection: seq<Accessorial>, x: Accessorial)
    requires Distinct(selection)
    ensures Distinct(Without(selection, x))
  {
    if selection != [] {
      var rest := selection[1..];
      assert Distinct(rest) by {
        forall i, j | 0 <= i < j < |rest| ensures rest[i] != rest[j] {
          assert rest[i] == selection[i + 1] && rest[j] == selection[j + 1];
        }
      }
      WithoutKeepsDistinct(rest, x);
      assert selection[0] !in rest by {
        forall j | 0 <= j < |rest| ensures rest[j] != selection[0] {
          assert rest[j] == selection[j + 1];
        }
      }
    }
  }

  /** Every toggle keeps 'None' exclusive of the other options. */
  lemma ToggledKeepsExclusive(selection: seq<Accessorial>, option: Accessorial, checked: bool)
    requires Exclusive(selection)
    ensures Exclusive(Toggled(selection, option, checked))
  {
    var r := Toggled(selection, option, checked);
    if !checked && NoAccessorial in r {
      assert selection == [NoAccessorial];
      assert Without([NoAccessorial], option) == [NoAccessorial];
    }
  }

  /**
   * A checkbox only reports `checked` for an option that is not yet
   * selected; under that condition toggling never duplicates an option.
   */
  lemma ToggledKeepsDistinct(selection: seq<Accessorial>, option: Accessorial, checked: bool)
    requires Distinct(selection)
    requires checked ==> option !in selection
    ensures Distinct(Toggled(selection, option, checked))
  {
    if checked && option != NoAccessorial {
      WithoutKeepsDistinct(selection, NoAccessorial);
    } else if !checked {
      WithoutKeepsDistinct(selection, option);
    }
  }

  /** The fee added for the selection: 25 for each of Lift-gate, Residential and Appointment present. */
  function Surcharge(selection: seq<Accessorial>): (r: nat)
    ensures r <= 3 * AccessorialFee
    ensures r % AccessorialFee == 0
  {
    (if LiftgateDelivery in selection then AccessorialFee else 0) +
    (if ResidentialDelivery in selection then AccessorialFee else 0) +
    (if AppointmentDelivery in selection then AccessorialFee else 0)
  }

  /** The paid services present in a selection. */
  ghost function PaidServices(selection: seq<Accessorial>): set<Accessorial>
  {
    set a | a in selection && a != NoAccessorial
  }

  /** The surcharge is the flat fee times the number of distinct paid services selected. */
  lemma SurchargeCountsPaidServices(selection: seq<Accessorial>)
    ensures Surcharge(selection) == AccessorialFee * |PaidServices(selection)|
  {
    var paid := PaidServices(selection);
    var l := if LiftgateDelivery in selection then {LiftgateDelivery} else {};
    var rd := if ResidentialDelivery in selection then {ResidentialDelivery} else {};
    var ad := if AppointmentDelivery in selection then {AppointmentDelivery} else {};
    forall a | a in paid ensures a in l + rd + ad {
      match a
      case LiftgateDelivery =>
      case ResidentialDelivery =>
      case AppointmentDelivery =>
    }
    assert paid == l + rd + ad;
    SumOfSingletons(l, rd, ad);
  }

  lemma SumOfSingletons(l: set<Accessorial>, rd: set<Accessorial>, ad: set<Accessorial>)
    requires l <= {LiftgateDelivery} && rd <= {ResidentialDelivery} && ad <= {AppointmentDelivery}
    ensures |l + rd + ad| == |l| + |rd| + |ad|
  {
    assert l !! rd;
    assert |l + rd| == |l| + |rd|;
    assert (l + rd) !! ad;
  }

  /** No surcharge exactly when nothing but 'None' is selected. */
  lemma NoSurchargeWithoutPaidServices(selection: seq<Accessorial>)
    ensures Surcharge(selection) == 0 <==> forall a :: a in selection ==> a == NoAccessorial
  {
    if Surcharge(selection) == 0 {
      forall a | a in selection ensures a == NoAccessorial {
        match a
        case NoAccessorial =>
        case LiftgateDelivery =>
        case ResidentialDelivery =>
        case AppointmentDelivery =>
      }
    }
  }

  /**
   * Each paid service is charged independently: checking one that is not
   * selected adds exactly the fee, unchecking one that is selected removes
   * exactly the fee, and checking 'None' leaves no surcharge.
   */
  lemma ToggleChangesSurchargeByOneFee(selection: seq<Accessorial>, option: Accessorial)
    requires option != NoAccessorial
    ensures option !in selection ==> Surcharge(Toggled(selection, option, true)) == Surcharge(selection) + AccessorialFee
    ensures option in selection ==> Surcharge(Toggled(selection, option, false)) + AccessorialFee == Surcharge(selection)
    ensures Surcharge(Toggled(selection, NoAccessorial, true)) == 0
  {
  }
}
