/** The monthly report: the screens created in the chosen month, in registry
    order, their count, and the seller column of the details cell. */
module ReportView {
  import opened Types
  import opened Lists
  import opened Queries

  /** The number "Total de Telas" shows: how many screens of the registry
      were created in the month, never more than the registry holds. */
  function Total(screens: seq<Screen>, filterMonth: string): (total: nat)
    ensures total == |MonthFilter(screens, filterMonth)|
    ensures total == CountInMonth(screens, filterMonth)
    ensures total <= |screens|
    ensures total == 0 <==> forall i :: 0 <= i < |screens| ==> !Text.StartsWith(screens[i].createdAt, filterMonth)
  {
    var filtered := MonthFilter(screens, filterMonth);
    assert filtered != [] ==> filtered[0] in screens;
    MonthFilterCount(screens, filterMonth);
    |filtered|
  }

  /** An independent count: one for each screen whose `createdAt` starts with
      the month key. */
  function CountInMonth(screens: seq<Screen>, filterMonth: string): nat {
    if screens == [] then 0
    else (if Text.StartsWith(screens[0].createdAt, filterMonth) then 1 else 0) + CountInMonth(screens[1..], filterMonth)
  }

  /** The month filter holds exactly as many screens as the count gives. */
  lemma {:induction false} MonthFilterCount(screens: seq<Screen>, filterMonth: string)
    ensures |MonthFilter(screens, filterMonth)| == CountInMonth(screens, filterMonth)
  {
    if screens != [] {
      MonthFilterCount(screens[1..], filterMonth);
      assert MonthFilter(screens[1..], filterMonth) == Filter(screens[1..], InMonth(filterMonth));
    }
  }

  /** The totals of two different months of equal key length add up to no more
      than the registry holds: no screen is counted in both. */
  lemma {:induction false} TotalsOfTwoMonths(screens: seq<Screen>, m1: string, m2: string)
    requires |m1| == |m2| && m1 != m2
    ensures Total(screens, m1) + Total(screens, m2) <= |screens|
  {
    if screens != [] {
      TotalsOfTwoMonths(screens[1..], m1, m2);
      assert !(Text.StartsWith(screens[0].createdAt, m1) && Text.StartsWith(screens[0].createdAt, m2));
    }
  }

  /** The seller the details cell shows, as written: for a screen with a
      delivery block it reads `delivery.seller` from the stored object, which
      has no such key, so nothing is shown. */
  function ShownSeller(s: Screen): (shown: Option<string>)
    ensures shown.None?
  {
    if s.delivery.Some? then Get(DeliveryObject(s.delivery.value), SellerKey) else None
  }

  /** The seller the details cell was evidently meant to show: the read of
      `delivery.deliveryPerson`, the key the stored object does have. */
  function ShownSellerIntended(s: Screen): (shown: Option<string>)
    ensures shown.Some? <==> s.delivery.Some? && s.delivery.value.deliveryPerson.Some?
    ensures shown.Some? ==> shown == s.delivery.value.deliveryPerson
  {
    if s.delivery.Some? then Get(DeliveryObject(s.delivery.value), DeliveryPersonKey) else None
  }

  /** As written, the report shows no seller for any screen, delivered or not. */
  lemma SellerNeverShown(s: Screen)
    requires s.delivery.Some? && s.delivery.value.deliveryPerson.Some?
    ensures ShownSeller(s) == None
    ensures ShownSellerIntended(s) == s.delivery.value.deliveryPerson
  {
  }

  /** The report's state: the month picker. */
  class ReportView {
    var filterMonth: string

    /** `currentMonth` stands for the `YYYY-MM` key of today's date. */
    constructor (currentMonth: string)
      ensures filterMonth == currentMonth
    {
      filterMonth := currentMonth;
    }

    /** The month picker: `setFilterMonth`. */
    method SetFilterMonth(month: string)
      modifies this
      ensures filterMonth == month
    {
      filterMonth := month;
    }
  }
}
