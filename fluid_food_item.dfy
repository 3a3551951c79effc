/**
 * The animated inventory card: its expiry colours, the progress bar's colour and width,
 * the expand chevron and the edit/delete callbacks.
 */
module FluidFoodItem {

  import opened Wrappers
  import opened Text
  import ExpiryLabels

  /** `getExpiryColor`: the clock icon's text colour for each band. */
  function ExpiryColor(daysLeft: int): (c: string)
    ensures StartsWith(c, "text-")
    ensures c == "text-red-500" <==> daysLeft <= 1
    ensures c == "text-amber-500" <==> 1 < daysLeft <= 3
    ensures c == "text-emerald-500" <==> 3 < daysLeft <= 5
    ensures c == "text-blue-500" <==> 5 < daysLeft
  {
    if daysLeft <= 1 then "text-red-500"
    else if daysLeft <= 3 then "text-amber-500"
    else if daysLeft <= 5 then "text-emerald-500"
    else "text-blue-500"
  }

  /** The progress bar's background class, written inline as nested conditionals. */
  function BarColor(daysLeft: int): (c: string)
    ensures StartsWith(c, "bg-")
  {
    if daysLeft <= 1 then "bg-red-500"
    else if daysLeft <= 3 then "bg-amber-500"
    else if daysLeft <= 5 then "bg-emerald-500"
    else "bg-blue-500"
  }

  /** The bar uses the same bands and the same colour in each band as the icon. */
  lemma BarColorMatchesExpiryColor(daysLeft: int)
    ensures BarColor(daysLeft) == "bg-" + ExpiryColor(daysLeft)[5..]
  {
  }

  /** `Math.min(100, (daysLeft / 14) * 100)`, the bar width in percent. */
  function BarWidth(daysLeft: int): (w: real)
    ensures w <= 100.0
    ensures w == 100.0 <==> daysLeft >= 14
    ensures daysLeft < 14 ==> w * 14.0 == (daysLeft as real) * 100.0
    ensures 0 <= daysLeft ==> 0.0 <= w
  {
    var raw := (daysLeft as real) / 14.0 * 100.0;
    if 100.0 < raw then 100.0 else raw
  }

  /** A longer shelf life never shortens the bar. */
  lemma BarWidthMonotone(d1: int, d2: int)
    requires d1 <= d2
    ensures BarWidth(d1) <= BarWidth(d2)
  {
  }

  /** The card's interactive state. */
  class Card {
    const id: int
    const hasOnEdit: bool
    const hasOnDelete: bool
    var isExpanded: bool

    constructor(id: int, hasOnEdit: bool, hasOnDelete: bool)
      ensures this.id == id && this.hasOnEdit == hasOnEdit && this.hasOnDelete == hasOnDelete
      ensures !isExpanded
    {
      this.id := id;
      this.hasOnEdit := hasOnEdit;
      this.hasOnDelete := hasOnDelete;
      isExpanded := false;
    }

    /** The chevron: shows or hides the details panel. */
    method ToggleExpanded()
      modifies this
      ensures isExpanded == !old(isExpanded)
    {
      isExpanded := !isExpanded;
    }

    /** "Modifier" (only on the open panel): calls `onEdit(id)` when the prop is given; the id passed, if any. */
    method ClickEdit() returns (called: Option<int>)
      requires isExpanded
      ensures called.Some? <==> hasOnEdit
      ensures called.Some? ==> called.value == id
    {
      called := if hasOnEdit then Some(id) else None;
    }

    /** "Supprimer" (only on the open panel): calls `onDelete(id)` when the prop is given. */
    method ClickDelete() returns (called: Option<int>)
      requires isExpanded
      ensures called.Some? <==> hasOnDelete
      ensures called.Some? ==> called.value == id
    {
      called := if hasOnDelete then Some(id) else None;
    }
  }

  /** The badge and the icon colour change at the same thresholds. */
  lemma BadgeAndColourAgree(d1: int, d2: int)
    ensures ExpiryLabels.FourBandBadge(d1) == ExpiryLabels.FourBandBadge(d2) <==> ExpiryColor(d1) == ExpiryColor(d2)
  {
  }
}
