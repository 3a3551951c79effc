/** The dashboard's list of items about to expire: a three-band colour and badge and a progress value. */
module UpcomingExpirations {

  import ExpiryLabels

  /** `getProgressColor`: red up to one day, amber up to three, emerald after. */
  function ProgressColor(daysLeft: int): (c: string)
    ensures c == "bg-red-500" <==> daysLeft <= 1
    ensures c == "bg-amber-500" <==> 1 < daysLeft <= 3
    ensures c == "bg-emerald-500" <==> 3 < daysLeft
  {
    if daysLeft <= 1 then "bg-red-500" else if daysLeft <= 3 then "bg-amber-500" else "bg-emerald-500"
  }

  /** `getProgressValue`: twenty points per day, capped at 100. */
  function ProgressValue(daysLeft: int): (v: int)
    ensures v <= 100
    ensures v == 100 <==> daysLeft >= 5
    ensures daysLeft < 5 ==> v == 20 * daysLeft
  {
    if 100 < daysLeft * 20 then 100 else daysLeft * 20
  }

  lemma ProgressValueMonotone(d1: int, d2: int)
    requires d1 <= d2
    ensures ProgressValue(d1) <= ProgressValue(d2)
  {
  }

  /** The badge variant here has three bands: destructive, default, then outline. */
  function ThreeBandBadge(daysLeft: int): (v: ExpiryLabels.BadgeVariant)
    ensures v == ExpiryLabels.Destructive <==> daysLeft <= 1
    ensures v == ExpiryLabels.Default <==> 1 < daysLeft <= 3
    ensures v == ExpiryLabels.Outline <==> 3 < daysLeft
  {
    if daysLeft <= 1 then ExpiryLabels.Destructive
    else if daysLeft <= 3 then ExpiryLabels.Default
    else ExpiryLabels.Outline
  }

  /** Against the inventory cards' four bands, the dashboard differs only on four and five days, outline instead of secondary. */
  lemma ThreeBandsAgainstFour(daysLeft: int)
    ensures ThreeBandBadge(daysLeft) != ExpiryLabels.FourBandBadge(daysLeft) <==> 3 < daysLeft <= 5
    ensures 3 < daysLeft <= 5 ==> ExpiryLabels.FourBandBadge(daysLeft) == ExpiryLabels.Secondary
  {
  }
}
