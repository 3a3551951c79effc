/**
 * Days-left presentation shared by the inventory components: the four-band badge
 * variant and the "n jour(s)" / "Expiré" labels.
 */
module ExpiryLabels {

  import opened Text

  datatype BadgeVariant = Destructive | Default | Secondary | Outline | Warning

  /** `getBadgeVariant`: at most 1 day destructive, at most 3 default, at most 5 secondary, otherwise outline. */
  function FourBandBadge(daysLeft: int): (v: BadgeVariant)
    ensures v == Destructive <==> daysLeft <= 1
    ensures v == Default <==> 1 < daysLeft <= 3
    ensures v == Secondary <==> 3 < daysLeft <= 5
    ensures v == Outline <==> 5 < daysLeft
  {
    if daysLeft <= 1 then Destructive
    else if daysLeft <= 3 then Default
    else if daysLeft <= 5 then Secondary
    else Outline
  }

  /** The template `${daysLeft} jour${daysLeft > 1 ? "s" : ""}`. */
  function DaysPhrase(daysLeft: int): (r: string)
    ensures |r| > 5
    ensures r[|r| - 1] == 's' <==> daysLeft > 1
    ensures |IntToString(daysLeft)| < |r|
    ensures r[..|IntToString(daysLeft)|] == IntToString(daysLeft)
    ensures r[|IntToString(daysLeft)|..] in {" jour", " jours"}
  {
    var digits := IntToString(daysLeft);
    var suffix := if daysLeft > 1 then " jours" else " jour";
    assert (digits + suffix)[|digits|..] == suffix;
    digits + suffix
  }

  /**
   * The phrase starts with the day count in decimal, a minus sign first when it is negative
   * (the inventory page and the dashboard print it without an "Expiré" branch), and then a space.
   */
  lemma DaysPhraseShowsCount(daysLeft: int)
    ensures var p, k := DaysPhrase(daysLeft), |IntToString(daysLeft)|;
      var digits := if daysLeft < 0 then p[1..k] else p[..k];
      (if daysLeft < 0 then 1 else 0) < k < |p| &&
      (p[0] == '-' <==> daysLeft < 0) &&
      (forall i :: 0 <= i < |digits| ==> IsDigit(digits[i])) &&
      DigitsValue(digits) == (if daysLeft < 0 then -daysLeft else daysLeft) &&
      p[k] == ' '
  {
    var p, k := DaysPhrase(daysLeft), |IntToString(daysLeft)|;
    assert p[..k] == IntToString(daysLeft);
    if daysLeft < 0 {
      assert p[1..k] == IntToString(daysLeft)[1..];
    }
  }

  /** `daysLeft <= 0 ? "Expiré" : DaysPhrase(daysLeft)`. */
  function ExpiryLabel(daysLeft: int): (r: string)
    ensures r == "Expiré" <==> daysLeft <= 0
    ensures daysLeft > 0 ==> r == DaysPhrase(daysLeft)
  {
    if daysLeft <= 0 then "Expiré"
    else
      assert IsDigit(DaysPhrase(daysLeft)[0]);
      DaysPhrase(daysLeft)
  }

  lemma LabelExamples()
    ensures ExpiryLabel(0) == "Expiré" && ExpiryLabel(-3) == "Expiré"
    ensures ExpiryLabel(1) == "1 jour"
    ensures ExpiryLabel(4) == "4 jours"
  {
    assert IntToString(1) == "1" && IntToString(4) == "4";
  }
}
