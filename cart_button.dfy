/** The header's cart button and its quantity badge. */
module CartButton {
  import opened Wrappers
  import opened Text

  const Overflow: string := "99+"

  /** The badge label: the quantity itself, capped at "99+". */
  function BadgeLabel(totalQuantity: int): (shown: string)
    ensures shown == Overflow <==> totalQuantity > 99
  {
    if totalQuantity > 99 then Overflow
    else
      assert Overflow[0] != '-' && !IsDigit(Overflow[2]);
      IntToDecimal(totalQuantity)
  }

  /** The badge: absent unless enabled (the default) and the cart holds something. */
  function Badge(showBadge: Option<bool>, totalQuantity: int): (badge: Option<string>)
    ensures badge.Some? <==> (showBadge.None? || showBadge.value) && totalQuantity > 0
    ensures badge.Some? ==> badge.value == BadgeLabel(totalQuantity)
  {
    var show := if showBadge.Some? then showBadge.value else true;
    if show && totalQuantity > 0 then Some(BadgeLabel(totalQuantity)) else None
  }

  lemma TwoDigitsAtMost(n: nat)
    requires n <= 99
    ensures |NatToDecimal(n)| <= 2
  {
    if n >= 10 {
      assert NatToDecimal(n) == NatToDecimal(n / 10) + [DigitChar(n % 10)];
    }
  }

  /** A shown badge fits in three characters. */
  lemma BadgeFitsThreeCharacters(showBadge: Option<bool>, totalQuantity: int)
    ensures Badge(showBadge, totalQuantity).Some? ==> |Badge(showBadge, totalQuantity).value| <= 3
  {
    if 0 < totalQuantity <= 99 {
      TwoDigitsAtMost(totalQuantity);
    }
  }

  /** Up to 99 the badge reads back as the exact quantity; above, it never reads as a number. */
  lemma BadgeReadsBack(totalQuantity: int)
    ensures totalQuantity <= 99 ==> ParseInt(BadgeLabel(totalQuantity)) == Some(totalQuantity)
    ensures totalQuantity > 99 ==> ParseInt(BadgeLabel(totalQuantity)).None?
  {
    if totalQuantity <= 99 {
      IntRoundTrip(totalQuantity);
    } else {
      assert !IsDigit(Overflow[2]);
    }
  }
}
