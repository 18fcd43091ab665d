/**
 * A card of the collection list: its price label, whether it is a product (anything but a
 * gallery), and what clicking it or its "view" button does.
 */
module CollectionCard {
  import opened Wrappers
  import opened Domain
  import opened Text

  const PricePending: string := "价格待定"
  const Free: string := "免费"
  const Yen: string := "¥"

  /** `formatPrice`: no price, zero, or the yen sign followed by the amount. */
  function FormatPrice(price: Option<int>): (shown: string)
    ensures shown == PricePending <==> price.None?
    ensures shown == Free <==> price == Some(0)
  {
    match price
    case None => PricePending
    case Some(p) =>
      if p == 0 then Free
      else
        assert (Yen + IntToDecimal(p))[0] == '¥';
        Yen + IntToDecimal(p)
  }

  /** Reads the amount back out of a label that FormatPrice produced. */
  function PriceOfLabel(s: string): Option<Option<int>>
  {
    if s == PricePending then Some(None)
    else if s == Free then Some(Some(0))
    else if |s| >= 1 && s[0] == '¥' then
      match ParseInt(s[1..])
      case Some(p) => Some(Some(p))
      case None => None
    else None
  }

  /** Every label reads back to the price it was made from. */
  lemma FormatPriceRoundTrip(price: Option<int>)
    ensures PriceOfLabel(FormatPrice(price)) == Some(price)
  {
    if price.Some? && price.value != 0 {
      var shown := FormatPrice(price);
      assert shown[1..] == IntToDecimal(price.value);
      IntRoundTrip(price.value);
    }
  }

  /** Different prices never share a label. */
  lemma FormatPriceInjective(a: Option<int>, b: Option<int>)
    ensures FormatPrice(a) == FormatPrice(b) <==> a == b
  {
    FormatPriceRoundTrip(a);
    FormatPriceRoundTrip(b);
  }

  /** Every category other than the gallery is sold as a product. */
  predicate IsProduct(c: ArtCollection)
  {
    c.category != Gallery
  }

  /** `handleCardClick`: the collection handed to `onSelect`, if any. */
  function HandleCardClick(c: ArtCollection): (selected: Option<ArtCollection>)
    ensures selected.Some? <==> !IsProduct(c)
    ensures selected.Some? ==> selected.value == c
  {
    if !IsProduct(c) then Some(c) else None
  }

  /** Whether the card shows its '查看画集' button. */
  predicate ShowsViewButton(c: ArtCollection)
  {
    !IsProduct(c)
  }

  /**
   * The card and its view button agree: a card opens its collection exactly when it shows the
   * button, and both open the same collection; products never open the viewer.
   */
  lemma CardClickMatchesViewButton(c: ArtCollection)
    ensures HandleCardClick(c).Some? <==> ShowsViewButton(c)
    ensures ShowsViewButton(c) ==> HandleCardClick(c) == Some(c)
    ensures c.category != Gallery ==> HandleCardClick(c).None?
  {
  }
}
