/** The admin category card of `src/components/admin/category-card.tsx`:
    level styling with its fallbacks, the thumbnail check, the badges and
    the delete callback. */
module CategoryCard {
  import opened Wrappers
  import opened JsStrings
  import opened DataConfig
  import General

  /** The category the card shows; a missing thumbnail or sub-list is
      `None`. */
  datatype CardCategory = CardCategory(
    id: int, name: string, thumbnail: Option<string>, subCategories: Option<seq<General.Category>>)

  /** `levelVariants[level] || "outline"`: levels 0, 1, 2 have their own
      badge variant; any other level gets "outline". */
  function LevelVariant(level: int): (v: BadgeVariant)
    ensures v == DefaultVariant <==> level == 0
    ensures v == SecondaryVariant <==> level == 1
    ensures v == OutlineVariant <==> level != 0 && level != 1
  {
    if level == 0 then DefaultVariant
    else if level == 1 then SecondaryVariant
    else OutlineVariant
  }

  /** The colour classes of the three styled levels. */
  function LevelColorTable(level: int): Option<string> {
    if level == 0 then Some("border-l-primary bg-primary/5")
    else if level == 1 then Some("border-l-tertiary bg-tertiary/5")
    else if level == 2 then Some("border-l-accent bg-accent/5")
    else None
  }

  /** `levelColors[level] || levelColors[2]`. */
  function LevelColors(level: int): (c: string)
    ensures 0 <= level <= 2 ==> Some(c) == LevelColorTable(level)
    ensures !(0 <= level <= 2) ==> Some(c) == LevelColorTable(2)
  {
    var entry := LevelColorTable(level);
    if entry.Some? then entry.value else LevelColorTable(2).value
  }

  /** The three styled levels have different colours. */
  lemma LevelColorsDistinct(a: int, b: int)
    requires 0 <= a <= 2 && 0 <= b <= 2 && a != b
    ensures LevelColors(a) != LevelColors(b)
  {
  }

  /** `hasValidThumbnail`: a string that is not blank. */
  function HasValidThumbnail(thumbnail: Option<string>): (valid: bool)
    ensures valid <==> thumbnail.Some? && !IsBlank(thumbnail.value)
  {
    TrimEmptyIffBlank(if thumbnail.Some? then thumbnail.value else "");
    thumbnail.Some? && Trim(thumbnail.value) != ""
  }

  /** What the thumbnail box shows: the image element, when one is
      rendered, with its source; whether that image is displayed; and
      whether the "No Image" fallback is displayed. */
  datatype ThumbnailView = ThumbnailView(image: Option<string>, imageShown: bool, fallbackVisible: bool)

  /** The thumbnail box. An image element is rendered only for a valid
      thumbnail; `loadFailed` says whether the browser fired its `onError`,
      which hides the image and displays the fallback instead. */
  function Thumbnail(c: CardCategory, loadFailed: bool): (v: ThumbnailView)
    ensures v.image.Some? <==> HasValidThumbnail(c.thumbnail)
    ensures v.image.Some? ==> v.image == c.thumbnail
    ensures v.imageShown <==> HasValidThumbnail(c.thumbnail) && !loadFailed
    ensures v.fallbackVisible <==> !HasValidThumbnail(c.thumbnail) || loadFailed
  {
    if !HasValidThumbnail(c.thumbnail) then ThumbnailView(None, false, true)
    else if loadFailed then ThumbnailView(c.thumbnail, false, true)
    else ThumbnailView(c.thumbnail, true, false)
  }

  /** Exactly one of the image and the fallback is displayed. */
  lemma ThumbnailShowsOne(c: CardCategory, loadFailed: bool)
    ensures Thumbnail(c, loadFailed).imageShown != Thumbnail(c, loadFailed).fallbackVisible
  {
  }

  /** The level badge: "Level " then `level + 1`. */
  function LevelLabel(level: int): (text: string)
    ensures |text| > 6 && text[..6] == "Level "
  {
    "Level " + IntToString(level + 1)
  }

  /** A card for a level of at least 0 shows that level counted from 1. */
  lemma LevelLabelCountsFromOne(level: nat)
    ensures AllDigits(LevelLabel(level)[6..]) && DigitsValue(LevelLabel(level)[6..]) == level + 1
  {
    assert LevelLabel(level)[6..] == NatToString(level + 1);
    NatToStringRoundTrip(level + 1);
  }

  /** The "N sub" badge: shown only for a present, non-empty sub-list,
      with its length. */
  function SubCountBadge(c: CardCategory): (count: Option<nat>)
    ensures count.Some? <==> c.subCategories.Some? && |c.subCategories.value| > 0
    ensures count.Some? ==> count.value == |c.subCategories.value|
  {
    if c.subCategories.Some? && |c.subCategories.value| > 0 then Some(|c.subCategories.value|) else None
  }

  /** The edit link: the edit route followed by the id's decimal text,
      which reads back as the id (after a minus sign for a negative id). */
  function EditHref(c: CardCategory): (href: string)
    ensures |href| > 21 && href[..21] == "/admin/category/edit/"
    ensures c.id >= 0 ==> AllDigits(href[21..]) && DigitsValue(href[21..]) == c.id
    ensures c.id < 0 ==> href[21] == '-' && AllDigits(href[22..]) && DigitsValue(href[22..]) == -c.id
  {
    var suffix := IntToString(c.id);
    NatToStringRoundTrip(if c.id >= 0 then c.id else -c.id);
    var href := "/admin/category/edit/" + suffix;
    assert href[21..] == suffix;
    assert c.id < 0 ==> href[22..] == NatToString(-c.id);
    href
  }

  /** The delete item: `onDelete?.(category.id)`; the id the callback is
      called with, or `None` when no callback was given. */
  function DeleteCall(hasOnDelete: bool, c: CardCategory): (called: Option<int>)
    ensures called.Some? <==> hasOnDelete
    ensures called.Some? ==> called.value == c.id
  {
    if hasOnDelete then Some(c.id) else None
  }
}
