/**
 * The responsive layout helper shared by the screens: a window width is sorted into a size band
 * and the band fixes the page gutter and the maximum content width.
 */
module Responsive {

  /** `BREAKPOINTS`, in density-independent pixels. */
  const Sm: int := 360
  const Md: int := 768
  const Lg: int := 1024
  /** Declared beside the others; no layout decision reads it. */
  const Xl: int := 1280

  datatype Layout = Layout(
    width: int,
    isSmallPhone: bool,
    isPhone: bool,
    isTablet: bool,
    isDesktop: bool,
    gutter: int,
    contentMaxWidth: int)

  /** `getResponsiveLayout(width)` */
  function GetResponsiveLayout(width: int): (l: Layout)
    ensures l.width == width
    ensures l.isSmallPhone <==> width < Sm
    ensures l.isPhone <==> width < Md
    ensures l.isTablet <==> Md <= width < Lg
    ensures l.isDesktop <==> Lg <= width
  {
    var isSmallPhone := width < Sm;
    var isPhone := width < Md;
    var isTablet := width >= Md && width < Lg;
    var isDesktop := width >= Lg;
    var gutter := if isSmallPhone then 14 else if isPhone then 16 else if isTablet then 22 else 28;
    var contentMaxWidth := if isDesktop then 1080 else if isTablet then 820 else 520;
    Layout(width, isSmallPhone, isPhone, isTablet, isDesktop, gutter, contentMaxWidth)
  }

  /** The size bands, as an independent reading of the breakpoints. */
  datatype Band = SmallPhone | Phone | Tablet | Desktop

  function BandOf(width: int): Band {
    if width < Sm then SmallPhone
    else if width < Md then Phone
    else if width < Lg then Tablet
    else Desktop
  }

  /** The order of the bands from narrow to wide. */
  function Rank(b: Band): nat {
    match b
    case SmallPhone => 0
    case Phone => 1
    case Tablet => 2
    case Desktop => 3
  }

  /** Every width is exactly one of phone, tablet and desktop, and a small phone is a phone. */
  lemma ExactlyOneClass(width: int)
    ensures var l := GetResponsiveLayout(width);
      (l.isPhone && !l.isTablet && !l.isDesktop)
      || (!l.isPhone && l.isTablet && !l.isDesktop)
      || (!l.isPhone && !l.isTablet && l.isDesktop)
    ensures GetResponsiveLayout(width).isSmallPhone ==> GetResponsiveLayout(width).isPhone
  {
  }

  /** The gutter and the maximum content width the layout picks are the band's. */
  lemma LayoutFollowsBand(width: int)
    ensures var l := GetResponsiveLayout(width);
      match BandOf(width)
      case SmallPhone => l.gutter == 14 && l.contentMaxWidth == 520 && l.isSmallPhone
      case Phone => l.gutter == 16 && l.contentMaxWidth == 520 && !l.isSmallPhone && l.isPhone
      case Tablet => l.gutter == 22 && l.contentMaxWidth == 820 && l.isTablet
      case Desktop => l.gutter == 28 && l.contentMaxWidth == 1080 && l.isDesktop
  {
  }

  /** Widening the window never moves to a narrower band, a smaller gutter or a narrower column. */
  lemma LayoutMonotone(w1: int, w2: int)
    requires w1 <= w2
    ensures Rank(BandOf(w1)) <= Rank(BandOf(w2))
    ensures GetResponsiveLayout(w1).gutter <= GetResponsiveLayout(w2).gutter
    ensures GetResponsiveLayout(w1).contentMaxWidth <= GetResponsiveLayout(w2).contentMaxWidth
  {
  }
}
