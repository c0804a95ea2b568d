/**
  The colour decision of DrawModernButton: which background, border and
  text colours an owner-drawn button gets from its enabled, hover and press
  state.
*/
module ButtonTheme {
  import opened Win32

  /** Disabled buttons: dark grey fill, grey border, grey text. */
  const BUTTON_BG: int := RGB(45, 45, 45)
  const DISABLED_BORDER: int := RGB(80, 80, 80)
  const DISABLED_TEXT: int := RGB(120, 120, 120)

  /** Enabled buttons: the green scheme used for every button. */
  const TAG_GREEN: int := RGB(16, 160, 70)
  const TAG_GREEN_HOVER: int := RGB(24, 200, 90)
  const TAG_GREEN_ACTIVE: int := RGB(12, 130, 55)
  const WHITE: int := RGB(255, 255, 255)

  /** The three COLORREFs a button is painted with. */
  datatype Scheme = Scheme(background: int, border: int, text: int)

  /**
    DrawModernButton's choice. Hover and press only count on an enabled
    window; pressed wins over hovered.
  */
  function ButtonScheme(enabled: bool, hovered: bool, pressed: bool): Scheme {
    var isHovered := hovered && enabled;
    var isPressed := pressed && enabled;
    if !enabled then
      Scheme(BUTTON_BG, DISABLED_BORDER, DISABLED_TEXT)
    else
      var bg := if isPressed then TAG_GREEN_ACTIVE else if isHovered then TAG_GREEN_HOVER else TAG_GREEN;
      Scheme(bg, TAG_GREEN, WHITE)
  }

  /** The four ways a button can look. */
  datatype Look = Disabled | Normal | Hovered | Pressed

  /** The look a user should see for a button state. */
  function LookOf(enabled: bool, hovered: bool, pressed: bool): Look {
    if !enabled then Disabled
    else if pressed then Pressed
    else if hovered then Hovered
    else Normal
  }

  /** The palette, one scheme per look. */
  function SchemeOfLook(look: Look): Scheme {
    match look
    case Disabled => Scheme(BUTTON_BG, DISABLED_BORDER, DISABLED_TEXT)
    case Normal => Scheme(TAG_GREEN, TAG_GREEN, WHITE)
    case Hovered => Scheme(TAG_GREEN_HOVER, TAG_GREEN, WHITE)
    case Pressed => Scheme(TAG_GREEN_ACTIVE, TAG_GREEN, WHITE)
  }

  /** DrawModernButton paints exactly the palette entry of the button's look. */
  lemma SchemeFollowsLook(enabled: bool, hovered: bool, pressed: bool)
    ensures ButtonScheme(enabled, hovered, pressed) == SchemeOfLook(LookOf(enabled, hovered, pressed))
  {
  }

  /** A disabled button gets the grey scheme whatever its hover and press flags say. */
  lemma DisabledIgnoresMouse(hovered: bool, pressed: bool, hovered': bool, pressed': bool)
    ensures ButtonScheme(false, hovered, pressed) == ButtonScheme(false, hovered', pressed')
    ensures ButtonScheme(false, hovered, pressed) == Scheme(BUTTON_BG, DISABLED_BORDER, DISABLED_TEXT)
  {
  }

  /** An enabled button always has a TAG_GREEN border and white text. */
  lemma EnabledBorderAndText(hovered: bool, pressed: bool)
    ensures ButtonScheme(true, hovered, pressed).border == TAG_GREEN
    ensures ButtonScheme(true, hovered, pressed).text == WHITE
  {
  }

  /** The four fills differ in their green channel, so no two looks share a colour. */
  lemma FillsDistinct()
    ensures GetGValue(BUTTON_BG) == 45 && GetGValue(TAG_GREEN) == 160
    ensures GetGValue(TAG_GREEN_HOVER) == 200 && GetGValue(TAG_GREEN_ACTIVE) == 130
  {
    RGBRoundTrip(45, 45, 45);
    RGBRoundTrip(16, 160, 70);
    RGBRoundTrip(24, 200, 90);
    RGBRoundTrip(12, 130, 55);
  }

  /**
    Two button states are painted alike exactly when they have the same
    look: the fill tells disabled, normal, hovered and pressed apart.
  */
  lemma SameSchemeIffSameLook(e: bool, h: bool, p: bool, e': bool, h': bool, p': bool)
    ensures ButtonScheme(e, h, p) == ButtonScheme(e', h', p') <==> LookOf(e, h, p) == LookOf(e', h', p')
  {
    SchemeFollowsLook(e, h, p);
    SchemeFollowsLook(e', h', p');
    FillsDistinct();
  }
}
