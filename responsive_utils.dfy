/**
 * The screen classification of src/utils/ResponsiveUtils.ts. The window size
 * and pixel ratio are inputs; the size helpers are modelled by the factor
 * they choose, computed exactly on reals.
 */
module ResponsiveUtils {
  import opened Wrappers

  const SmallScreenWidth: real := 375.0
  const TabletWidth: real := 768.0
  const WideMessageWidth: real := 400.0

  datatype Window = Window(width: real, height: real)

  datatype ScreenDimensions = ScreenDimensions(
    width: real,
    height: real,
    isSmallScreen: bool,
    isTablet: bool,
    isLandscape: bool,
    pixelRatio: real)

  /** `getScreenDimensions` for the given window and pixel ratio. */
  function GetScreenDimensions(window: Window, pixelRatio: real): (d: ScreenDimensions)
    ensures d.width == window.width && d.height == window.height && d.pixelRatio == pixelRatio
    ensures d.isSmallScreen <==> window.width < 375.0
    ensures d.isTablet <==> window.width >= 768.0
    ensures d.isLandscape <==> window.width > window.height
    ensures !(d.isSmallScreen && d.isTablet)
  {
    ScreenDimensions(
      window.width,
      window.height,
      window.width < SmallScreenWidth,
      window.width >= TabletWidth,
      window.width > window.height,
      pixelRatio)
  }

  /** The dimensions the `change` listener of `useResponsiveDimensions` stores. */
  function DimensionsOnChange(window: Window, pixelRatio: real): (d: ScreenDimensions)
    ensures d.width == window.width && d.height == window.height && d.pixelRatio == pixelRatio
    ensures d.isSmallScreen <==> window.width < 375.0
    ensures d.isTablet <==> window.width >= 768.0
    ensures d.isLandscape <==> window.width > window.height
  {
    ScreenDimensions(
      window.width,
      window.height,
      window.width < 375.0,
      window.width >= 768.0,
      window.width > window.height,
      pixelRatio)
  }

  /** The listener classifies a window exactly as `getScreenDimensions` does. */
  lemma ListenerAgreesWithGetScreenDimensions(window: Window, pixelRatio: real)
    ensures DimensionsOnChange(window, pixelRatio) == GetScreenDimensions(window, pixelRatio)
  {
  }

  /** The small/tablet/default branch taken by the size helpers. */
  function ScaleFactor(d: ScreenDimensions, small: real, tablet: real): (f: real)
    ensures d.isSmallScreen ==> f == small
    ensures !d.isSmallScreen && d.isTablet ==> f == tablet
    ensures !d.isSmallScreen && !d.isTablet ==> f == 1.0
  {
    if d.isSmallScreen then small else if d.isTablet then tablet else 1.0
  }

  /** `getResponsivePadding`. */
  function GetResponsivePadding(basePadding: real, d: ScreenDimensions): (p: real)
    ensures p == basePadding * ScaleFactor(d, 0.8, 1.2)
  {
    if d.isSmallScreen then basePadding * 0.8
    else if d.isTablet then basePadding * 1.2
    else basePadding
  }

  /** `getResponsiveFontSize`. */
  function GetResponsiveFontSize(baseFontSize: real, d: ScreenDimensions): (s: real)
    ensures s == baseFontSize * ScaleFactor(d, 0.9, 1.1)
  {
    if d.isSmallScreen then baseFontSize * 0.9
    else if d.isTablet then baseFontSize * 1.1
    else baseFontSize
  }

  /** `getInputHeight`. */
  function GetInputHeight(baseHeight: real, d: ScreenDimensions): (h: real)
    ensures h == baseHeight * ScaleFactor(d, 0.9, 1.1)
  {
    if d.isSmallScreen then baseHeight * 0.9
    else if d.isTablet then baseHeight * 1.1
    else baseHeight
  }

  /**
   * A wider window never gets smaller padding, type or input box (for a
   * non-negative base).
   */
  lemma ScalingFollowsWidth(base: real, w1: Window, w2: Window, pixelRatio: real)
    requires 0.0 <= base && w1.width <= w2.width
    ensures var d1, d2 := GetScreenDimensions(w1, pixelRatio), GetScreenDimensions(w2, pixelRatio);
      && GetResponsivePadding(base, d1) <= GetResponsivePadding(base, d2)
      && GetResponsiveFontSize(base, d1) <= GetResponsiveFontSize(base, d2)
      && GetInputHeight(base, d1) <= GetInputHeight(base, d2)
  {
  }

  /** On a default-sized window every helper returns its base unchanged. */
  lemma DefaultScreenKeepsBase(base: real, window: Window, pixelRatio: real)
    requires 375.0 <= window.width < 768.0
    ensures var d := GetScreenDimensions(window, pixelRatio);
      && GetResponsivePadding(base, d) == base
      && GetResponsiveFontSize(base, d) == base
      && GetInputHeight(base, d) == base
  {
  }

  /** `getMaxMessageWidth`. */
  function GetMaxMessageWidth(d: ScreenDimensions): (w: string)
    ensures w in {"60%", "75%", "85%"}
    ensures d.isTablet ==> w == "60%"
  {
    if d.isTablet then "60%"
    else if d.width > WideMessageWidth then "75%"
    else "85%"
  }

  /** By window width: tablets 60%, wider than 400 75%, otherwise 85%. */
  lemma MaxMessageWidthByWidth(window: Window, pixelRatio: real)
    ensures var w := GetMaxMessageWidth(GetScreenDimensions(window, pixelRatio));
      && (window.width >= 768.0 ==> w == "60%")
      && (400.0 < window.width < 768.0 ==> w == "75%")
      && (window.width <= 400.0 ==> w == "85%")
  {
  }

  /** `getKeyboardVerticalOffset`: the tablet test comes first. */
  function GetKeyboardVerticalOffset(d: ScreenDimensions): (offset: nat)
    ensures d.isTablet ==> offset == 100
    ensures !d.isTablet && d.isSmallScreen ==> offset == 60
    ensures !d.isTablet && !d.isSmallScreen ==> offset == 80
  {
    if d.isTablet then 100
    else if d.isSmallScreen then 60
    else 80
  }

  /** The keyboard offset grows with the window width. */
  lemma KeyboardOffsetFollowsWidth(w1: Window, w2: Window, pixelRatio: real)
    requires w1.width <= w2.width
    ensures GetKeyboardVerticalOffset(GetScreenDimensions(w1, pixelRatio))
      <= GetKeyboardVerticalOffset(GetScreenDimensions(w2, pixelRatio))
    ensures w1.width < 375.0 ==> GetKeyboardVerticalOffset(GetScreenDimensions(w1, pixelRatio)) == 60
    ensures 375.0 <= w1.width < 768.0 ==> GetKeyboardVerticalOffset(GetScreenDimensions(w1, pixelRatio)) == 80
    ensures w2.width >= 768.0 ==> GetKeyboardVerticalOffset(GetScreenDimensions(w2, pixelRatio)) == 100
  {
  }

  /**
   * A property bag. A key that is absent reads as `undefined`; values are
   * compared with strict equality.
   */
  function Lookup<V>(props: map<string, V>, key: string): Option<V>
  {
    if key in props then Some(props[key]) else None
  }

  /** `shouldUpdateComponent`: `keysToCheck.some(key => prev[key] !== next[key])`. */
  function ShouldUpdateComponent<V(==)>(prevProps: map<string, V>, nextProps: map<string, V>, keysToCheck: seq<string>): (update: bool)
    ensures update <==> exists i :: 0 <= i < |keysToCheck| && Lookup(prevProps, keysToCheck[i]) != Lookup(nextProps, keysToCheck[i])
  {
    if keysToCheck == [] then false
    else if Lookup(prevProps, keysToCheck[0]) != Lookup(nextProps, keysToCheck[0]) then true
    else
      var rest := ShouldUpdateComponent(prevProps, nextProps, keysToCheck[1..]);
      assert forall i :: 1 <= i < |keysToCheck| ==> keysToCheck[i] == keysToCheck[1..][i - 1];
      rest
  }

  /** With nothing to check there is never a reason to update. */
  lemma NoKeysNoUpdate<V>(prevProps: map<string, V>, nextProps: map<string, V>)
    ensures !ShouldUpdateComponent(prevProps, nextProps, [])
  {
  }

  /** Identical props never ask for an update, whatever the keys. */
  lemma SamePropsNoUpdate<V>(props: map<string, V>, keysToCheck: seq<string>)
    ensures !ShouldUpdateComponent(props, props, keysToCheck)
  {
  }
}
