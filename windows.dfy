/** The window (drawing surface) record and the default window of a panel. */
module Windows {
  import opened Types
  import opened Panel

  /** `char_info_t`, the last character drawn into a window. */
  datatype CharInfo = CharInfo(
    data: Ptr, xLoc: Ptr, yLoc: Ptr,
    xDim: int, yDim: int, numPixels: int,
    show: bool, causesNewline: bool)

  /** What `setWindowColorSequence(window, data, cycleLength, startOffset)` records in a window. */
  datatype ColorSequence = ColorSequence(data: Ptr, cycleLength: int, startOffset: int)

  /** The contents of a `wind_info_t`, as a value. */
  datatype WindowState = WindowState(
    xMin: int, yMin: int, xMax: int, yMax: int,
    cursorX: int, cursorY: int, xReset: int, yReset: int,
    lastCharacter: CharInfo,
    bufferMode: bool, data: Ptr, numPixels: int, dynamic: bool,
    colors: ColorSequence)

  /** No character drawn yet: null data and locations, zero sizes, nothing to show. */
  const NoCharacter: CharInfo := CharInfo(Null, Null, Null, 0, 0, 0, false, false)

  /** The colour sequence with a null colour: "no colour set yet". */
  const UnsetColors: ColorSequence := ColorSequence(Null, 1, 0)

  predicate ColorsUnset(c: ColorSequence) {
    c.data == Null
  }

  /** The window a panel variant's `setWindowDefaults` produces. */
  function DefaultWindow(v: Variant): WindowState {
    WindowState(v.startCol, v.startRow, v.stopCol, v.stopRow, 0, 0, 0, 0,
                NoCharacter, false, Null, 0, false, UnsetColors)
  }

  /** The window invariants: bounds ordered and inside the addressable rectangle,
      cursor and reset point inside the window (window coordinates), and a direct-mode
      window owns no buffer and represents no pixels. */
  predicate WellFormed(v: Variant, s: WindowState) {
    v.startCol <= s.xMin <= s.xMax <= v.stopCol &&
    v.startRow <= s.yMin <= s.yMax <= v.stopRow &&
    0 <= s.cursorX <= s.xMax - s.xMin && 0 <= s.cursorY <= s.yMax - s.yMin &&
    0 <= s.xReset <= s.xMax - s.xMin && 0 <= s.yReset <= s.yMax - s.yMin &&
    (!s.bufferMode ==> s.data == Null && s.numPixels == 0)
  }

  /** Every default window spans the whole addressable rectangle, is well formed,
      has its cursor and reset point at the origin, no character history, direct mode
      and an unset colour sequence. */
  lemma DefaultWindowProperties(v: Variant)
    requires ValidGeometry(v)
    ensures var s := DefaultWindow(v);
      WellFormed(v, s) &&
      (s.xMin, s.yMin, s.xMax, s.yMax) == (v.startCol, v.startRow, v.stopCol, v.stopRow) &&
      (s.cursorX, s.cursorY, s.xReset, s.yReset) == (0, 0, 0, 0) &&
      s.lastCharacter.data == s.lastCharacter.xLoc == s.lastCharacter.yLoc == Null &&
      !s.lastCharacter.show && !s.lastCharacter.causesNewline &&
      !s.bufferMode && !s.dynamic && ColorsUnset(s.colors)
  {
  }

  /** A `wind_info_t` object; the driver's current window points at one. */
  class Window {
    var xMin: int
    var yMin: int
    var xMax: int
    var yMax: int
    var cursorX: int
    var cursorY: int
    var xReset: int
    var yReset: int
    var lastCharacter: CharInfo
    var bufferMode: bool
    var data: Ptr
    var numPixels: int
    var dynamic: bool
    var colors: ColorSequence

    /** A window whose contents are still to be set, like a local `wind_info_t` before
        `setWindowDefaults` fills it in. */
    constructor () {
    }

    /** The window's contents as a value. */
    function State(): WindowState
      reads this
    {
      WindowState(xMin, yMin, xMax, yMax, cursorX, cursorY, xReset, yReset,
                  lastCharacter, bufferMode, data, numPixels, dynamic, colors)
    }
  }
}
