/** The per-panel data: the two panel variants differ only in these values. */
module Panel {
  import opened Types

  /** One panel variant: the addressable rectangle from its header and the
      variant-specific bring-up data. */
  datatype Variant = Variant(
    width: nat, height: nat,
    startRow: nat, startCol: nat, stopRow: nat, stopCol: nat,
    pixelFormat: uint8,        // argument of setInterfacePixelFormat
    inversion: bool,           // whether bring-up issues setInversion(true)
    positiveGamma: seq<uint8>, // the pgam table handed to setPositiveGamCorr
    negativeGamma: seq<uint8>) // the ngam table handed to setNegativeGamCorr

  /** The addressable rectangle is non-empty and lies inside the panel. */
  predicate ValidGeometry(v: Variant) {
    v.startCol <= v.stopCol < v.width && v.startRow <= v.stopRow < v.height
  }

  /** `uint8_t pgam[16]` has fifteen initialisers; the sixteenth byte is zero. */
  const PositiveGamma: seq<uint8> :=
    [0x0F, 0x16, 0x14, 0x0A, 0x0D, 0x06, 0x43, 0x75, 0x33, 0x06, 0x0E, 0x00, 0x0C, 0x09, 0x08, 0x00]

  /** `uint8_t ngam[16]`, likewise zero-padded. */
  const NegativeGamma: seq<uint8> :=
    [0x08, 0x2B, 0x2D, 0x04, 0x10, 0x04, 0x3E, 0x24, 0x4E, 0x04, 0x0F, 0x0E, 0x35, 0x38, 0x0F, 0x00]

  /** ILI9341 240x320: pixel format 0x55, no inversion step. */
  const Ili9341_240x320: Variant := Variant(
    width := 240, height := 320,
    startRow := 0, startCol := 0, stopRow := 319, stopCol := 239,
    pixelFormat := 0x55, inversion := false,
    positiveGamma := PositiveGamma, negativeGamma := NegativeGamma)

  /** 4D Systems 320240: the same rectangle, pixel format 0x05 and an inversion step. */
  const Lcd320240: Variant := Variant(
    width := 240, height := 320,
    startRow := 0, startCol := 0, stopRow := 319, stopCol := 239,
    pixelFormat := 0x05, inversion := true,
    positiveGamma := PositiveGamma, negativeGamma := NegativeGamma)

  /** Both variants address the full 240 x 320 panel, columns 0..239 and rows 0..319. */
  lemma VariantGeometry(v: Variant)
    requires v == Ili9341_240x320 || v == Lcd320240
    ensures ValidGeometry(v)
    ensures v.stopCol - v.startCol + 1 == v.width == 240
    ensures v.stopRow - v.startRow + 1 == v.height == 320
    ensures |v.positiveGamma| == |v.negativeGamma| == 16
    ensures v.positiveGamma[15] == v.negativeGamma[15] == 0
  {
  }
}
