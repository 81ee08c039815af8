/**
 * The two sign families the driver ships: `sixleds` (the advanced board)
 * and `fiveleds` (the basic board). Their protocol modules are
 * near-duplicates; everything that differs between them is decided here.
 */
module Variant {

  datatype Variant = SixLeds | FiveLeds

  /** Lead-in effects `A`..`S`. */
  const LeadInAlphabet: string := "ABCDEFGHIJKLMNOPQRS"

  /** Display modes: four speed tiers of five styles on the advanced
      board, two tiers of four on the basic one. */
  function DisplayAlphabet(v: Variant): string
  {
    match v
    case SixLeds => "ABCDEQRSTUabcdeqrstu"
    case FiveLeds => "ABQRabqr"
  }

  /** Wait times `A`..`Z` with `T` left out. */
  const WaitAlphabet: string := "ABCDEFGHIJKLMNOPQRSUVWXYZ"

  /** Lag-out (closing) effects `A`..`K`. */
  const LagAlphabet: string := "ABCDEFGHIJK"

  /** Pages a default run page may name. */
  const PageLetters: string := "ABCDEFGHIJKLMNOPQRSTUVWXYZ"

  /** Brightness levels 100%, 75%, 50%, 25%. */
  const BrightnessLevels: string := "ABCD"

  /** Largest character code the serial write accepts: the advanced driver
      converts each character with `bytes([...])`, the basic one encodes
      the frame as ASCII. */
  function CharLimit(v: Variant): nat
  {
    match v
    case SixLeds => 255
    case FiveLeds => 127
  }

  /** Only the advanced driver wraps a push in `<BE>` ... `<BF>`. */
  predicate Brackets(v: Variant)
  {
    v == SixLeds
  }

  /** Only the advanced driver can program graphics. */
  predicate HasGraphic(v: Variant)
  {
    v == SixLeds
  }

  /** The validation every single-character setter applies:
      `len(x) == 1 and x in alphabet`. */
  predicate OneOf(arg: string, alphabet: string)
  {
    |arg| == 1 && arg[0] in alphabet
  }
}
