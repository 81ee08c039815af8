/**
 * The page editor of the advanced driver's window picks a display mode by
 * speed (1 to 4) and effect (A to E) through `CalcDisplayMethod`, and reads
 * a page's mode back into speed and effect in `OnPageChanged`.
 */
module DisplayModes {
  import opened Variant

  /** The rows of `DISPLAY_METHOD_MATRIX`, by speed 1 to 4; columns are the effects A to E. */
  const Matrix: seq<string> := ["ABCDE", "QRSTU", "abcde", "qrstu"]

  const Effects: seq<string> := ["A", "B", "C", "D", "E"]

  /** The column of an effect key, when it is one. */
  function EffectColumn(fx: string): (k: int)
    ensures -1 <= k < 5
    ensures k >= 0 ==> Effects[k] == fx
    ensures k == -1 ==> fx !in Effects
  {
    if fx == "A" then 0 else if fx == "B" then 1 else if fx == "C" then 2
    else if fx == "D" then 3 else if fx == "E" then 4 else -1
  }

  /** `CalcDisplayMethod`: the table entry for a speed and effect both in
      the table, and "Q" for anything else. */
  function CalcDisplayMethod(speed: int, fx: string): (mx: string)
    ensures OneOf(mx, DisplayAlphabet(SixLeds))
    ensures !(1 <= speed <= 4 && fx in Effects) ==> mx == "Q"
  {
    var k := EffectColumn(fx);
    if 1 <= speed <= 4 && k >= 0 then [Matrix[speed - 1][k]] else "Q"
  }

  /** The `if(value.MX == ...)` chain of `OnPageChanged`: the speed and
      effect a page's mode shows, or the previous ones for any other mode. */
  function DecodeDisplayMethod(mx: string, speed: int, fx: string): (r: (int, string))
    ensures r == (speed, fx) || (1 <= r.0 <= 4 && r.1 in Effects)
  {
    if |mx| != 1 then (speed, fx)
    else match mx[0]
      case 'A' => (4, "A") case 'B' => (4, "B") case 'C' => (4, "C") case 'D' => (4, "D") case 'E' => (4, "E")
      case 'Q' => (3, "A") case 'R' => (3, "B") case 'S' => (3, "C") case 'T' => (3, "D") case 'U' => (3, "E")
      case 'a' => (2, "A") case 'b' => (2, "B") case 'c' => (2, "C") case 'd' => (2, "D") case 'e' => (2, "E")
      case 'q' => (1, "A") case 'r' => (1, "B") case 's' => (1, "C") case 't' => (1, "D") case 'u' => (1, "E")
      case _ => (speed, fx)
  }

  /** Entry `k` of row `t` of the table decodes to effect `k` and speed `4 - t`. */
  lemma DecodeEntry(t: nat, k: nat, speed0: int, fx0: string)
    requires t < 4 && k < 5
    ensures DecodeDisplayMethod([Matrix[t][k]], speed0, fx0) == (4 - t, Effects[k])
  {
    if k == 0 {
    } else if k == 1 {
    } else if k == 2 {
    } else if k == 3 {
    } else {
    }
  }

  /** Reading a computed mode back gives the same effect, but speed `5 - speed`:
      the two tables number the speed tiers in opposite directions. */
  lemma DecodeCalc(speed: int, fx: string, speed0: int, fx0: string)
    requires 1 <= speed <= 4 && fx in Effects
    ensures DecodeDisplayMethod(CalcDisplayMethod(speed, fx), speed0, fx0) == (5 - speed, fx)
  {
    DecodeEntry(speed - 1, EffectColumn(fx), speed0, fx0);
  }

  /** Every mode of the advanced board is computed back from what it decodes to. */
  lemma CalcDecode(mx: string, speed0: int, fx0: string)
    requires OneOf(mx, DisplayAlphabet(SixLeds))
    ensures var (speed, fx) := DecodeDisplayMethod(mx, speed0, fx0);
      1 <= speed <= 4 && fx in Effects && CalcDisplayMethod(5 - speed, fx) == mx
  {
    var c := mx[0];
    assert mx == [c];
    assert DisplayAlphabet(SixLeds) == Matrix[0] + Matrix[1] + Matrix[2] + Matrix[3];
    var t: nat :| t < 4 && c in Matrix[t];
    var k: nat :| k < 5 && Matrix[t][k] == c;
    DecodeEntry(t, k, speed0, fx0);
  }

  /** A mode outside the table leaves speed and effect as they were. */
  lemma DecodeOther(mx: string, speed0: int, fx0: string)
    requires !OneOf(mx, DisplayAlphabet(SixLeds))
    ensures DecodeDisplayMethod(mx, speed0, fx0) == (speed0, fx0)
  {
  }

  /** The counterexample: the default page mode "Q" is computed from speed 2
      and effect A, read back as speed 3, and recomputed from that as "a". */
  lemma DefaultModeMisread()
    ensures CalcDisplayMethod(2, "A") == "Q"
    ensures DecodeDisplayMethod("Q", 2, "A") == (3, "A")
    ensures CalcDisplayMethod(3, "A") == "a"
  {
    DecodeEntry(1, 0, 2, "A");
  }

  /** The reading of a mode that `CalcDisplayMethod`'s table intends: the
      speed is the row the mode sits in, counted from 1. */
  function ReadDisplayMethod(mx: string, speed: int, fx: string): (r: (int, string))
    ensures r == (speed, fx) || (1 <= r.0 <= 4 && r.1 in Effects)
  {
    if |mx| != 1 then (speed, fx)
    else match mx[0]
      case 'A' => (1, "A") case 'B' => (1, "B") case 'C' => (1, "C") case 'D' => (1, "D") case 'E' => (1, "E")
      case 'Q' => (2, "A") case 'R' => (2, "B") case 'S' => (2, "C") case 'T' => (2, "D") case 'U' => (2, "E")
      case 'a' => (3, "A") case 'b' => (3, "B") case 'c' => (3, "C") case 'd' => (3, "D") case 'e' => (3, "E")
      case 'q' => (4, "A") case 'r' => (4, "B") case 's' => (4, "C") case 't' => (4, "D") case 'u' => (4, "E")
      case _ => (speed, fx)
  }

  /** Entry `k` of row `t` of the table reads as effect `k` at speed `t + 1`. */
  lemma ReadEntry(t: nat, k: nat, speed0: int, fx0: string)
    requires t < 4 && k < 5
    ensures ReadDisplayMethod([Matrix[t][k]], speed0, fx0) == (t + 1, Effects[k])
  {
    if k == 0 {
    } else if k == 1 {
    } else if k == 2 {
    } else if k == 3 {
    } else {
    }
  }

  /** Reading a computed mode gives back the speed and effect it was computed from. */
  lemma ReadCalc(speed: int, fx: string, speed0: int, fx0: string)
    requires 1 <= speed <= 4 && fx in Effects
    ensures ReadDisplayMethod(CalcDisplayMethod(speed, fx), speed0, fx0) == (speed, fx)
  {
    ReadEntry(speed - 1, EffectColumn(fx), speed0, fx0);
  }

  /** Every mode of the advanced board is computed from what it reads as. */
  lemma CalcRead(mx: string, speed0: int, fx0: string)
    requires OneOf(mx, DisplayAlphabet(SixLeds))
    ensures var (speed, fx) := ReadDisplayMethod(mx, speed0, fx0);
      1 <= speed <= 4 && fx in Effects && CalcDisplayMethod(speed, fx) == mx
  {
    var c := mx[0];
    assert mx == [c];
    assert DisplayAlphabet(SixLeds) == Matrix[0] + Matrix[1] + Matrix[2] + Matrix[3];
    var t: nat :| t < 4 && c in Matrix[t];
    var k: nat :| k < 5 && Matrix[t][k] == c;
    ReadEntry(t, k, speed0, fx0);
  }

  /** The source's reading is the intended one with the speed mirrored. */
  lemma DecodeMirrorsRead(mx: string, speed0: int, fx0: string)
    requires OneOf(mx, DisplayAlphabet(SixLeds))
    ensures DecodeDisplayMethod(mx, speed0, fx0).0 == 5 - ReadDisplayMethod(mx, speed0, fx0).0
    ensures DecodeDisplayMethod(mx, speed0, fx0).1 == ReadDisplayMethod(mx, speed0, fx0).1
  {
    var c := mx[0];
    assert mx == [c];
    assert DisplayAlphabet(SixLeds) == Matrix[0] + Matrix[1] + Matrix[2] + Matrix[3];
    var t: nat :| t < 4 && c in Matrix[t];
    var k: nat :| k < 5 && Matrix[t][k] == c;
    ReadEntry(t, k, speed0, fx0);
    DecodeEntry(t, k, speed0, fx0);
  }
}
