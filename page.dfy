/**
 * `opage`: one page of a line. Four one-letter effect fields, each set
 * through a validating setter, a message, and the dirty flag `changed`
 * that `pushchanges` tests and clears.
 */
module Pages {
  import opened Wrappers
  import opened Variant
  import Escape
  import Translate

  /** A setter takes its argument when it is one letter of its alphabet and
      differs from the current value. */
  predicate Takes(current: string, arg: string, alphabet: string)
  {
    OneOf(arg, alphabet) && arg != current
  }

  /** The field after a setter call. */
  function Assign(current: string, arg: string, alphabet: string): string
  {
    if Takes(current, arg, alphabet) then arg else current
  }

  /** A field holds one letter of its alphabet, or nothing when the page was
      created with an invalid value for it. */
  predicate FieldOk(f: string, alphabet: string)
  {
    f == [] || OneOf(f, alphabet)
  }

  /** Setters keep every field well formed. */
  lemma AssignFieldOk(current: string, arg: string, alphabet: string)
    requires FieldOk(current, alphabet)
    ensures FieldOk(Assign(current, arg, alphabet), alphabet)
  {
  }

  /** The field changes exactly when the setter takes its argument, and then
      becomes that argument. */
  lemma AssignChanges(current: string, arg: string, alphabet: string)
    ensures Assign(current, arg, alphabet) != current <==> Takes(current, arg, alphabet)
    ensures Takes(current, arg, alphabet) ==> Assign(current, arg, alphabet) == arg
  {
  }

  /** Calling a setter twice with the same argument is calling it once: the
      second call neither changes the field nor marks the page. */
  lemma AssignIdempotent(current: string, arg: string, alphabet: string)
    ensures Assign(Assign(current, arg, alphabet), arg, alphabet) == Assign(current, arg, alphabet)
    ensures !Takes(Assign(current, arg, alphabet), arg, alphabet)
  {
  }

  /** The message after `message(mm)`: an empty argument changes nothing. */
  function AssignMessage(current: string, mm: string): string
  {
    if |mm| > 0 then mm else current
  }

  /** `opage.packet()` in terms of the five fields. */
  function PacketOf(fx: string, mx: string, wx: string, fy: string, mm: string, v: Variant): string
  {
    "<F" + fx + "><M" + mx + "><W" + wx + "><F" + fy + ">" + Escape.Translate(mm, Translate.Table(v))
  }

  datatype Header = Header(fx: char, mx: char, wx: char, fy: char, body: string)

  /** Reads the four effect letters off a page packet. */
  function ParseHeader(p: string): Option<Header>
  {
    if |p| >= 16 && p[..2] == "<F" && p[3..6] == "><M" && p[7..10] == "><W" && p[11..14] == "><F"
       && p[15] == '>'
    then Some(Header(p[2], p[6], p[10], p[14], p[16..]))
    else None
  }

  /** The header written for four letters reads back as those letters. */
  lemma HeaderRoundTrip(fx: char, mx: char, wx: char, fy: char, body: string)
    ensures ParseHeader("<F" + [fx] + "><M" + [mx] + "><W" + [wx] + "><F" + [fy] + ">" + body)
            == Some(Header(fx, mx, wx, fy, body))
  {
    var p := "<F" + [fx] + "><M" + [mx] + "><W" + [wx] + "><F" + [fy] + ">" + body;
    assert p == ['<', 'F', fx, '>', '<', 'M', mx, '>', '<', 'W', wx, '>', '<', 'F', fy, '>'] + body;
  }

  /** A page whose fields are all set sends them in order, then its message
      with the characters of the table replaced. */
  lemma PacketHeader(fx: char, mx: char, wx: char, fy: char, mm: string, v: Variant)
    ensures ParseHeader(PacketOf([fx], [mx], [wx], [fy], mm, v))
            == Some(Header(fx, mx, wx, fy, Escape.Translate(mm, Translate.Table(v))))
  {
    HeaderRoundTrip(fx, mx, wx, fy, Escape.Translate(mm, Translate.Table(v)));
  }

  /** The same header read back gives the same packet apart from the body. */
  lemma ParseHeaderSound(p: string)
    requires ParseHeader(p).Some?
    ensures var h := ParseHeader(p).value;
            p == ['<', 'F', h.fx, '>', '<', 'M', h.mx, '>', '<', 'W', h.wx, '>', '<', 'F', h.fy, '>'] + h.body
  {
    var h := ParseHeader(p).value;
    assert p == p[..16] + p[16..];
  }

  class Page {
    const variant: Variant
    var FX: string
    var MX: string
    var WX: string
    var FY: string
    var MM: string
    var changed: bool

    ghost predicate Valid()
      reads this`FX, this`MX, this`WX, this`FY
    {
      FieldOk(FX, LeadInAlphabet) && FieldOk(MX, DisplayAlphabet(variant))
      && FieldOk(WX, WaitAlphabet) && FieldOk(FY, LagAlphabet)
    }

    /** `opage(MM, FX, MX, WX, FY)`: starts from empty fields, applies each
        setter, then the message, then marks the page modified. */
    constructor (variant: Variant, mm: string, fx: string, mx: string, wx: string, fy: string)
      ensures Valid() && this.variant == variant
      ensures FX == Assign([], fx, LeadInAlphabet) && MX == Assign([], mx, DisplayAlphabet(variant))
      ensures WX == Assign([], wx, WaitAlphabet) && FY == Assign([], fy, LagAlphabet)
      ensures MM == mm && changed
    {
      this.variant := variant;
      FX := Assign([], fx, LeadInAlphabet);
      MX := Assign([], mx, DisplayAlphabet(variant));
      WX := Assign([], wx, WaitAlphabet);
      FY := Assign([], fy, LagAlphabet);
      MM := AssignMessage([], mm);
      changed := true;
    }

    /** `leadin(FX)`. */
    method LeadIn(fx: string) returns (current: string)
      modifies this`FX, this`changed
      ensures old(Valid()) ==> Valid()
      ensures FX == Assign(old(FX), fx, LeadInAlphabet) && current == FX
      ensures changed == (old(changed) || Takes(old(FX), fx, LeadInAlphabet))
    {
      if OneOf(fx, LeadInAlphabet) && fx != FX {
        FX := fx;
        changed := true;
      }
      current := FX;
    }

    /** `display(MX)`, over the display modes of this board. */
    method Display(mx: string) returns (current: string)
      modifies this`MX, this`changed
      ensures old(Valid()) ==> Valid()
      ensures MX == Assign(old(MX), mx, DisplayAlphabet(variant)) && current == MX
      ensures changed == (old(changed) || Takes(old(MX), mx, DisplayAlphabet(variant)))
    {
      if OneOf(mx, DisplayAlphabet(variant)) && mx != MX {
        MX := mx;
        changed := true;
      }
      current := MX;
    }

    /** `wait(WX)`. */
    method Wait(wx: string) returns (current: string)
      modifies this`WX, this`changed
      ensures old(Valid()) ==> Valid()
      ensures WX == Assign(old(WX), wx, WaitAlphabet) && current == WX
      ensures changed == (old(changed) || Takes(old(WX), wx, WaitAlphabet))
    {
      if OneOf(wx, WaitAlphabet) && wx != WX {
        WX := wx;
        changed := true;
      }
      current := WX;
    }

    /** `lagging(FY)`. */
    method Lagging(fy: string) returns (current: string)
      modifies this`FY, this`changed
      ensures old(Valid()) ==> Valid()
      ensures FY == Assign(old(FY), fy, LagAlphabet) && current == FY
      ensures changed == (old(changed) || Takes(old(FY), fy, LagAlphabet))
    {
      if OneOf(fy, LagAlphabet) && fy != FY {
        FY := fy;
        changed := true;
      }
      current := FY;
    }

    /** `message(MM)`: any non-empty message is stored and marks the page,
        even when it equals the current one. */
    method Message(mm: string) returns (current: string)
      modifies this`MM, this`changed
      ensures MM == AssignMessage(old(MM), mm) && current == MM
      ensures changed == (old(changed) || |mm| > 0)
    {
      if |mm| > 0 {
        MM := mm;
        changed := true;
      }
      current := MM;
    }

    /** `modified(c)`: stores `c` and returns the flag it replaced. */
    method Modified(c: bool) returns (was: bool)
      modifies this`changed
      ensures was == old(changed) && changed == c
    {
      was := changed;
      changed := c;
    }

    /** `packet()`: the page as sent, without line, page id or checksum. */
    function Packet(): (p: string)
      reads this`FX, this`MX, this`WX, this`FY, this`MM
      ensures |FX| == 1 && |MX| == 1 && |WX| == 1 && |FY| == 1 ==>
        ParseHeader(p) == Some(Header(FX[0], MX[0], WX[0], FY[0], Escape.Translate(MM, Translate.Table(variant))))
    {
      if |FX| == 1 && |MX| == 1 && |WX| == 1 && |FY| == 1 then
        assert FX == [FX[0]] && MX == [MX[0]] && WX == [WX[0]] && FY == [FY[0]];
        PacketHeader(FX[0], MX[0], WX[0], FY[0], MM, variant);
        PacketOf(FX, MX, WX, FY, MM, variant)
      else
        PacketOf(FX, MX, WX, FY, MM, variant)
    }
  }
}
