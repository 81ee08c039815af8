/**
 * The character translation `opage.ttable`: message characters the sign
 * cannot show natively are rewritten, at packet-build time, into the
 * device escape `<Uxx>`. The table in the source is a dictionary literal
 * that binds some characters more than once; a dictionary literal keeps
 * the LAST binding of a repeated key, so the maps below list, for every
 * character, the binding that takes effect.
 */
module Translate {
  import opened Wrappers
  import opened Variant
  import opened Escape

  /** Effective table of the advanced driver, as a lookup from a character
      to its token code. In the literal, U+00E4 is bound to 0x17 and then to
      0x64, and U+00BF to 0x28 and then to 0x3F; the later binding wins, so no
      character yields 0x17 or 0x28. */
  function SixCode(c: char): (r: Option<nat>)
    ensures r.Some? ==> r.value < 0x80 && r.value != 0x17 && r.value != 0x28
  {
    match c
    case '\U{20AC}' => Some(0x00)
    case '\U{2191}' => Some(0x01)
    case '\U{2193}' => Some(0x02)
    case '\U{02E5}' => Some(0x03)
    case '\U{02E6}' => Some(0x04)
    case '\U{02E8}' => Some(0x05)
    case '\U{02E9}' => Some(0x06)
    case '\U{2514}' => Some(0x07)
    case '\U{2534}' => Some(0x08)
    case '\U{251C}' => Some(0x09)
    case '\U{252C}' => Some(0x0A)
    case '\U{2500}' => Some(0x0B)
    case '\U{253C}' => Some(0x0C)
    case '\U{2518}' => Some(0x0D)
    case '\U{250C}' => Some(0x0E)
    case '\U{2588}' => Some(0x0F)
    case '\U{2584}' => Some(0x10)
    case '\U{258C}' => Some(0x11)
    case '\U{2590}' => Some(0x12)
    case '\U{2580}' => Some(0x13)
    case '\U{03B1}' => Some(0x14)
    case '\U{03B2}' => Some(0x15)
    case '\U{0393}' => Some(0x16)
    case '\U{00E4}' => Some(0x64)
    case '\U{03A3}' => Some(0x18)
    case '\U{03C3}' => Some(0x19)
    case '\U{03BC}' => Some(0x1A)
    case '\U{03C4}' => Some(0x1B)
    case '\U{03A6}' => Some(0x1C)
    case '\U{2248}' => Some(0x1D)
    case '\U{03A9}' => Some(0x1E)
    case '\U{03B4}' => Some(0x1F)
    case '\U{221E}' => Some(0x20)
    case '\U{03BB}' => Some(0x21)
    case '\U{00A2}' => Some(0x22)
    case '\U{00A3}' => Some(0x23)
    case '\U{2649}' => Some(0x24)
    case '\U{00A5}' => Some(0x25)
    case '\U{2192}' => Some(0x26)
    case '\U{2190}' => Some(0x27)
    case '\U{00BF}' => Some(0x3F)
    case '\U{00A9}' => Some(0x29)
    case '\U{00AA}' => Some(0x2A)
    case '\U{2265}' => Some(0x2B)
    case '\U{0190}' => Some(0x2C)
    case '\U{2229}' => Some(0x2D)
    case '\U{00AE}' => Some(0x2E)
    case '\U{FFFD}' => Some(0x2F)
    case '\U{0161}' => Some(0x30)
    case '\U{00B1}' => Some(0x31)
    case '\U{00B2}' => Some(0x32)
    case '\U{00B3}' => Some(0x33)
    case '\U{017E}' => Some(0x34)
    case '\U{0178}' => Some(0x35)
    case '\U{00B6}' => Some(0x36)
    case '\U{0276}' => Some(0x37)
    case '\U{0160}' => Some(0x38)
    case '\U{00B9}' => Some(0x39)
    case '\U{2070}' => Some(0x3A)
    case '\U{2264}' => Some(0x3B)
    case '\U{00BC}' => Some(0x3C)
    case '\U{00BD}' => Some(0x3D)
    case '\U{00A4}' => Some(0x3E)
    case '\U{00C0}' => Some(0x40)
    case '\U{00C1}' => Some(0x41)
    case '\U{00C2}' => Some(0x42)
    case '\U{00C3}' => Some(0x43)
    case '\U{00C4}' => Some(0x44)
    case '\U{00C5}' => Some(0x45)
    case '\U{00C6}' => Some(0x46)
    case '\U{00C7}' => Some(0x47)
    case '\U{00C8}' => Some(0x48)
    case '\U{00C9}' => Some(0x49)
    case '\U{00CA}' => Some(0x4A)
    case '\U{00CB}' => Some(0x4B)
    case '\U{00CC}' => Some(0x4C)
    case '\U{00CD}' => Some(0x4D)
    case '\U{00CE}' => Some(0x4E)
    case '\U{00CF}' => Some(0x4F)
    case '\U{00D0}' => Some(0x50)
    case '\U{00D1}' => Some(0x51)
    case '\U{00D2}' => Some(0x52)
    case '\U{00D3}' => Some(0x53)
    case '\U{00D4}' => Some(0x54)
    case '\U{00D5}' => Some(0x55)
    case '\U{00D6}' => Some(0x56)
    case '\U{017D}' => Some(0x57)
    case '\U{00D8}' => Some(0x58)
    case '\U{00D9}' => Some(0x59)
    case '\U{00DA}' => Some(0x5A)
    case '\U{00DB}' => Some(0x5B)
    case '\U{00DC}' => Some(0x5C)
    case '\U{00DD}' => Some(0x5D)
    case '\U{00DE}' => Some(0x5E)
    case '\U{00DF}' => Some(0x5F)
    case '\U{00E0}' => Some(0x60)
    case '\U{00E1}' => Some(0x61)
    case '\U{00E2}' => Some(0x62)
    case '\U{00E3}' => Some(0x63)
    case '\U{00E5}' => Some(0x65)
    case '\U{00E6}' => Some(0x66)
    case '\U{00E7}' => Some(0x67)
    case '\U{00E8}' => Some(0x68)
    case '\U{00E9}' => Some(0x69)
    case '\U{00EA}' => Some(0x6A)
    case '\U{00EB}' => Some(0x6B)
    case '\U{00EC}' => Some(0x6C)
    case '\U{00ED}' => Some(0x6D)
    case '\U{00EE}' => Some(0x6E)
    case '\U{00EF}' => Some(0x6F)
    case '\U{00F0}' => Some(0x70)
    case '\U{00F1}' => Some(0x71)
    case '\U{00F2}' => Some(0x72)
    case '\U{00F3}' => Some(0x73)
    case '\U{00F4}' => Some(0x74)
    case '\U{00F5}' => Some(0x75)
    case '\U{00F6}' => Some(0x76)
    case '\U{2026}' => Some(0x77)
    case '\U{00F8}' => Some(0x78)
    case '\U{00F9}' => Some(0x79)
    case '\U{00FA}' => Some(0x7A)
    case '\U{00FB}' => Some(0x7B)
    case '\U{00FC}' => Some(0x7C)
    case '\U{00FD}' => Some(0x7D)
    case '\U{00FE}' => Some(0x7E)
    case '\U{00FF}' => Some(0x7F)
    case _ => None
  }

  /** Effective table of the basic driver: its literal binds U+00E4 in the
      first slot (0x00), where the advanced one binds U+20AC, and again at 0x17
      and 0x64; the last binding, 0x64, wins and U+20AC is not bound at all.
      Every other binding is the advanced driver's. */
  function FiveCode(c: char): (r: Option<nat>)
    ensures r.Some? ==> r.value < 0x80 && r.value != 0x00 && r.value != 0x17 && r.value != 0x28
  {
    if c == '\U{20AC}' then None else SixCode(c)
  }

  /** The table in effect on each board. */
  function Table(v: Variant): char -> Option<nat>
  {
    match v
    case SixLeds => SixCode
    case FiveLeds => FiveCode
  }

  /** A single character that `table` binds to `code` becomes that code's token. */
  lemma BoundChar(c: char, table: char -> Option<nat>, code: nat)
    requires table(c) == Some(code)
    ensures Translate([c], table) == Token(code)
  {
    TranslateOne(c, table);
  }

  /** Every key of the advanced table lies outside ASCII. */
  lemma SixAsciiUnbound(c: char)
    requires c < 128 as char
    ensures SixCode(c).None?
  {
  }

  /** Hence so does every key of either table. */
  lemma AsciiUnbound(c: char, v: Variant)
    requires c < 128 as char
    ensures Table(v)(c).None?
  {
    SixAsciiUnbound(c);
  }

  /** Plain ASCII text is sent as it is, on either board. */
  lemma AsciiVerbatim(s: string, v: Variant)
    requires forall i :: 0 <= i < |s| ==> s[i] < 128 as char
    ensures Translate(s, Table(v)) == s
  {
    forall i | 0 <= i < |s|
      ensures Table(v)(s[i]).None?
    {
      AsciiUnbound(s[i], v);
    }
    TranslateUnbound(s, Table(v));
  }

  /** The bindings the examples below rely on. */
  lemma SixBindings()
    ensures SixCode('\U{03B1}') == Some(0x14) && SixCode('\U{00BF}') == Some(0x3F)
    ensures SixCode('\U{00E4}') == Some(0x64) && SixCode('\U{20AC}') == Some(0x00)
  {
  }

  /** The tokens of those bindings. */
  lemma ExampleTokens()
    ensures Token(0x14) == "<U14>" && Token(0x3F) == "<U3F>" && Token(0x64) == "<U64>" && Token(0x00) == "<U00>"
  {
  }

  /** The characters the advanced table exists for, and its euro sign. */
  lemma SixExamples()
    ensures Translate("\U{03B1}", Table(SixLeds)) == "<U14>"
    ensures Translate("\U{00BF}", Table(SixLeds)) == "<U3F>"
    ensures Translate("\U{00E4}", Table(SixLeds)) == "<U64>"
    ensures Translate("\U{20AC}", Table(SixLeds)) == "<U00>"
  {
    SixBindings();
    ExampleTokens();
    BoundChar('\U{03B1}', SixCode, 0x14);
    BoundChar('\U{00BF}', SixCode, 0x3F);
    BoundChar('\U{00E4}', SixCode, 0x64);
    BoundChar('\U{20AC}', SixCode, 0x00);
  }

  /** The same characters on the basic board, where the euro sign is sent as it is. */
  lemma FiveExamples()
    ensures Translate("\U{03B1}", Table(FiveLeds)) == "<U14>"
    ensures Translate("\U{00BF}", Table(FiveLeds)) == "<U3F>"
    ensures Translate("\U{00E4}", Table(FiveLeds)) == "<U64>"
    ensures Translate("\U{20AC}", Table(FiveLeds)) == "\U{20AC}"
  {
    SixBindings();
    ExampleTokens();
    BoundChar('\U{03B1}', FiveCode, 0x14);
    BoundChar('\U{00BF}', FiveCode, 0x3F);
    BoundChar('\U{00E4}', FiveCode, 0x64);
    TranslateOne('\U{20AC}', FiveCode);
  }
}
