/**
 * The escape step of `opage.packet`: every character that a lookup table
 * binds is replaced by the device escape `<Uxx>`, every other character is
 * sent as it is. The lookup itself is a parameter here; the tables of the
 * two drivers are in module Translate.
 */
module Escape {
  import opened Wrappers
  import Hex
  import Checksum

  /** The device escape for a code: `<U` + two upper-case hex digits + `>`. */
  function Token(code: nat): string
  {
    "<U" + Hex.Pad2(code, true) + ">"
  }

  /** The replacement of one character under the lookup `table`. */
  function Replace(c: char, table: char -> Option<nat>): (r: string)
    ensures table(c).None? <==> r == [c]
    ensures table(c).Some? ==> |r| > 1
  {
    match table(c)
    case Some(code) => Token(code)
    case None => [c]
  }

  /** `MM.translate(ttable)`: each character is replaced by its token, if bound. */
  function Translate(s: string, table: char -> Option<nat>): string
    decreases |s|
  {
    if s == [] then [] else Translate(s[..|s| - 1], table) + Replace(s[|s| - 1], table)
  }

  lemma {:induction false} TranslateAppend(a: string, b: string, table: char -> Option<nat>)
    ensures Translate(a + b, table) == Translate(a, table) + Translate(b, table)
    decreases |b|
  {
    if b == [] {
      assert a + b == a;
    } else {
      var b' := b[..|b| - 1];
      var c := b[|b| - 1];
      assert (a + b)[..|a + b| - 1] == a + b' && (a + b)[|a + b| - 1] == c;
      assert Translate(a + b, table) == Translate(a + b', table) + Replace(c, table);
      assert Translate(b, table) == Translate(b', table) + Replace(c, table);
      TranslateAppend(a, b', table);
    }
  }

  lemma TranslateOne(c: char, table: char -> Option<nat>)
    ensures Translate([c], table) == Replace(c, table)
  {
    assert [c][..0] == [];
  }

  /** Text without bound characters is left as it is (plain ASCII, for one). */
  lemma {:induction false} TranslateUnbound(s: string, table: char -> Option<nat>)
    requires forall i :: 0 <= i < |s| ==> table(s[i]).None?
    ensures Translate(s, table) == s
    decreases |s|
  {
    if s != [] {
      TranslateUnbound(s[..|s| - 1], table);
    }
  }

  /** Escaping never shortens the text, and lengthens it as soon as one character is bound. */
  lemma {:induction false} TranslateLength(s: string, table: char -> Option<nat>)
    ensures |Translate(s, table)| >= |s|
    ensures (exists i :: 0 <= i < |s| && table(s[i]).Some?) ==> |Translate(s, table)| > |s|
    decreases |s|
  {
    if s != [] {
      var s' := s[..|s| - 1];
      TranslateLength(s', table);
      if exists i :: 0 <= i < |s| && table(s[i]).Some? {
        var i :| 0 <= i < |s| && table(s[i]).Some?;
        if i < |s| - 1 {
          assert s'[i] == s[i];
        }
      }
    }
  }

  /** The text goes out unchanged exactly when none of its characters is bound. */
  lemma TranslateFixed(s: string, table: char -> Option<nat>)
    ensures Translate(s, table) == s <==> forall i :: 0 <= i < |s| ==> table(s[i]).None?
  {
    if forall i :: 0 <= i < |s| ==> table(s[i]).None? {
      TranslateUnbound(s, table);
    } else {
      TranslateLength(s, table);
    }
  }

  /** A token is five ASCII characters and reads back as its code. */
  lemma TokenShape(code: nat)
    requires code < 0x80
    ensures |Token(code)| == 5
    ensures Checksum.Narrow(Token(code), 127)
    ensures Token(code)[..2] == "<U" && Token(code)[4] == '>'
    ensures Hex.Parse(Token(code)[2..4], true) == Some(code)
  {
    Hex.Pad2Length(code, true);
    Hex.Pad2RoundTrip(code, true);
    Hex.DigitsLength(code, true);
    var d := Hex.Pad2(code, true);
    assert Token(code) == ['<', 'U', d[0], d[1], '>'];
  }

}
