/**
 * A session on the basic board, end to end: a fresh driver at address 1,
 * one page "A" on line "1" with the default effects and a plain ASCII
 * message (such as "HELLO"), then one push.
 */
module Sessions {
  import opened Variant
  import opened Translate
  import Checksum
  import Pages
  import Device

  /** The walk of one line "1" holding one page "A". */
  lemma OnePageWalk(order: seq<string>, pageOrder: map<string, seq<string>>)
    requires order == ["1"] && "1" in pageOrder && pageOrder["1"] == ["A"]
    ensures Device.OrderOk(order, pageOrder)
    ensures Device.PageItems(order, pageOrder) == [Device.PageItem("1", "A")]
  {
    assert Device.PagesOfFirst(order, pageOrder, 0) == [];
    assert Device.LineItems("1", ["A"]) == [Device.PageItem("1", "A")];
  }

  /** The default effects are valid, so a new page takes them. */
  lemma DefaultEffects(v: Variant)
    ensures Pages.Assign([], "E", LeadInAlphabet) == "E" && Pages.Assign([], "Q", DisplayAlphabet(v)) == "Q"
    ensures Pages.Assign([], "A", WaitAlphabet) == "A" && Pages.Assign([], "E", LagAlphabet) == "E"
  {
    assert "E"[0] in LeadInAlphabet && "A"[0] in WaitAlphabet && "E"[0] in LagAlphabet;
    assert "Q"[0] in DisplayAlphabet(v);
  }

  /** What `pushchanges` writes for page `p` of line `l` before its message. */
  function PageHead(l: string, p: string, fx: string, mx: string, wx: string, fy: string): string
  {
    ("<L" + l + "><P" + p + ">") + ("<F" + fx + "><M" + mx + "><W" + wx + "><F" + fy + ">")
  }

  /** The head of page "A" of line "1" with the default effects. */
  const Head: string := PageHead("1", "A", "E", "Q", "A", "E")

  /** Written out, that head is `<L1><PA><FE><MQ><WA><FE>`. */
  lemma HeadText()
    ensures Head == "<L1><PA>" + "<FE><MQ>" + "<WA><FE>"
  {
    assert "<L" + "1" + "><P" + "A" + ">" == "<L1><PA>";
    assert "<F" + "E" + "><M" + "Q" + ">" == "<FE><MQ>";
    assert "<W" + "A" + "><F" + "E" + ">" == "<WA><FE>";
  }

  /** Text of plain ASCII characters. */
  predicate Ascii(m: string)
  {
    forall i :: 0 <= i < |m| ==> m[i] < 128 as char
  }

  /** The head fits the basic board's serial write. */
  lemma HeadNarrow()
    ensures Checksum.Narrow(Head, 127)
  {
    HeadText();
    Checksum.NarrowConcat("<L1><PA>", "<FE><MQ>", 127);
    Checksum.NarrowConcat("<L1><PA>" + "<FE><MQ>", "<WA><FE>", 127);
  }

  /** The body of a page with the default effects: its head, then an
      ASCII message as it is. */
  lemma DefaultBody(m: string)
    requires Ascii(m)
    ensures "<L" + "1" + "><P" + "A" + ">" + Pages.PacketOf("E", "Q", "A", "E", m, FiveLeds) == Head + m
  {
    var a, b := "<L" + "1" + "><P" + "A" + ">", "<F" + "E" + "><M" + "Q" + "><W" + "A" + "><F" + "E" + ">";
    assert Pages.PacketOf("E", "Q", "A", "E", m, FiveLeds) == b + m by {
      AsciiVerbatim(m, FiveLeds);
    }
    assert Head == a + b;
    Regroup(a, b, m);
  }

  /** Moves the join of a three-part text. */
  lemma Regroup(a: string, b: string, m: string)
    ensures a + (b + m) == (a + b) + m
  {
  }

  /** A basic driver holding only the marked page "A" of line "1", with the
      default effects and an ASCII message, is ready to push, and a push
      writes that page alone. */
  lemma OnePageCommands(ld: Device.Leds, o: Pages.Page, m: string)
    requires ld.Valid() && ld.variant == FiveLeds && Ascii(m)
    requires ld.lineOrder == ["1"] && ld.pageOrder.Keys == {"1"} && ld.pageOrder["1"] == ["A"]
    requires ld.lines.Keys == {"1"} && ld.lines["1"].Keys == {"A"} && ld.lines["1"]["A"] == o
    requires ld.schedOrder == [] && ld.schedules.Keys == {}
    requires o.changed && o.FX == "E" && o.MX == "Q" && o.WX == "A" && o.FY == "E" && o.MM == m
    requires o.variant == FiveLeds
    ensures ld.PushReady(false) && ld.Commands(false) == [Head + m]
  {
    OnePageWalk(ld.lineOrder, ld.pageOrder);
    var it := Device.PageItem("1", "A");
    assert ld.Items() == [it];
    DefaultBody(m);
    var body := Head + m;
    assert ld.Body(it) == body;
    assert Checksum.Narrow(body, 127) by {
      HeadNarrow();
      Checksum.NarrowConcat(Head, m, 127);
    }
    assert ld.Has(it) && ld.Dirty(it) && ld.Ready(it);
    assert ld.Sendable([it], false);
    assert ld.PushReady(false);
    assert ld.Outgoing([it], false) == [body] by {
      assert [it][..0] == [];
    }
    assert Device.Lead(FiveLeds, false) == [] && Device.Trail(FiveLeds) == [];
    assert ld.Commands(false) == [] + [body] + [];
  }

  /** `updateline('A', m)` on a fresh basic driver at address 1: line "1"
      now holds one new page "A", marked, with the default effects and `m`. */
  method FirstPage(m: string, replies: seq<string>) returns (ld: Device.Leds, o: Pages.Page)
    requires m != []
    ensures fresh(ld) && fresh(o) && ld.PageRepr == {o} && ld.SchedRepr == {}
    ensures ld.Valid() && ld.variant == FiveLeds && ld.device == 1 && ld.sent == []
    ensures ld.lineOrder == ["1"] && ld.pageOrder.Keys == {"1"} && ld.pageOrder["1"] == ["A"]
    ensures ld.lines.Keys == {"1"} && ld.lines["1"].Keys == {"A"} && ld.lines["1"]["A"] == o
    ensures ld.schedOrder == [] && ld.schedules.Keys == {}
    ensures o.changed && o.FX == "E" && o.MX == "Q" && o.WX == "A" && o.FY == "E" && o.MM == m
    ensures o.variant == FiveLeds
  {
    ld := new Device.Leds(FiveLeds, 1, replies);
    o := AddFirst(ld, m);
  }

  /** `updateline('A', m)` on a driver whose line "1" is empty. */
  method AddFirst(ld: Device.Leds, m: string) returns (o: Pages.Page)
    requires m != [] && ld.Valid() && ld.variant == FiveLeds && ld.PageRepr == {}
    requires ld.lines == map["1" := map[]] && ld.lineOrder == ["1"] && ld.pageOrder == map["1" := []]
    modifies ld`lines, ld`pageOrder, ld`PageRepr, ld`PageHome
    ensures fresh(o) && ld.PageRepr == {o}
    ensures ld.Valid()
    ensures ld.pageOrder.Keys == {"1"} && ld.pageOrder["1"] == ["A"]
    ensures ld.lines.Keys == {"1"} && ld.lines["1"].Keys == {"A"} && ld.lines["1"]["A"] == o
    ensures o.changed && o.FX == "E" && o.MX == "Q" && o.WX == "A" && o.FY == "E" && o.MM == m
    ensures o.variant == FiveLeds
  {
    ld.UpdateLine("A", m, "1", "E", "Q", "A", "E");
    DefaultEffects(FiveLeds);
    o := ld.lines["1"]["A"];
    assert ld.pageOrder == map["1" := []]["1" := [] + ["A"]];
  }

  /** `updateline('A', m)` then `pushchanges()` on a fresh basic driver at
      address 1 writes exactly one frame: the page with its default effects
      E, Q, A, E and the message as it is; `m = "HELLO"` gives
      `<ID01><L1><PA><FE><MQ><WA><FE>HELLO`, its checksum and `<E>`. */
  method FirstPageSession(m: string, replies: seq<string>) returns (ld: Device.Leds)
    requires m != [] && Ascii(m)
    ensures ld.sent == [Checksum.Frame(1, Head + m)]
  {
    var o;
    ld, o := FirstPage(m, replies);
    PushOnePage(ld, o, m);
  }

  /** `pushchanges()` on a basic driver at address 1 holding only the
      marked page "A" of line "1" writes that page's frame alone. */
  method PushOnePage(ld: Device.Leds, o: Pages.Page, m: string)
    requires ld.Valid() && ld.variant == FiveLeds && ld.device == 1 && ld.sent == [] && Ascii(m)
    requires ld.lineOrder == ["1"] && ld.pageOrder.Keys == {"1"} && ld.pageOrder["1"] == ["A"]
    requires ld.lines.Keys == {"1"} && ld.lines["1"].Keys == {"A"} && ld.lines["1"]["A"] == o
    requires ld.schedOrder == [] && ld.schedules.Keys == {}
    requires o.changed && o.FX == "E" && o.MX == "Q" && o.WX == "A" && o.FY == "E" && o.MM == m
    requires o.variant == FiveLeds
    modifies ld`sent, ld`replies, ld`saves, ld.PageRepr`changed, ld.SchedRepr`changed
    ensures ld.sent == [Checksum.Frame(1, Head + m)]
  {
    OnePageCommands(ld, o, m);
    ld.PushChanges(false);
    assert ld.sent == [] + Device.Frames(1, [Head + m]);
    assert Device.Frames(1, [Head + m])[0] == Checksum.Frame(1, Head + m);
  }
}
