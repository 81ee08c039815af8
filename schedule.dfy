/**
 * `oschedule`: when a string of pages is shown. A start and an end date
 * (either may be missing, since `date('')` is `None`), the pages, an
 * active flag, and the dirty flag `changed`.
 */
module Schedules {
  import opened Wrappers
  import opened Dates

  /** `oschedule.packet()`: both dates as `yymmddHHMM`, then the pages. */
  function PacketOf(st: Date, en: Date, pp: string): (p: string)
    requires Valid(st) && Valid(en)
    ensures |p| == 20 + |pp| && AllDigits(p[..20]) && p[20..] == pp
  {
    RenderShape(st);
    RenderShape(en);
    var p := Render(st) + Render(en) + pp;
    assert p[..20] == Render(st) + Render(en);
    p
  }

  datatype Window = Window(st: Date, en: Date, pages: string)

  /** Reads a schedule packet back: two dates of ten digits each, then the pages. */
  function ParsePacket(p: string): Option<Window>
  {
    if |p| < 20 then None
    else match (ParseDate(p[..10]), ParseDate(p[10..20]))
      case (Ok(Some(st)), Ok(Some(en))) => Some(Window(st, en, p[20..]))
      case _ => None
  }

  /** A schedule of this century reads back from its packet. */
  lemma PacketRoundTrip(st: Date, en: Date, pp: string)
    requires Valid(st) && Valid(en) && 2000 <= st.year <= 2099 && 2000 <= en.year <= 2099
    ensures ParsePacket(PacketOf(st, en, pp)) == Some(Window(st, en, pp))
  {
    var p := PacketOf(st, en, pp);
    RenderShape(st);
    RenderShape(en);
    assert p[..10] == Render(st) && p[10..20] == Render(en);
    ParseRender(st);
    ParseRender(en);
  }

  class Schedule {
    var active: bool
    var changed: bool
    var PP: string
    var st: Option<CalendarDate>
    var en: Option<CalendarDate>

    /** `oschedule(PP, start, end)`: the dates are read by `date`; a schedule
        starts active and modified. */
    constructor (pp: string, start: string, end: string)
      requires ParseDate(start).Ok? && ParseDate(end).Ok?
      ensures st == ParseDate(start).value && en == ParseDate(end).value && PP == pp
      ensures active && changed
    {
      st := ParseDate(start).value;
      en := ParseDate(end).value;
      PP := pp;
      active := true;
      changed := true;
    }

    /** `start(st)`: always marks the schedule, whatever the date. */
    method Start(s: string)
      requires ParseDate(s).Ok?
      modifies this`st, this`changed
      ensures st == ParseDate(s).value && changed
    {
      st := ParseDate(s).value;
      changed := true;
    }

    /** `end(en)`: always marks the schedule. */
    method End(s: string)
      requires ParseDate(s).Ok?
      modifies this`en, this`changed
      ensures en == ParseDate(s).value && changed
    {
      en := ParseDate(s).value;
      changed := true;
    }

    /** `pages(PP)`: a non-empty argument replaces the pages and marks the
        schedule, even when it equals them. */
    method Pages(pp: string) returns (current: string)
      modifies this`PP, this`changed
      ensures PP == (if pp != [] then pp else old(PP)) && current == PP
      ensures changed == (old(changed) || pp != [])
    {
      if pp != [] {
        PP := pp;
        changed := true;
      }
      current := PP;
    }

    /** `activate(active)`: marks the schedule only when the flag flips. */
    method Activate(a: bool)
      modifies this`active, this`changed
      ensures active == a
      ensures changed == (old(changed) || old(active) != a)
    {
      if active != a {
        active := a;
        changed := true;
      }
    }

    /** `modified(c)`: stores `c` and returns the flag it replaced. */
    method Modified(c: bool) returns (was: bool)
      modifies this`changed
      ensures was == old(changed) && changed == c
    {
      was := changed;
      changed := c;
    }

    /** The packet can be built: `None.sched()` raises in the source. */
    predicate Dated()
      reads this`st, this`en
    {
      st.Some? && en.Some?
    }

    /** `packet()`. */
    function Packet(): string
      requires Dated()
      reads this`st, this`en, this`PP
    {
      PacketOf(st.value, en.value, PP)
    }
  }
}
