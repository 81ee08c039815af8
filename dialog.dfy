/**
 * The schedule dialog of the advanced driver's window: on "send" it
 * turns what was typed into one `updatesched` call on the driver.
 */
module ScheduleDialog {
  import opened Dates
  import Text
  import Device

  /** The arguments `OnSend` passes to `updatesched`. */
  datatype Request = Request(pages: string, active: bool)

  /** An empty pages box deactivates the schedule (pages left at their
      default ""); anything else is sent upper-cased, with `active = True`. */
  function Decide(text: string): (r: Request)
    ensures r.active <==> text != []
    ensures r.pages == [] <==> text == []
    ensures text != [] ==> r.pages == Text.Upper(text)
  {
    if text == [] then Request([], false) else Request(Text.Upper(text), true)
  }

  /** `OnSend`: the selected schedule ends up active exactly when pages
      were typed, and then holds those pages upper-cased and the typed
      dates; an empty box only switches it off. */
  method OnSend(ld: Device.Leds, selected: string, text: string, start: string, end: string)
    requires ld.Valid()
    requires selected in ld.schedules || text != []
    requires text != [] ==> ParseDate(start).Ok? && ParseDate(end).Ok?
    modifies ld`schedules, ld`schedOrder, ld`SchedRepr, ld`SchedHome, ld.SchedRepr
    ensures ld.Valid() && selected in ld.schedules
    ensures ld.schedules[selected].active <==> text != []
    ensures text != [] ==>
      ld.schedules[selected].PP == Text.Upper(text)
      && ld.schedules[selected].st == ParseDate(start).value && ld.schedules[selected].en == ParseDate(end).value
    ensures text == [] ==>
      ld.schedules[selected] == old(ld.schedules[selected]) && ld.schedules[selected].PP == old(ld.schedules[selected].PP)
    ensures ld.schedules.Keys == old(ld.schedules.Keys) + {selected}
    ensures forall s :: s in old(ld.schedules) && s != selected ==> ld.schedules[s] == old(ld.schedules[s])
  {
    var r := Decide(text);
    ld.UpdateSched(selected, r.pages, r.active, start, end);
  }
}
