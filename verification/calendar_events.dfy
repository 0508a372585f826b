/**
 * Colouring of order events before they are handed to the calendar widget
 * (`processEvents` with the `STATUS_COLORS` table): every event keeps its own
 * fields and gets a white background, dark text, and a left border coloured by
 * its order status.
 */
module CalendarEvents {
  import opened Wrappers

  /** Background colour every processed event gets. */
  const White := "#ffffff"
  /** Text colour every processed event gets. */
  const TextDark := "#37352f"
  /** The status whose colour is the fallback. */
  const Unconfirmed := "unconfirmed"

  /** `STATUS_COLORS`: one muted colour per order status. */
  const StatusColors: map<string, string> := map[
    "unconfirmed" := "rgba(120, 119, 116, 0.4)",
    "confirmed" := "rgba(51, 126, 169, 0.4)",
    "in_progress" := "rgba(217, 115, 13, 0.4)",
    "ready" := "rgba(15, 123, 108, 0.4)",
    "delivered" := "rgba(11, 110, 153, 0.4)",
    "completed" := "rgba(68, 131, 97, 0.4)",
    "cancelled" := "rgba(212, 76, 71, 0.4)"
  ]

  /**
   * One calendar event as the server sends it. `fields` holds every property
   * the object spread copies unchanged (id, title, start, end, the rest of
   * `extendedProps`, ...); `orderStatus` is `extendedProps.order.status`; the
   * three colour properties are `None` when the event does not carry them.
   * `fields` never holds the keys "backgroundColor", "borderColor" or
   * "textColor": those properties live only in the three colour components.
   */
  datatype CalendarEvent = CalendarEvent(
    fields: map<string, string>,
    orderStatus: string,
    backgroundColor: Option<string>,
    borderColor: Option<string>,
    textColor: Option<string>)

  /**
   * `statusColors[status] || statusColors.unconfirmed`. JavaScript's `||` falls
   * through when the key is missing or its colour is the empty string; the
   * fallback itself is `undefined` (`None`) when the table has no
   * `unconfirmed` entry.
   */
  function BorderColor(colors: map<string, string>, status: string): (c: Option<string>)
    ensures c.None? <==> Unconfirmed !in colors && (status !in colors || colors[status] == "")
    ensures c.Some? ==> c.value in colors.Values
  {
    if status in colors && colors[status] != "" then Some(colors[status])
    else if Unconfirmed in colors then Some(colors[Unconfirmed])
    else None
  }

  /** The object `{...event, backgroundColor, borderColor, textColor}` built for one event. */
  function ProcessEvent(e: CalendarEvent, colors: map<string, string>): CalendarEvent
  {
    e.(backgroundColor := Some(White),
       borderColor := BorderColor(colors, e.orderStatus),
       textColor := Some(TextDark))
  }

  /**
   * `processEvents`: a map over the list. Length and order are kept, every
   * field other than the three colours is unchanged, background and text get
   * the fixed colours, and the border is the status's colour.
   */
  function ProcessEvents(events: seq<CalendarEvent>, colors: map<string, string>): (r: seq<CalendarEvent>)
    ensures |r| == |events|
    ensures forall i :: 0 <= i < |events| ==>
      r[i].fields == events[i].fields && r[i].orderStatus == events[i].orderStatus
    ensures forall i :: 0 <= i < |events| ==>
      r[i].backgroundColor == Some(White) && r[i].textColor == Some(TextDark)
    ensures forall i :: 0 <= i < |events| ==>
      r[i].borderColor == BorderColor(colors, events[i].orderStatus)
  {
    if events == [] then []
    else [ProcessEvent(events[0], colors)] + ProcessEvents(events[1..], colors)
  }

  /** Every colour in `STATUS_COLORS` is a non-empty string, so `||` never falls through on a known status. */
  lemma StatusColorsNonEmpty(status: string)
    requires status in StatusColors
    ensures StatusColors[status] != ""
  {
  }

  /**
   * With the `STATUS_COLORS` table the border is always defined: the status's
   * own colour for the seven known statuses, the `unconfirmed` colour for any
   * other status.
   */
  lemma StatusColorsBorder(events: seq<CalendarEvent>)
    ensures forall i :: 0 <= i < |events| ==>
      ProcessEvents(events, StatusColors)[i].borderColor ==
        Some(if events[i].orderStatus in StatusColors then StatusColors[events[i].orderStatus]
             else StatusColors[Unconfirmed])
  {
    forall i | 0 <= i < |events|
      ensures ProcessEvents(events, StatusColors)[i].borderColor ==
        Some(if events[i].orderStatus in StatusColors then StatusColors[events[i].orderStatus]
             else StatusColors[Unconfirmed])
    {
      var st := events[i].orderStatus;
      assert Unconfirmed in StatusColors;
      if st in StatusColors {
        StatusColorsNonEmpty(st);
      }
    }
  }

  /** Processing already-processed events changes nothing: the status, which picks the border, is kept. */
  lemma ProcessEventsIdempotent(events: seq<CalendarEvent>, colors: map<string, string>)
    ensures ProcessEvents(ProcessEvents(events, colors), colors) == ProcessEvents(events, colors)
  {
  }
}
