# Craftplan client hooks: a verified model

This project models, in Dafny, the three pieces of decision logic inside the
browser hooks of the Craftplan web application:

- **Order calendar labels and colours** (`assets/js/hooks/order_calendar.js`):
  `formatStatus` / `formatPaymentStatus`, which turn a status such as
  `in_progress` into the label `In Progress`, and `processEvents`, which gives
  every order event a white background, dark text and a border coloured by
  its order status from the seven-entry `STATUS_COLORS` table.
- **Kanban drag and drop** (`assets/js/hooks/kanban_drag_drop.js`): a `Board`
  class holding the `dragging` marks of cards, the `drag-over` marks of
  columns, the outbox of `update_kanban_status` events pushed to the server
  and a count of logged errors, with one method per DOM event handler
  (dragstart, dragend, click, dragover, dragleave, drop) and a pure drop
  decision `DecideDrop`.
- **Command palette keys** (`assets/js/hooks/command_palette.js`):
  `handleKeyDown` as a total function from (platform, modifier flags, key,
  `data-open` attribute) to the event pushed, if any, and whether the
  browser's default is prevented.

Files: `wrappers.dfy` (Option), `status_format.dfy`, `calendar_events.dfy`,
`kanban.dfy`, `command_palette.dfy`, one module each.

The label transform is proved equal to an independent character-by-character
reference (`TitleCase`: upper-case a character exactly when it starts the
string or follows a space); length, the position of spaces, the absence of
underscores, idempotence and the word-by-word view all follow from that.

Data attributes (`card.dataset.productId`, `column.dataset.status`, ...) are
modelled as `Option<string>`, `None` standing for `undefined`. Comparison of
statuses is JavaScript's `!==`, under which two `undefined` values are equal,
which is `!=` on these options.

## Model

| member | source | states |
|---|---|---|
| `StatusFormat.ReplaceUnderscores` | assets/js/hooks/order_calendar.js:69 | the result has the input's length, contains no `_`, and at each position has the input character with `_` turned into a space |
| `StatusFormat.Split` | assets/js/hooks/order_calendar.js:70 | `split(" ")` always yields at least one piece and no piece contains a space |
| `StatusFormat.CapitalizeWords` | assets/js/hooks/order_calendar.js:71 | the map keeps the number of words and applies the first-letter capitalisation to each word in place |
| `StatusFormat.TitleCase` | assets/js/hooks/order_calendar.js:68-72 | reference transform: same length; a character is upper-cased exactly when it starts a word (first position, or after a space), otherwise kept |
| `StatusFormat.FormatStatus` | assets/js/hooks/order_calendar.js:67-73 | `formatStatus` keeps the input's length and equals the reference `TitleCase` of the input with underscores blanked |
| `StatusFormat.FormatIsTitleCase` | assets/js/hooks/order_calendar.js:68-72 | replace/split/map/join pipeline equals the reference `TitleCase` on every string |
| `StatusFormat.PipelineFrom` | assets/js/hooks/order_calendar.js:70-72 | the inductive form of the above, with the first word's capitalisation switched on or off |
| `StatusFormat.FormatStatusPointwise` | assets/js/hooks/order_calendar.js:68-72 | the output holds no `_`; position i is a space exactly when input position i is a space or `_`; every position is the input character (with `_` blanked), upper-cased exactly at a word start, so existing capitals stay and nothing is lower-cased |
| `StatusFormat.FormatStatusIdempotent` | assets/js/hooks/order_calendar.js:67-73 | formatting a formatted label gives the same label |
| `StatusFormat.PaymentStatusAgrees` | assets/js/hooks/order_calendar.js:107-113 | `formatPaymentStatus` equals `formatStatus` on every input |
| `StatusFormat.JoinSplit` | assets/js/hooks/order_calendar.js:70-72 | joining the pieces of a split with single spaces gives the string back, so empty pieces from consecutive separators are kept |
| `StatusFormat.SplitJoin` | assets/js/hooks/order_calendar.js:70-72 | splitting the join of space-free pieces gives the same pieces back, empty ones included |
| `StatusFormat.FormatStatusWords` | assets/js/hooks/order_calendar.js:68-72 | the words of the label are exactly the input's words, in order, empty words kept, each with its first character upper-cased and the rest unchanged |
| `CalendarEvents.BorderColor` | assets/js/hooks/order_calendar.js:193-195 | the border is `undefined` exactly when the table has no `unconfirmed` entry and no non-empty colour for the status; whenever it is defined it is one of the table's colours |
| `CalendarEvents.ProcessEvents` | assets/js/hooks/order_calendar.js:187-198 | length and order kept; every field other than the three colours unchanged; background `#ffffff`, text `#37352f`; border from the status |
| `CalendarEvents.StatusColorsNonEmpty` | assets/js/hooks/order_calendar.js:7-15 | every colour in `STATUS_COLORS` is a non-empty string |
| `CalendarEvents.StatusColorsBorder` | assets/js/hooks/order_calendar.js:7-15 | with `STATUS_COLORS`, every processed event's border is defined: the status's colour for the seven statuses, the `unconfirmed` colour otherwise |
| `CalendarEvents.ProcessEventsIdempotent` | assets/js/hooks/order_calendar.js:187-198 | processing processed events changes nothing |
| `KanbanDragDrop.DecideDrop` | assets/js/hooks/kanban_drag_drop.js:68-82 | at most one notification and at most one error per drop; an error exactly when the payload is malformed; a notification exactly when the payload parses and its `currentStatus` differs from the column's status; the notification copies product id and date and takes the column's status |
| `KanbanDragDrop.OwnColumnDropIsSilent` | assets/js/hooks/kanban_drag_drop.js:21-32 | dropping a card's own payload onto a column with the card's status sends nothing and logs nothing |
| `KanbanDragDrop.OtherColumnDropRequestsMove` | assets/js/hooks/kanban_drag_drop.js:69-79 | dropping a card's own payload onto a column with another status sends exactly `update_kanban_status` for that card with the column's status |
| `KanbanDragDrop.Board.constructor` | assets/js/hooks/kanban_drag_drop.js:10-12 | a freshly set-up board has no marks, an empty outbox and no logged errors |
| `KanbanDragDrop.Board.DragStart` | assets/js/hooks/kanban_drag_drop.js:16-35 | returns the card's payload and marks the card `dragging`; nothing else changes |
| `KanbanDragDrop.Board.DragEnd` | assets/js/hooks/kanban_drag_drop.js:37-39 | clears the card's `dragging` mark unconditionally; nothing else changes |
| `KanbanDragDrop.Board.Click` | assets/js/hooks/kanban_drag_drop.js:42-47 | a click is suppressed exactly when the card is marked `dragging` |
| `KanbanDragDrop.Board.DragOver` | assets/js/hooks/kanban_drag_drop.js:52-56 | always prevents the default and marks the column `drag-over`; nothing else changes |
| `KanbanDragDrop.Board.DragLeave` | assets/js/hooks/kanban_drag_drop.js:58-62 | clears the column's mark only when the target is the column itself; a leave from a descendant keeps it |
| `KanbanDragDrop.Board.Drop` | assets/js/hooks/kanban_drag_drop.js:64-83 | always prevents the default and clears the column's `drag-over` mark; appends what `DecideDrop` sends to the outbox and adds what it logs to the error count; card marks unchanged; the board stays valid for later gestures |
| `KanbanDragDrop.DragCardToColumn` | assets/js/hooks/kanban_drag_drop.js:16-83 | a full gesture leaves neither element marked and adds the move request exactly when the column's status differs from the card's; no error is logged |
| `KanbanDragDrop.CancelledDrag` | assets/js/hooks/kanban_drag_drop.js:34-39 | dragstart followed by dragend with no drop clears the card's mark and sends nothing |
| `CommandPalette.HandleKeyDown` | assets/js/hooks/command_palette.js:16-49 | `preventDefault` exactly when an event is pushed; modifier+`k` pushes `open` whatever the palette's state, and `open` only comes from it; a closed palette ignores every other key; an open one maps ArrowDown, ArrowUp, Enter, Escape to navigate down, navigate up, select, close and every other key to nothing |
| `CommandPalette.OtherModifierIgnored` | assets/js/hooks/command_palette.js:17-18 | on a Mac the Ctrl flag, elsewhere the Cmd flag, never changes the response |
| `CommandPalette.ShortcutOnOpenPaletteReopens` | assets/js/hooks/command_palette.js:21-29 | the shortcut is handled before the open gate: the same `open` with `preventDefault` on an open and on a closed palette |

## Left out

- `StatusFormat.ToUpper`: `toUpperCase` is modelled on ASCII `a`-`z` only. For a non-ASCII first letter the browser may change the length (`ß` becomes `SS`), so the length, position and idempotence facts are stated for this ASCII case mapping only.
- `formatStatus` on `null` or `undefined` throws in the source; the model takes a string.
- `CalendarEvents.BorderColor`: a status naming an inherited object property (`toString`, `constructor`, `__proto__`) reads a non-colour value from the table in the source; the model's table is a plain map.
- An event without `extendedProps`, or without `extendedProps.order`, throws in the source; the model takes every event to carry both. A missing or `null` `status` does not throw: it is looked up under its string form (`"undefined"`, `"null"`), which is outside the table, so the `unconfirmed` colour is used; the model covers this as an `orderStatus` outside the table.
- DOM construction in the `render` methods of the calendar components, the calendar widget's lifecycle (`new Calendar`, `$set`, `$destroy`), `eventClick` and `datesSet` (dates through `toISOString`).
- `JSON.parse` / `JSON.stringify` and the drag data channel: the drop receives the parse outcome (`Parsed` or `Malformed`) as an input; the `text/html` copy of the card and the `effectAllowed` / `dropEffect` settings carry no logic.
- Listener registration in `setupDragAndDrop`: the model has one set of handlers per element. The source registers handlers again on every `updated()` without removing the old ones, so a card or column element that survives a re-render has several handlers; with k handlers on a column, one drop would push k events. This accumulation is not modelled.
- The transport of `pushEvent` / `pushEventTo` and `console.error`: they are an append to `Board.outbox` and an increment of `Board.errorLog`, or the `pushed` field of a palette response.
- `navigator.platform` detection is the `isMac` parameter; adding and removing the document-level keydown listener is not modelled.
- `assets/js/hooks/index.js` (a hook registry and a time-zone input that calls `Intl`) and `docs/astro.config.mjs` (build configuration) are not part of this model.
