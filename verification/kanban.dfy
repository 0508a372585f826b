/**
 * The kanban board's drag-and-drop hook. Cards carry their product id, date
 * and status as data attributes; columns carry a status. Dragging marks the
 * card `dragging`, hovering marks a column `drag-over`, and dropping a card on
 * a column whose status differs from the card's asks the server, through one
 * `update_kanban_status` event, to move it. The board never moves cards itself.
 */
module KanbanDragDrop {
  import opened Wrappers

  /** A `data-*` attribute as read through `dataset`: `None` when the element does not carry it. */
  type Attr = Option<string>

  /** A `.kanban-card` element's data: `data-product-id`, `data-date`, `data-status`. */
  datatype Card = Card(productId: Attr, date: Attr, status: Attr)

  /** A `.kanban-column` element's data: `data-status`. */
  datatype Column = Column(status: Attr)

  /**
   * The object serialised into the drag data channel under "application/json"
   * at dragstart. An absent attribute is left out of the JSON text and reads
   * back as `undefined`, so it stays `None` both ways.
   */
  datatype DragPayload = DragPayload(productId: Attr, date: Attr, currentStatus: Attr)

  /**
   * What the drop handler gets from `JSON.parse` of the channel's text: an
   * object (whose missing properties read as `None`), or a thrown error, which
   * also covers text that is empty, not JSON, or parses to `null`.
   */
  datatype ParseResult = Parsed(payload: DragPayload) | Malformed

  /** `pushEvent("update_kanban_status", {product_id, date, status})`. */
  datatype Notification = UpdateKanbanStatus(productId: Attr, date: Attr, status: Attr)

  /** What one drop sends to the server and how many errors it logs. */
  datatype DropEffect = DropEffect(sent: seq<Notification>, errorsLogged: nat)

  /** The payload built from a card's data at dragstart. */
  function PayloadOf(card: Card): DragPayload
  {
    DragPayload(card.productId, card.date, card.status)
  }

  /**
   * The drop decision. A malformed payload logs exactly one error and sends
   * nothing. A parsed payload logs nothing and sends one notification exactly
   * when its `currentStatus` differs from the column's status (`!==`, under
   * which two absent values are equal); the notification copies the product id
   * and date from the payload and takes the column's status.
   */
  function DecideDrop(parsed: ParseResult, column: Column): (e: DropEffect)
    ensures |e.sent| <= 1 && e.errorsLogged <= 1
    ensures e.errorsLogged == 1 <==> parsed.Malformed?
    ensures |e.sent| == 1 <==> parsed.Parsed? && parsed.payload.currentStatus != column.status
    ensures |e.sent| == 1 ==>
      parsed.Parsed? && e.sent[0] == UpdateKanbanStatus(parsed.payload.productId, parsed.payload.date, column.status)
  {
    match parsed
    case Malformed => DropEffect([], 1)
    case Parsed(p) =>
      if p.currentStatus != column.status
      then DropEffect([UpdateKanbanStatus(p.productId, p.date, column.status)], 0)
      else DropEffect([], 0)
  }

  /** Dropping a card's own payload onto a column with the card's status sends nothing and logs nothing. */
  lemma OwnColumnDropIsSilent(card: Card, column: Column)
    requires column.status == card.status
    ensures DecideDrop(Parsed(PayloadOf(card)), column) == DropEffect([], 0)
  {
  }

  /**
   * Dropping a card's own payload onto a column with another status sends
   * exactly the move request for that card to that column.
   */
  lemma OtherColumnDropRequestsMove(card: Card, column: Column)
    requires column.status != card.status
    ensures DecideDrop(Parsed(PayloadOf(card)), column).sent ==
      [UpdateKanbanStatus(card.productId, card.date, column.status)]
  {
  }

  /**
   * The hook's state after `setupDragAndDrop`: the cards and columns it found,
   * which of them carry the `dragging` / `drag-over` class, the events pushed
   * to the server so far (oldest first) and the number of errors logged.
   */
  class Board {
    const cards: seq<Card>
    const columns: seq<Column>
    /** Indices of the cards whose class list holds `dragging`. */
    var dragging: set<nat>
    /** Indices of the columns whose class list holds `drag-over`. */
    var dragOver: set<nat>
    /** Every `update_kanban_status` event pushed so far. */
    var outbox: seq<Notification>
    /** Number of `console.error` calls so far. */
    var errorLog: nat

    /**
     * Marks sit only on elements the board knows. A bookkeeping invariant only:
     * every method keeps it, and no other promise depends on it.
     */
    ghost predicate Valid()
      reads this
    {
      (forall i :: i in dragging ==> i < |cards|) &&
      (forall j :: j in dragOver ==> j < |columns|)
    }

    /** A freshly set-up board: no marks, nothing sent, nothing logged. */
    constructor (cards: seq<Card>, columns: seq<Column>)
      ensures Valid()
      ensures this.cards == cards && this.columns == columns
      ensures dragging == {} && dragOver == {} && outbox == [] && errorLog == 0
    {
      this.cards := cards;
      this.columns := columns;
      dragging, dragOver := {}, {};
      outbox, errorLog := [], 0;
    }

    /** dragstart on card `i`: writes the card's payload to the drag data channel and marks it `dragging`. */
    method DragStart(i: nat) returns (payload: DragPayload)
      requires Valid() && i < |cards|
      modifies this
      ensures Valid()
      ensures payload == PayloadOf(cards[i])
      ensures dragging == old(dragging) + {i}
      ensures dragOver == old(dragOver) && outbox == old(outbox) && errorLog == old(errorLog)
    {
      payload := PayloadOf(cards[i]);
      dragging := dragging + {i};
    }

    /** dragend on card `i`: clears its `dragging` mark, whether or not a drop happened. */
    method DragEnd(i: nat)
      requires Valid() && i < |cards|
      modifies this
      ensures Valid()
      ensures dragging == old(dragging) - {i}
      ensures dragOver == old(dragOver) && outbox == old(outbox) && errorLog == old(errorLog)
    {
      dragging := dragging - {i};
    }

    /** click on card `i`: suppressed (stopPropagation and preventDefault) exactly while it is marked `dragging`. */
    method Click(i: nat) returns (suppressed: bool)
      requires Valid() && i < |cards|
      ensures suppressed <==> i in dragging
    {
      suppressed := i in dragging;
    }

    /** dragover on column `j`: always prevents the default (allowing the drop) and marks it `drag-over`. */
    method DragOver(j: nat) returns (preventDefault: bool)
      requires Valid() && j < |columns|
      modifies this
      ensures Valid()
      ensures preventDefault
      ensures dragOver == old(dragOver) + {j}
      ensures dragging == old(dragging) && outbox == old(outbox) && errorLog == old(errorLog)
    {
      preventDefault := true;
      dragOver := dragOver + {j};
    }

    /**
     * dragleave on column `j`: clears its `drag-over` mark only when the
     * event's target is the column itself; a leave from a descendant keeps it.
     */
    method DragLeave(j: nat, targetIsColumn: bool)
      requires Valid() && j < |columns|
      modifies this
      ensures Valid()
      ensures dragOver == if targetIsColumn then old(dragOver) - {j} else old(dragOver)
      ensures dragging == old(dragging) && outbox == old(outbox) && errorLog == old(errorLog)
    {
      if targetIsColumn {
        dragOver := dragOver - {j};
      }
    }

    /**
     * drop on column `j`: always prevents the default and clears the column's
     * `drag-over` mark, then appends what `DecideDrop` sends to the outbox and
     * adds what it logs to the error count. The board stays valid, so later
     * gestures work after a malformed payload too.
     */
    method Drop(j: nat, parsed: ParseResult) returns (preventDefault: bool)
      requires Valid() && j < |columns|
      modifies this
      ensures Valid()
      ensures preventDefault
      ensures dragOver == old(dragOver) - {j}
      ensures outbox == old(outbox) + DecideDrop(parsed, columns[j]).sent
      ensures errorLog == old(errorLog) + DecideDrop(parsed, columns[j]).errorsLogged
      ensures dragging == old(dragging)
    {
      preventDefault := true;
      dragOver := dragOver - {j};
      match parsed {
        case Malformed =>
          errorLog := errorLog + 1;
        case Parsed(p) =>
          if p.currentStatus != columns[j].status {
            outbox := outbox + [UpdateKanbanStatus(p.productId, p.date, columns[j].status)];
          }
      }
    }
  }

  /**
   * One whole gesture: card `i` is dragged over column `j` and dropped there,
   * then the drag ends. Afterwards neither element is marked, and the outbox
   * grew by the move request exactly when the column's status differs from
   * the card's.
   */
  method DragCardToColumn(b: Board, i: nat, j: nat)
    requires b.Valid() && i < |b.cards| && j < |b.columns|
    modifies b
    ensures b.Valid()
    ensures i !in b.dragging && j !in b.dragOver
    ensures b.dragging == old(b.dragging) - {i} && b.dragOver == old(b.dragOver) - {j}
    ensures b.outbox == old(b.outbox) +
      (if b.cards[i].status != b.columns[j].status
       then [UpdateKanbanStatus(b.cards[i].productId, b.cards[i].date, b.columns[j].status)]
       else [])
    ensures b.errorLog == old(b.errorLog)
  {
    var payload := b.DragStart(i);
    var _ := b.DragOver(j);
    var _ := b.Drop(j, Parsed(payload));
    b.DragEnd(i);
  }

  /**
   * A gesture the browser cancels (released outside every column): only
   * dragstart and dragend fire; the card's mark is cleared and nothing is sent.
   */
  method CancelledDrag(b: Board, i: nat)
    requires b.Valid() && i < |b.cards|
    modifies b
    ensures b.Valid()
    ensures i !in b.dragging
    ensures b.dragging == old(b.dragging) - {i}
    ensures b.dragOver == old(b.dragOver) && b.outbox == old(b.outbox) && b.errorLog == old(b.errorLog)
  {
    var _ := b.DragStart(i);
    b.DragEnd(i);
  }
}
