/**
 The note-column component: a column is a title and an ordered sequence of cards, and the title
 decides how many cards the column may hold.
 */
module NoteColumn {
  import opened NoteCard

  const IntakeTitle: string := "Столбец 1"
  const InProgressTitle: string := "Столбец 2"
  const DoneTitle: string := "Столбец 3"

  /** A column; its `cards` sequence is what the board replaces on every push and splice. */
  datatype Column = Column(title: string, cards: seq<Card>)

  /** The most cards a column with this title may hold, or None when it is unbounded. */
  function Capacity(title: string): Option<nat>
  {
    if title == IntakeTitle then Some(3)
    else if title == InProgressTitle then Some(5)
    else None
  }

  ghost predicate WithinCapacity(column: Column)
  {
    Capacity(column.title).Some? ==> |column.cards| <= Capacity(column.title).value
  }

  /** canAddCard: a card may be added exactly when the column has room for one more. */
  function CanAddCard(column: Column): (r: bool)
    ensures r <==> Capacity(column.title) == None || |column.cards| < Capacity(column.title).value
  {
    if column.title == IntakeTitle && |column.cards| >= 3 then false
    else if column.title == InProgressTitle && |column.cards| >= 5 then false
    else true
  }

  /** Refusals happen only for the first column with three or more cards and the second with
      five or more; every other column, the third at any size included, accepts. */
  lemma {:induction false} CanAddCardRefusals(column: Column)
    ensures !CanAddCard(column) <==>
      || (column.title == IntakeTitle && |column.cards| >= 3)
      || (column.title == InProgressTitle && |column.cards| >= 5)
  {
  }

  /** Appending one card to a column that passed CanAddCard keeps it within its capacity. */
  lemma {:induction false} CanAddCardKeepsCapacity(column: Column, card: Card)
    requires CanAddCard(column)
    ensures WithinCapacity(column.(cards := column.cards + [card]))
  {
  }
}
