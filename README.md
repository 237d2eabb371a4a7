# Note board: a verified model

The application is a three-column note board built from three Vue components:

- **note-card** holds a checklist. Items can be added to it, up to five.
- **note-column** caps the first column at three cards and the second at five.
- **note-app** keeps the columns and the card-id counter.

On every update, note-app moves a card forward by the share of ticked items:

- from the first column to the second when more than half are ticked;
- from the second to the third when all are ticked, stamping a completion date.

The model has three Dafny modules, one per component:

- `NoteCard` (`note_card.dfy`): checklist items, the `trim` test of addItem, the completed count and the completion rate. It also has the `Card` class, whose `items` and `completedDate` are updated in place.
- `NoteColumn` (`note_column.dfy`): the column value, the capacity of each title and `canAddCard`.
- `NoteApp` (`note_app.dfy`): specification functions for removing and moving cards and for the auto-move rule, the lemmas about them, and the `Board` class. Board's methods run the source's loops and are proved equal to those functions.

The rest of the model depends on one invariant, `WellFormed`, which `Board.Valid` keeps. It says:

- there are three columns titled "Столбец 1", "Столбец 2" and "Столбец 3", in that order;
- every card id occurs once on the board;
- every id is below `nextCardId`, and `nextCardId` is at least 1.

How the model reads the source:

- **`js/main.js`:90-101 does not parse as written.** The object literal in `addCard` is cut off. The loop in `removeCard` finds an index and does nothing with it.
  - `Board.AddCard` reconstructs addCard as described around the method: a card with the counter's id, no items and no date, appended only when `canAddCard` allows it. The source defines `canAddCard` but never calls it.
  - `Board.RemoveCard` reconstructs removeCard with the same shape as `moveCard`: splice out the first match and stop, or do nothing.
- **Braces at 116-117.** The unbalanced braces put `this.saveCards()` outside `updateCard`. Persistence is left out either way.
- **Four behaviours follow the code as written:**
  - No column is locked while the second column is full.
  - `moveCard` does not check the target column's capacity (`AutoMoveIgnoresCapacity`).
  - The card literal shows no title, colour or default items.
  - `completedDate` is overwritten each time a card moves to the third column.
- **Comparisons.** `completedItems / totalItems` is a float. `Rate` keeps the two counts: `> 0.5` becomes `2 * completed > total`, `=== 1` becomes `completed == total`, and `0 / 0` is `NaN`, for which both comparisons are false.

## Model

| member | source | states |
|---|---|---|
| NoteCard.Card.constructor | js/main.js:91-92 | A new card has the given id, no items and no completion date, and satisfies the five-item bound |
| NoteCard.Card.ItemCount | js/main.js:21-23 | On a valid card, itemCount is at most five, the bound the add-item button's `itemCount >= 5` test relies on |
| NoteCard.Card.AddItem | js/main.js:33-39 | An item is added exactly when the trimmed text is non-empty and the card has fewer than five items. The new item is the untrimmed text, unticked, at the end; otherwise the items are unchanged. The five-item bound, the completed count and the completion date are kept |
| NoteCard.TrimStart | js/main.js:34 | The result is a suffix of the text that does not start with JavaScript whitespace, and every dropped character is whitespace |
| NoteCard.TrimEnd | js/main.js:34 | The result is a prefix of the text that does not end with JavaScript whitespace, and every dropped character is whitespace |
| NoteCard.Trim | js/main.js:34 | `text.trim()` is no longer than the text, and its first and last characters (if any) are not whitespace |
| NoteCard.TrimEmptyIffBlank | js/main.js:34 | `text.trim()` is empty if and only if every character of the text is whitespace |
| NoteCard.TrimKeepsVisibleText | js/main.js:34 | A text with any non-whitespace character passes addItem's trim test |
| NoteCard.CompletedCount | js/main.js:105 | The filtered count is at most the number of items. It equals that number iff every item is ticked, and is zero iff none is |
| NoteCard.CompletedCountAppendUnchecked | js/main.js:35 | Appending an unticked item leaves the completed count unchanged |
| NoteCard.CompletionRate | js/main.js:105-107 | The rate is NaN exactly for an empty checklist; otherwise it is the ticked count over the item count |
| NoteCard.RateComparisons | js/main.js:109-111 | `rate > 0.5` holds iff more than half the items are ticked. `rate === 1` holds iff the checklist is non-empty and fully ticked |
| NoteColumn.CanAddCard | js/main.js:53-57 | A card may be added iff the column's title has no capacity or the column holds fewer cards than it |
| NoteColumn.CanAddCardRefusals | js/main.js:53-57 | The only refusals are "Столбец 1" with three or more cards and "Столбец 2" with five or more |
| NoteColumn.CanAddCardKeepsCapacity | js/main.js:53-57 | A column that passes canAddCard stays within its capacity after one more card is pushed |
| NoteApp.InitialColumns | js/main.js:65-69 | The initial board has three columns, all empty |
| NoteApp.InitialWellFormed | js/main.js:65-70 | The initial board with counter 1 satisfies the board invariant |
| NoteApp.IndexOfId | js/main.js:99 | findIndex gives -1 or an index whose card has the id, and no earlier card has it |
| NoteApp.FirstColumnWith | js/main.js:98-99 | The first column whose findIndex succeeds, or -1; every earlier column's findIndex fails |
| NoteApp.IncludesAgreesWithFind | js/main.js:109-111 | On a well-formed board, `column.cards.includes(card)` means the id search finds that column first and finds that object |
| NoteApp.MemberOfOneColumn | js/main.js:109-111 | On a well-formed board a card object is in at most one column |
| NoteApp.Removed | js/main.js:97-101 | Removing by id keeps the number and titles of the columns. The first column holding the id loses one card and every other column keeps its size (effect on ids in RemovedEffect) |
| NoteApp.RemovedEffect | js/main.js:97-101 | Removal keeps the number and titles of the columns. It takes out one occurrence of the id when a column holds it, is the identity otherwise, and changes no other column |
| NoteApp.RemovedCount | js/main.js:97-101 | Removal lowers the number of cards by exactly one when the id is present, and by none otherwise |
| NoteApp.RemovedKeepsWellFormed | js/main.js:97-101 | Removal keeps the board invariant |
| NoteApp.Moved | js/main.js:119-128 | Moving keeps the number and titles of the columns. When some column holds the card's id, the card ends up last in the target column (the rest in MovedEffect) |
| NoteApp.MovedEffect | js/main.js:119-128 | Moving keeps the number and titles of the columns and the multiset of card ids. It is the identity when no column holds the id; otherwise the card is last in the target column and only the source and target columns change |
| NoteApp.MovedCount | js/main.js:119-128 | Moving keeps the number of cards on the board |
| NoteApp.MovedKeepsWellFormed | js/main.js:119-128 | Moving keeps the board invariant |
| NoteApp.MovedCardPlacement | js/main.js:119-128 | A card on the board is, after moving, in the target column and in no other |
| NoteApp.PushNewKeepsWellFormed | js/main.js:90-93 | Pushing a card whose id is the counter and then advancing the counter keeps the board invariant |
| NoteApp.AfterUpdate | js/main.js:104-115 | The columns after updateCard keep their titles, and a card in neither of the first two columns does not move. The branches of the rule are stated in IntakeAdvancesOneStep, IntakeAtMostHalfStays, InProgressCompletes, InProgressIncompleteStays, DoneIsTerminal and NoItemsNeverMoves |
| NoteApp.IntakeAdvancesOneStep | js/main.js:109-110 | A first-column card with more than half its items ticked ends up in the second column only, never the third, even when fully ticked |
| NoteApp.IntakeAtMostHalfStays | js/main.js:109 | A first-column card with at most half its items ticked does not move, so exactly one half does not move |
| NoteApp.InProgressCompletes | js/main.js:111-112 | A second-column card with a non-empty, fully ticked checklist goes to the third column and leaves the second |
| NoteApp.InProgressIncompleteStays | js/main.js:111 | A second-column card with an unticked item does not move |
| NoteApp.DoneIsTerminal | js/main.js:109-114 | A third-column card never moves, whatever its items |
| NoteApp.NoItemsNeverMoves | js/main.js:107-111 | A card with no items never moves, since NaN fails both comparisons |
| NoteApp.AutoMoveIgnoresCapacity | js/main.js:109-110 | Advancing a card into a second column of five cards makes it six, which breaks its capacity |
| NoteApp.AutoMoveForwardOnly | js/main.js:109-114 | After an update a card is in the column it was in or the next one |
| NoteApp.AfterUpdateKeepsWellFormed | js/main.js:104-115 | The auto-move rule keeps the board invariant |
| NoteApp.Board.constructor | js/main.js:65-70 | The board starts with three empty titled columns and counter 1, and satisfies the invariant |
| NoteApp.Board.AddCard | js/main.js:90-95 | A card is added iff canAddCard allows the column. It is then new, carries the old counter as id, has no items and no date, and is the last card of that column only; the counter goes up by one. Otherwise nothing changes. The invariant is kept |
| NoteApp.Board.RemoveCard | js/main.js:97-101 | The loop leaves the columns equal to removing the first match of the id (see RemovedEffect), leaves the counter alone and keeps the invariant |
| NoteApp.Board.MoveCard | js/main.js:119-128 | The loop leaves the columns equal to moving the card (see MovedEffect), leaves the counter alone and keeps the invariant |
| NoteApp.Board.UpdateCard | js/main.js:104-115 | The columns become the result of the auto-move rule on the card's items, and the items are unchanged. The completion date becomes `now` exactly when the card moves to the third column; otherwise it is kept. The counter is unchanged and the invariant is kept |

## Left out

- Vue plumbing: templates, props and `$emit`. The card's `removeCard` and `updateCard` only forward events to note-app, so the model calls the board's operations directly.
- `loadCards` and `saveCards`, which read and write localStorage. The model has no persistence; a board loaded from storage is not known to satisfy the invariant.
- `new Date().toLocaleString()`: the clock and locale are outside the model, so `Board.UpdateCard` takes the formatted date as the `now` parameter.
- Floating point: the rate is modelled as exact counts. This agrees with the float comparisons for any item count below 2^53, far above the five-item cap.
- Card title, colour and item text edited through `v-model`, and the item checkbox. These are plain field writes from the templates, which the model does not cover. The ticking that the update rule reads is whatever `items` holds when `UpdateCard` is called.
- addItem clearing `newItemText` and calling `updateCard`: the text field is UI state. The update is a separate call to `Board.UpdateCard`.
- NoteApp.Board.AddCard: `nextCardId` is an unbounded natural. In JavaScript it is a float number, and from 2^53 on `nextCardId++` no longer changes it, so ids would repeat. The counter is exact, and card ids unique, only below 2^53.
- NoteCard.Card.Valid: the five-item bound is a fact about each card alone. The constructor sets it up and AddItem keeps it, but Board.Valid does not mention the items of the cards it holds, because the board's invariant reads no card state.
- NoteApp.Board.AddCard: returns the new card so that its contract can name it; the source's addCard returns nothing.
- NoteApp.Board.AddCard: takes the column as an index into the board; the source passes the column object, which is one of the board's columns.
- NoteApp.Board.AddCard, NoteApp.Board.RemoveCard, NoteApp.Board.MoveCard, NoteApp.Board.UpdateCard: each requires the board invariant. The source does not check it, and a board loaded from storage could break it.
