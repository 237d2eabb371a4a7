/**
 The note-app component: the board of three ordered columns and the id counter, with card
 creation, removal, the move between columns and the auto-move rule that follows item updates.

 Cards are identified by id. The functions of this module describe the columns after each
 operation; the Board class performs the operations in place and is proved to produce exactly
 those columns. The board invariant is that every card id on the board occurs once and lies
 below the counter, which also makes reference membership (`includes`) agree with lookup by id.
 */
module NoteApp {
  import opened NoteCard
  import opened NoteColumn

  /** The columns of a fresh board (the component's `data()`). */
  function InitialColumns(): (cols: seq<Column>)
    ensures |cols| == 3 && forall k :: 0 <= k < 3 ==> cols[k].cards == []
  {
    [Column(IntakeTitle, []), Column(InProgressTitle, []), Column(DoneTitle, [])]
  }

  // ---------------------------------------------------------------------------------------
  // Card ids on the board

  function IdsOf(cards: seq<Card>): (ids: seq<nat>)
    ensures |ids| == |cards| && forall i :: 0 <= i < |cards| ==> ids[i] == cards[i].id
  {
    seq(|cards|, i requires 0 <= i < |cards| => cards[i].id)
  }

  function ColumnIds(column: Column): multiset<nat>
  {
    multiset(IdsOf(column.cards))
  }

  /** Every id on the board, with its number of occurrences. */
  function BoardIds(cols: seq<Column>): multiset<nat>
  {
    if cols == [] then multiset{} else ColumnIds(cols[0]) + BoardIds(cols[1..])
  }

  /** Number of cards on the board. */
  function TotalCards(cols: seq<Column>): nat
  {
    if cols == [] then 0 else |cols[0].cards| + TotalCards(cols[1..])
  }

  ghost predicate DistinctIds(cols: seq<Column>)
  {
    forall id :: id in BoardIds(cols) ==> BoardIds(cols)[id] == 1
  }

  ghost predicate IdsBelow(cols: seq<Column>, nextCardId: nat)
  {
    forall id :: id in BoardIds(cols) ==> id < nextCardId
  }

  /** The board invariant: the three titled columns in order, distinct ids, all below the counter. */
  ghost predicate WellFormed(cols: seq<Column>, nextCardId: nat)
  {
    && |cols| == 3
    && cols[0].title == IntakeTitle
    && cols[1].title == InProgressTitle
    && cols[2].title == DoneTitle
    && 1 <= nextCardId
    && DistinctIds(cols)
    && IdsBelow(cols, nextCardId)
  }

  lemma {:induction false} InitialWellFormed()
    ensures WellFormed(InitialColumns(), 1)
  {
    var cols := InitialColumns();
    assert cols[1..][1..][1..] == [];
    assert BoardIds(cols) == multiset{};
  }

  // ---------------------------------------------------------------------------------------
  // Lookup by id

  /** `cards.findIndex(c => c.id === id)`: the first position holding the id, or -1. */
  function IndexOfId(cards: seq<Card>, id: int): (k: int)
    ensures -1 <= k < |cards|
    ensures k >= 0 ==> cards[k].id == id
    ensures forall j :: 0 <= j < |cards| && (k < 0 || j < k) ==> cards[j].id != id
  {
    if cards == [] then -1
    else if cards[0].id == id then 0
    else
      var k := IndexOfId(cards[1..], id);
      assert forall j :: 1 <= j < |cards| ==> cards[j] == cards[1..][j - 1];
      if k < 0 then -1 else k + 1
  }

  /** The first column, in board order, whose findIndex succeeds for the id, or -1. */
  function FirstColumnWith(cols: seq<Column>, id: int): (k: int)
    ensures -1 <= k < |cols|
    ensures k >= 0 ==> IndexOfId(cols[k].cards, id) >= 0
    ensures forall j :: 0 <= j < |cols| && (k < 0 || j < k) ==> IndexOfId(cols[j].cards, id) < 0
  {
    if cols == [] then -1
    else if IndexOfId(cols[0].cards, id) >= 0 then 0
    else
      var k := FirstColumnWith(cols[1..], id);
      assert forall j :: 1 <= j < |cols| ==> cols[j] == cols[1..][j - 1];
      if k < 0 then -1 else k + 1
  }

  // ---------------------------------------------------------------------------------------
  // The columns after removing and after moving a card

  /** `column.cards.splice(i, 1)` */
  function RemoveAt(column: Column, i: nat): Column
    requires i < |column.cards|
  {
    column.(cards := column.cards[..i] + column.cards[i + 1..])
  }

  /** `column.cards.push(card)` */
  function Push(column: Column, card: Card): Column
  {
    column.(cards := column.cards + [card])
  }

  /** removeCard: drop the first card, scanning the columns in order, whose id matches. The
      column found loses one card; every column keeps its title and every other its size. */
  function Removed(cols: seq<Column>, id: int): (r: seq<Column>)
    ensures |r| == |cols|
    ensures forall j :: 0 <= j < |cols| ==>
      && r[j].title == cols[j].title
      && |r[j].cards| + (if j == FirstColumnWith(cols, id) then 1 else 0) == |cols[j].cards|
  {
    var k := FirstColumnWith(cols, id);
    if k < 0 then cols else cols[k := RemoveAt(cols[k], IndexOfId(cols[k].cards, id))]
  }

  /** moveCard: take the first card with the card's id out of its column and append the card
      to the target column; nothing happens when no column holds the id. */
  function Moved(cols: seq<Column>, card: Card, target: nat): (r: seq<Column>)
    requires target < |cols|
    ensures |r| == |cols|
    ensures forall j :: 0 <= j < |cols| ==> r[j].title == cols[j].title
    ensures FirstColumnWith(cols, card.id) >= 0 ==>
      r[target].cards != [] && r[target].cards[|r[target].cards| - 1] == card
  {
    if FirstColumnWith(cols, card.id) < 0 then cols
    else
      var r := Removed(cols, card.id);
      r[target := Push(r[target], card)]
  }

  // ---------------------------------------------------------------------------------------
  // Facts about ids

  lemma {:induction false} BoardIdsUpdate(cols: seq<Column>, k: nat, c: Column)
    requires k < |cols|
    ensures BoardIds(cols[k := c]) + ColumnIds(cols[k]) == BoardIds(cols) + ColumnIds(c)
  {
    var u := cols[k := c];
    if k > 0 {
      assert u[0] == cols[0];
      assert u[1..] == cols[1..][k - 1 := c];
      assert cols[1..][k - 1] == cols[k];
      BoardIdsUpdate(cols[1..], k - 1, c);
      assert BoardIds(u) == ColumnIds(cols[0]) + BoardIds(u[1..]);
      assert BoardIds(cols) == ColumnIds(cols[0]) + BoardIds(cols[1..]);
      var lhs, rhs := BoardIds(u) + ColumnIds(cols[k]), BoardIds(cols) + ColumnIds(c);
      forall x ensures lhs[x] == rhs[x] {
        assert (BoardIds(u[1..]) + ColumnIds(cols[k]))[x] == (BoardIds(cols[1..]) + ColumnIds(c))[x];
      }
    } else {
      assert u[1..] == cols[1..];
      assert BoardIds(u) == ColumnIds(c) + BoardIds(cols[1..]);
    }
  }

  lemma {:induction false} TotalCardsCountsIds(cols: seq<Column>)
    ensures TotalCards(cols) == |BoardIds(cols)|
  {
    if cols != [] {
      TotalCardsCountsIds(cols[1..]);
    }
  }

  lemma {:induction false} BoardIdsOfThree(cols: seq<Column>)
    requires |cols| == 3
    ensures BoardIds(cols) == ColumnIds(cols[0]) + ColumnIds(cols[1]) + ColumnIds(cols[2])
  {
    var tail := cols[1..];
    assert tail[0] == cols[1] && tail[1..][0] == cols[2] && tail[1..][1..] == [];
    assert BoardIds(tail[1..]) == ColumnIds(cols[2]) + BoardIds([]);
    assert BoardIds(tail) == ColumnIds(cols[1]) + BoardIds(tail[1..]);
  }

  lemma {:induction false} RemoveAtIds(column: Column, i: nat)
    requires i < |column.cards|
    ensures ColumnIds(RemoveAt(column, i)) + multiset{column.cards[i].id} == ColumnIds(column)
  {
    var s := IdsOf(column.cards);
    assert IdsOf(RemoveAt(column, i).cards) == s[..i] + s[i + 1..];
    assert s == s[..i] + [s[i]] + s[i + 1..];
  }

  lemma {:induction false} PushIds(column: Column, card: Card)
    ensures ColumnIds(Push(column, card)) == ColumnIds(column) + multiset{card.id}
  {
    assert IdsOf(Push(column, card).cards) == IdsOf(column.cards) + [card.id];
  }

  lemma {:induction false} MemberIdIn(column: Column, card: Card)
    ensures card in column.cards ==> card.id in ColumnIds(column)
  {
    if card in column.cards {
      var j :| 0 <= j < |column.cards| && column.cards[j] == card;
      assert IdsOf(column.cards)[j] == card.id;
    }
  }

  lemma {:induction false} FoundIdIn(column: Column, id: int)
    requires IndexOfId(column.cards, id) >= 0
    ensures id >= 0 && id as nat in ColumnIds(column)
  {
    var j := IndexOfId(column.cards, id);
    assert IdsOf(column.cards)[j] == id;
  }

  /** Pointwise cancellation for the two shapes of multiset bookkeeping used below. */
  lemma {:induction false} CancelRemoved(a: multiset<nat>, b: multiset<nat>, c: multiset<nat>, d: multiset<nat>, e: multiset<nat>)
    requires a + b == c + d && b == d + e
    ensures a + e == c
  {
    forall x ensures (a + e)[x] == c[x] {
      assert (a + b)[x] == (c + d)[x];
    }
  }

  lemma {:induction false} CancelAdded(a: multiset<nat>, b: multiset<nat>, c: multiset<nat>, d: multiset<nat>, e: multiset<nat>)
    requires a + b == c + d && d == b + e
    ensures a == c + e
  {
    forall x ensures a[x] == (c + e)[x] {
      assert (a + b)[x] == (c + d)[x];
    }
  }

  lemma {:induction false} TwoPositionsCountTwice(s: seq<nat>, i: nat, j: nat)
    requires i < j < |s| && s[i] == s[j]
    ensures multiset(s)[s[i]] >= 2
  {
    assert s == s[..j] + s[j..];
    assert s[i] == s[..j][i];
    assert s[j] == s[j..][0];
  }

  /** Under distinct ids, an id occurs at most once in the three columns together. */
  lemma {:induction false} IdOccursOnce(cols: seq<Column>, next: nat, id: nat)
    requires WellFormed(cols, next)
    ensures ColumnIds(cols[0])[id] + ColumnIds(cols[1])[id] + ColumnIds(cols[2])[id] <= 1
  {
    BoardIdsOfThree(cols);
    assert BoardIds(cols)[id] == ColumnIds(cols[0])[id] + ColumnIds(cols[1])[id] + ColumnIds(cols[2])[id];
  }

  /** So an id occurs in at most one column ... */
  lemma {:induction false} IdInOneColumn(cols: seq<Column>, next: nat, id: nat, i: nat, j: nat)
    requires WellFormed(cols, next) && i < 3 && j < 3
    requires id in ColumnIds(cols[i]) && id in ColumnIds(cols[j])
    ensures i == j
  {
    IdOccursOnce(cols, next, id);
  }

  /** ... and at most once in that column. */
  lemma {:induction false} IdOnceInColumn(cols: seq<Column>, next: nat, k: nat, a: nat, b: nat)
    requires WellFormed(cols, next) && k < 3
    requires a < |cols[k].cards| && b < |cols[k].cards|
    requires cols[k].cards[a].id == cols[k].cards[b].id
    ensures a == b
  {
    var s := IdsOf(cols[k].cards);
    IdOccursOnce(cols, next, s[a]);
    if a < b {
      TwoPositionsCountTwice(s, a, b);
    } else if b < a {
      TwoPositionsCountTwice(s, b, a);
    }
  }

  /** The id-uniqueness invariant makes the reference test `cols[k].cards.includes(card)` of
      updateCard agree with the id lookup of moveCard: the lookup finds column k and, there,
      this very card. */
  lemma {:induction false} IncludesAgreesWithFind(cols: seq<Column>, next: nat, card: Card, k: nat)
    requires WellFormed(cols, next) && k < 3 && card in cols[k].cards
    ensures FirstColumnWith(cols, card.id) == k
    ensures cols[k].cards[IndexOfId(cols[k].cards, card.id)] == card
  {
    var j :| 0 <= j < |cols[k].cards| && cols[k].cards[j] == card;
    MemberIdIn(cols[k], card);
    var f := FirstColumnWith(cols, card.id);
    assert f >= 0 && f <= k;
    FoundIdIn(cols[f], card.id);
    IdInOneColumn(cols, next, card.id, f, k);
    var i := IndexOfId(cols[k].cards, card.id);
    IdOnceInColumn(cols, next, k, i, j);
  }

  /** A card on a well-formed board lies in exactly one column. */
  lemma {:induction false} MemberOfOneColumn(cols: seq<Column>, next: nat, card: Card, i: nat, j: nat)
    requires WellFormed(cols, next) && i < 3 && j < 3
    requires card in cols[i].cards && card in cols[j].cards
    ensures i == j
  {
    MemberIdIn(cols[i], card);
    MemberIdIn(cols[j], card);
    IdInOneColumn(cols, next, card.id, i, j);
  }

  // ---------------------------------------------------------------------------------------
  // What removal and moving do

  /** Removal takes out exactly one occurrence of the id when some column holds it, and is the
      identity otherwise; it changes no title and at most one column. */
  lemma {:induction false} RemovedEffect(cols: seq<Column>, id: int)
    ensures |Removed(cols, id)| == |cols|
    ensures forall j :: 0 <= j < |cols| ==> Removed(cols, id)[j].title == cols[j].title
    ensures FirstColumnWith(cols, id) < 0 ==> Removed(cols, id) == cols
    ensures FirstColumnWith(cols, id) >= 0 ==>
      id >= 0 && BoardIds(Removed(cols, id)) + multiset{id as nat} == BoardIds(cols)
    ensures forall j :: 0 <= j < |cols| && j != FirstColumnWith(cols, id) ==>
      Removed(cols, id)[j] == cols[j]
  {
    var k := FirstColumnWith(cols, id);
    if k >= 0 {
      var i := IndexOfId(cols[k].cards, id);
      var c := RemoveAt(cols[k], i);
      BoardIdsUpdate(cols, k, c);
      RemoveAtIds(cols[k], i);
      CancelRemoved(BoardIds(cols[k := c]), ColumnIds(cols[k]), BoardIds(cols), ColumnIds(c),
                    multiset{cols[k].cards[i].id});
    }
  }

  /** removeCard leaves the board with one card fewer when the id is present and with the same
      cards otherwise. */
  lemma {:induction false} RemovedCount(cols: seq<Column>, id: int)
    ensures TotalCards(Removed(cols, id)) ==
      TotalCards(cols) - (if FirstColumnWith(cols, id) >= 0 then 1 else 0)
  {
    RemovedEffect(cols, id);
    TotalCardsCountsIds(cols);
    TotalCardsCountsIds(Removed(cols, id));
  }

  /** Moving keeps the multiset of ids (so also the number of cards), changes no title, touches
      only the source and target columns, and puts the card last in the target column. */
  lemma {:induction false} MovedEffect(cols: seq<Column>, card: Card, target: nat)
    requires target < |cols|
    ensures |Moved(cols, card, target)| == |cols|
    ensures forall j :: 0 <= j < |cols| ==> Moved(cols, card, target)[j].title == cols[j].title
    ensures BoardIds(Moved(cols, card, target)) == BoardIds(cols)
    ensures FirstColumnWith(cols, card.id) < 0 ==> Moved(cols, card, target) == cols
    ensures FirstColumnWith(cols, card.id) >= 0 ==>
      var m := Moved(cols, card, target);
      && m[target].cards != []
      && m[target].cards[|m[target].cards| - 1] == card
      && forall j :: 0 <= j < |cols| && j != target && j != FirstColumnWith(cols, card.id) ==>
           m[j] == cols[j]
  {
    var k := FirstColumnWith(cols, card.id);
    if k >= 0 {
      RemovedEffect(cols, card.id);
      var r := Removed(cols, card.id);
      var p := Push(r[target], card);
      BoardIdsUpdate(r, target, p);
      PushIds(r[target], card);
      CancelAdded(BoardIds(r[target := p]), ColumnIds(r[target]), BoardIds(r), ColumnIds(p),
                  multiset{card.id});
    }
  }

  /** moveCard keeps the number of cards on the board. */
  lemma {:induction false} MovedCount(cols: seq<Column>, card: Card, target: nat)
    requires target < |cols|
    ensures TotalCards(Moved(cols, card, target)) == TotalCards(cols)
  {
    MovedEffect(cols, card, target);
    TotalCardsCountsIds(cols);
    TotalCardsCountsIds(Moved(cols, card, target));
  }

  lemma {:induction false} WellFormedByIds(cols: seq<Column>, cols': seq<Column>, next: nat)
    requires WellFormed(cols, next) && |cols'| == 3
    requires forall j :: 0 <= j < 3 ==> cols'[j].title == cols[j].title
    requires BoardIds(cols') <= BoardIds(cols)
    ensures WellFormed(cols', next)
  {
    forall id | id in BoardIds(cols') ensures BoardIds(cols')[id] == 1 {
      assert BoardIds(cols')[id] <= BoardIds(cols)[id];
    }
  }

  lemma {:induction false} RemovedKeepsWellFormed(cols: seq<Column>, next: nat, id: int)
    requires WellFormed(cols, next)
    ensures WellFormed(Removed(cols, id), next)
  {
    RemovedEffect(cols, id);
    WellFormedByIds(cols, Removed(cols, id), next);
  }

  lemma {:induction false} MovedKeepsWellFormed(cols: seq<Column>, next: nat, card: Card, target: nat)
    requires WellFormed(cols, next) && target < 3
    ensures WellFormed(Moved(cols, card, target), next)
  {
    MovedEffect(cols, card, target);
    WellFormedByIds(cols, Moved(cols, card, target), next);
  }

  /** Appending a card that carries the counter's value, and advancing the counter, keeps the
      board well formed. */
  lemma {:induction false} PushNewKeepsWellFormed(cols: seq<Column>, next: nat, k: nat, card: Card)
    requires WellFormed(cols, next) && k < 3 && card.id == next
    ensures WellFormed(cols[k := Push(cols[k], card)], next + 1)
  {
    var cols' := cols[k := Push(cols[k], card)];
    BoardIdsUpdate(cols, k, Push(cols[k], card));
    PushIds(cols[k], card);
    CancelAdded(BoardIds(cols'), ColumnIds(cols[k]), BoardIds(cols), ColumnIds(Push(cols[k], card)),
                multiset{card.id});
    assert BoardIds(cols') == BoardIds(cols) + multiset{next};
    assert next !in BoardIds(cols);
  }

  // ---------------------------------------------------------------------------------------
  // The auto-move rule

  datatype Step = Stay | ToInProgress | ToDone

  /** The decision of updateCard: the `if` on the first column is tried before the `else if` on
      the second. */
  function AutoMove(rate: Rate, inIntake: bool, inProgress: bool): Step
  {
    if AboveHalf(rate) && inIntake then ToInProgress
    else if IsOne(rate) && inProgress then ToDone
    else Stay
  }

  /** The columns after updateCard has looked at `card`, whose checklist is `items`. The titles
      stay, and a card that is in neither of the first two columns never moves. */
  function AfterUpdate(cols: seq<Column>, card: Card, items: seq<Item>): (r: seq<Column>)
    requires |cols| == 3
    ensures |r| == 3 && forall j :: 0 <= j < 3 ==> r[j].title == cols[j].title
    ensures card !in cols[0].cards && card !in cols[1].cards ==> r == cols
  {
    match AutoMove(CompletionRate(items), card in cols[0].cards, card in cols[1].cards)
    case Stay => cols
    case ToInProgress => Moved(cols, card, 1)
    case ToDone => Moved(cols, card, 2)
  }

  /** After the card's id is removed from its only column, the card is in no column. */
  lemma {:induction false} RemovedCardGone(cols: seq<Column>, card: Card, k: nat)
    requires |cols| == 3 && k < 3 && card in cols[k].cards
    requires ColumnIds(cols[0])[card.id] + ColumnIds(cols[1])[card.id] + ColumnIds(cols[2])[card.id] <= 1
    ensures forall j :: 0 <= j < 3 ==> card !in Removed(cols, card.id)[j].cards
  {
    var j :| 0 <= j < |cols[k].cards| && cols[k].cards[j] == card;
    var i := IndexOfId(cols[k].cards, card.id);
    assert i >= 0;
    var f := FirstColumnWith(cols, card.id);
    FoundIdIn(cols[f], card.id);
    MemberIdIn(cols[k], card);
    assert f == k;
    var r := Removed(cols, card.id);
    assert r == cols[k := RemoveAt(cols[k], i)];
    RemoveAtDropsId(cols[k], i);
    IdAbsentNotMember(r[0], card);
    IdAbsentNotMember(r[1], card);
    IdAbsentNotMember(r[2], card);
  }

  lemma {:induction false} RemoveAtDropsId(column: Column, i: nat)
    requires i < |column.cards| && ColumnIds(column)[column.cards[i].id] <= 1
    ensures ColumnIds(RemoveAt(column, i))[column.cards[i].id] == 0
  {
    RemoveAtIds(column, i);
  }

  lemma {:induction false} IdAbsentNotMember(column: Column, card: Card)
    ensures ColumnIds(column)[card.id] == 0 ==> card !in column.cards
  {
    MemberIdIn(column, card);
  }

  /** A moved card that was on the board ends up in the target column and in no other one. */
  lemma {:induction false} MovedCardPlacement(cols: seq<Column>, next: nat, card: Card, k: nat, target: nat)
    requires WellFormed(cols, next) && k < 3 && target < 3 && card in cols[k].cards
    ensures card in Moved(cols, card, target)[target].cards
    ensures forall j :: 0 <= j < 3 && j != target ==> card !in Moved(cols, card, target)[j].cards
  {
    IncludesAgreesWithFind(cols, next, card, k);
    IdOccursOnce(cols, next, card.id);
    RemovedCardGone(cols, card, k);
    MovedEffect(cols, card, target);
    var m := Moved(cols, card, target);
    assert m[target].cards[|m[target].cards| - 1] == card;
  }

  /** A card in the first column with more than half of its items ticked goes to the second
      column, and only there: never straight to the third, even when every item is ticked. */
  lemma {:induction false} IntakeAdvancesOneStep(cols: seq<Column>, next: nat, card: Card, items: seq<Item>)
    requires WellFormed(cols, next) && card in cols[0].cards
    requires 2 * CompletedCount(items) > |items|
    ensures card in AfterUpdate(cols, card, items)[1].cards
    ensures card !in AfterUpdate(cols, card, items)[0].cards
    ensures card !in AfterUpdate(cols, card, items)[2].cards
  {
    RateComparisons(items);
    assert AfterUpdate(cols, card, items) == Moved(cols, card, 1);
    MovedCardPlacement(cols, next, card, 0, 1);
  }

  /** A card in the first column with at most half of its items ticked stays where it is;
      exactly half (1 of 2, 2 of 4) does not move. */
  lemma {:induction false} IntakeAtMostHalfStays(cols: seq<Column>, next: nat, card: Card, items: seq<Item>)
    requires WellFormed(cols, next) && card in cols[0].cards
    requires 2 * CompletedCount(items) <= |items|
    ensures AfterUpdate(cols, card, items) == cols
  {
    RateComparisons(items);
    if items != [] {
      assert CompletedCount(items) < |items|;
    }
  }

  /** A card in the second column with every item of a non-empty checklist ticked goes to the
      third column and leaves the second. */
  lemma {:induction false} InProgressCompletes(cols: seq<Column>, next: nat, card: Card, items: seq<Item>)
    requires WellFormed(cols, next) && card in cols[1].cards
    requires items != [] && AllCompleted(items)
    ensures AutoMove(CompletionRate(items), card in cols[0].cards, card in cols[1].cards) == ToDone
    ensures card in AfterUpdate(cols, card, items)[2].cards
    ensures card !in AfterUpdate(cols, card, items)[0].cards
    ensures card !in AfterUpdate(cols, card, items)[1].cards
  {
    RateComparisons(items);
    if card in cols[0].cards {
      MemberOfOneColumn(cols, next, card, 0, 1);
    }
    MovedCardPlacement(cols, next, card, 1, 2);
  }

  /** A card in the second column with an unticked item stays. */
  lemma {:induction false} InProgressIncompleteStays(cols: seq<Column>, next: nat, card: Card, items: seq<Item>)
    requires WellFormed(cols, next) && card in cols[1].cards
    requires !AllCompleted(items)
    ensures AfterUpdate(cols, card, items) == cols
  {
    RateComparisons(items);
    if card in cols[0].cards {
      MemberOfOneColumn(cols, next, card, 0, 1);
    }
  }

  /** A card in the third column is never moved again, whatever its items. */
  lemma {:induction false} DoneIsTerminal(cols: seq<Column>, next: nat, card: Card, items: seq<Item>)
    requires WellFormed(cols, next) && card in cols[2].cards
    ensures AfterUpdate(cols, card, items) == cols
  {
    if card in cols[0].cards {
      MemberOfOneColumn(cols, next, card, 0, 2);
    }
    if card in cols[1].cards {
      MemberOfOneColumn(cols, next, card, 1, 2);
    }
  }

  /** A card without items is never moved: 0 / 0 is NaN and both comparisons fail. */
  lemma {:induction false} NoItemsNeverMoves(cols: seq<Column>, card: Card)
    requires |cols| == 3
    ensures AfterUpdate(cols, card, []) == cols
  {
  }

  /** The auto-move rule does not check the second column's capacity: a card that advances
      into a second column of five cards makes it six. */
  lemma {:induction false} AutoMoveIgnoresCapacity(cols: seq<Column>, next: nat, card: Card, items: seq<Item>)
    requires WellFormed(cols, next) && card in cols[0].cards && |cols[1].cards| == 5
    requires 2 * CompletedCount(items) > |items|
    ensures |AfterUpdate(cols, card, items)[1].cards| == 6
    ensures !WithinCapacity(AfterUpdate(cols, card, items)[1])
  {
    RateComparisons(items);
    assert AfterUpdate(cols, card, items) == Moved(cols, card, 1);
    IncludesAgreesWithFind(cols, next, card, 0);
    RemovedEffect(cols, card.id);
    assert Removed(cols, card.id)[1] == cols[1];
  }

  /** Auto-moves only go forward: a card is never found in an earlier column afterwards. */
  lemma {:induction false} AutoMoveForwardOnly(cols: seq<Column>, next: nat, card: Card, items: seq<Item>, k: nat, j: nat)
    requires WellFormed(cols, next) && k < 3 && card in cols[k].cards
    requires j < 3 && card in AfterUpdate(cols, card, items)[j].cards
    ensures j == k || j == k + 1
  {
    var a := AfterUpdate(cols, card, items);
    match AutoMove(CompletionRate(items), card in cols[0].cards, card in cols[1].cards)
    case Stay =>
      MemberOfOneColumn(cols, next, card, k, j);
    case ToInProgress =>
      MemberOfOneColumn(cols, next, card, k, 0);
      MovedCardPlacement(cols, next, card, k, 1);
    case ToDone =>
      MemberOfOneColumn(cols, next, card, k, 1);
      MovedCardPlacement(cols, next, card, k, 2);
  }

  lemma {:induction false} AfterUpdateKeepsWellFormed(cols: seq<Column>, next: nat, card: Card, items: seq<Item>)
    requires WellFormed(cols, next)
    ensures WellFormed(AfterUpdate(cols, card, items), next)
  {
    MovedKeepsWellFormed(cols, next, card, 1);
    MovedKeepsWellFormed(cols, next, card, 2);
  }

  // ---------------------------------------------------------------------------------------
  // The board

  class Board {
    var columns: seq<Column>
    var nextCardId: nat

    ghost predicate Valid()
      reads this
    {
      WellFormed(columns, nextCardId)
    }

    /** The board of `data()`: three empty columns and the counter at 1. */
    constructor ()
      ensures Valid()
      ensures columns == InitialColumns() && nextCardId == 1
    {
      columns := InitialColumns();
      nextCardId := 1;
      InitialWellFormed();
    }

    /** addCard, guarded by canAddCard: a card with the counter's value as id is appended to
        column k and the counter advances; a column without room is left as it is. The body is a
        reconstruction: the source's card literal is cut off and never calls canAddCard. */
    method AddCard(k: nat) returns (added: Option<Card>)
      requires Valid() && k < |columns|
      modifies this
      ensures Valid()
      ensures added.Some? <==> CanAddCard(old(columns[k]))
      ensures added.Some? ==>
        && fresh(added.value)
        && added.value.id == old(nextCardId)
        && added.value.items == [] && added.value.completedDate == None
        && nextCardId == old(nextCardId) + 1
        && columns == old(columns)[k := Push(old(columns[k]), added.value)]
      ensures added.None? ==> columns == old(columns) && nextCardId == old(nextCardId)
    {
      if !CanAddCard(columns[k]) {
        return None;
      }
      var card := new Card(nextCardId);
      PushNewKeepsWellFormed(columns, nextCardId, k, card);
      nextCardId := nextCardId + 1;
      columns := columns[k := Push(columns[k], card)];
      added := Some(card);
    }

    /** removeCard: scans the columns in order and splices out the first card with the id. The
        splice and the `break` are a reconstruction: the source's loop finds an index and never
        splices. */
    method RemoveCard(cardId: int)
      requires Valid()
      modifies this
      ensures Valid()
      ensures columns == Removed(old(columns), cardId)
      ensures nextCardId == old(nextCardId)
    {
      RemovedKeepsWellFormed(columns, nextCardId, cardId);
      var i := 0;
      while i < |columns|
        invariant 0 <= i <= |columns| && columns == old(columns)
        invariant forall j :: 0 <= j < i ==> IndexOfId(columns[j].cards, cardId) < 0
      {
        var index := IndexOfId(columns[i].cards, cardId);
        if index != -1 {
          assert FirstColumnWith(columns, cardId) == i;
          columns := columns[i := RemoveAt(columns[i], index)];
          break;
        }
        i := i + 1;
      }
    }

    /** moveCard: the first column holding the card's id loses that card and the target column
        gains `card` at its end; nothing happens when no column holds the id. */
    method MoveCard(card: Card, target: nat)
      requires Valid() && target < |columns|
      modifies this
      ensures Valid()
      ensures columns == Moved(old(columns), card, target)
      ensures nextCardId == old(nextCardId)
    {
      MovedKeepsWellFormed(columns, nextCardId, card, target);
      var i := 0;
      while i < |columns|
        invariant 0 <= i <= |columns| && columns == old(columns)
        invariant forall j :: 0 <= j < i ==> IndexOfId(columns[j].cards, card.id) < 0
      {
        var index := IndexOfId(columns[i].cards, card.id);
        if index != -1 {
          assert FirstColumnWith(columns, card.id) == i;
          columns := columns[i := RemoveAt(columns[i], index)];
          columns := columns[target := Push(columns[target], card)];
          break;
        }
        i := i + 1;
      }
    }

    /** updateCard: counts the ticked items, applies the auto-move rule, and stamps the
        completion date (with `now`) when the card goes to the third column. */
    method UpdateCard(card: Card, now: string)
      requires Valid()
      modifies this, card
      ensures Valid()
      ensures columns == AfterUpdate(old(columns), card, old(card.items))
      ensures card.items == old(card.items)
      ensures card.completedDate ==
        if AutoMove(CompletionRate(old(card.items)), card in old(columns[0].cards),
                    card in old(columns[1].cards)) == ToDone
        then Some(now) else old(card.completedDate)
      ensures nextCardId == old(nextCardId)
    {
      var completedItems := CompletedCount(card.items);
      var totalItems := |card.items|;
      var completionRate := if totalItems == 0 then NaN else Ratio(completedItems, totalItems);
      if AboveHalf(completionRate) && card in columns[0].cards {
        MoveCard(card, 1);
      } else if IsOne(completionRate) && card in columns[1].cards {
        MoveCard(card, 2);
        card.completedDate := Some(now);
      }
    }
  }
}
