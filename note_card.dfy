/**
 The note-card component: a card's checklist items, the text check applied before an item is
 added, the completed-item count and the completion rate that drives the auto-move rule.
 */
module NoteCard {

  datatype Option<T> = None | Some(value: T)

  /** One checklist line. */
  datatype Item = Item(text: string, completed: bool)

  /** A card holds at most this many items (the `itemCount < 5` guard of addItem). */
  const MaxItems: nat := 5

  /** The characters JavaScript's String.prototype.trim removes: WhiteSpace and LineTerminator
      (sections 12.2 and 12.3 of ECMA-262). */
  predicate IsJsWhitespace(c: char)
  {
    || c == '\U{0009}' || c == '\U{000A}' || c == '\U{000B}' || c == '\U{000C}'
    || c == '\U{000D}' || c == '\U{0020}' || c == '\U{00A0}' || c == '\U{1680}'
    || ('\U{2000}' <= c <= '\U{200A}')
    || c == '\U{2028}' || c == '\U{2029}' || c == '\U{202F}' || c == '\U{205F}'
    || c == '\U{3000}' || c == '\U{FEFF}'
  }

  ghost predicate AllWhitespace(s: string)
  {
    forall i :: 0 <= i < |s| ==> IsJsWhitespace(s[i])
  }

  /** Drops leading whitespace: the result is a suffix of `s` that does not start with whitespace,
      and everything dropped was whitespace. */
  function TrimStart(s: string): (r: string)
    ensures |r| <= |s| && r == s[|s| - |r|..]
    ensures r == [] || !IsJsWhitespace(r[0])
    ensures AllWhitespace(s[..|s| - |r|])
  {
    if s != [] && IsJsWhitespace(s[0]) then
      var r := TrimStart(s[1..]);
      assert s[..|s| - |r|] == [s[0]] + s[1..][..|s| - 1 - |r|];
      r
    else
      s
  }

  /** Drops trailing whitespace: the result is a prefix of `s` that does not end with whitespace,
      and everything dropped was whitespace. */
  function TrimEnd(s: string): (r: string)
    ensures |r| <= |s| && r == s[..|r|]
    ensures r == [] || !IsJsWhitespace(r[|r| - 1])
    ensures AllWhitespace(s[|r|..])
  {
    if s != [] && IsJsWhitespace(s[|s| - 1]) then
      var r := TrimEnd(s[..|s| - 1]);
      assert s[|r|..] == s[..|s| - 1][|r|..] + [s[|s| - 1]];
      r
    else
      s
  }

  /** JavaScript's `text.trim()`: no longer than the text, and neither its first nor its last
      character is whitespace. */
  function Trim(s: string): (r: string)
    ensures |r| <= |s|
    ensures r == [] || (!IsJsWhitespace(r[0]) && !IsJsWhitespace(r[|r| - 1]))
  {
    var t := TrimStart(s);
    var r := TrimEnd(t);
    assert r != [] ==> r[0] == t[0];
    r
  }

  /** `text.trim() !== ''` holds exactly when the text has a character that is not whitespace. */
  lemma {:induction false} TrimEmptyIffBlank(s: string)
    ensures Trim(s) == "" <==> AllWhitespace(s)
  {
    var t := TrimStart(s);
    if Trim(s) == "" {
      assert t[0..] == t;
      assert t == [];
      assert s[..|s|] == s;
    }
    if AllWhitespace(s) {
      BlankTrimsToEmpty(s);
    }
  }

  lemma {:induction false} BlankTrimsToEmpty(s: string)
    requires AllWhitespace(s)
    ensures TrimStart(s) == ""
  {
    if s != [] {
      assert forall i :: 0 <= i < |s| - 1 ==> s[1..][i] == s[i + 1];
      BlankTrimsToEmpty(s[1..]);
    }
  }

  /** Text with a visible character survives trimming, so addItem accepts it. */
  lemma {:induction false} TrimKeepsVisibleText(s: string, i: nat)
    requires i < |s| && !IsJsWhitespace(s[i])
    ensures Trim(s) != ""
  {
    TrimEmptyIffBlank(s);
  }

  ghost predicate AllCompleted(items: seq<Item>)
  {
    forall i :: 0 <= i < |items| ==> items[i].completed
  }

  ghost predicate NoneCompleted(items: seq<Item>)
  {
    forall i :: 0 <= i < |items| ==> !items[i].completed
  }

  /** `card.items.filter(item => item.completed).length`. */
  function CompletedCount(items: seq<Item>): (n: nat)
    ensures n <= |items|
    ensures n == |items| <==> AllCompleted(items)
    ensures n == 0 <==> NoneCompleted(items)
  {
    if items == [] then 0
    else
      var rest := CompletedCount(items[1..]);
      assert forall i :: 1 <= i < |items| ==> items[i] == items[1..][i - 1];
      (if items[0].completed then 1 else 0) + rest
  }

  /** Appending an unchecked item keeps the completed count. */
  lemma {:induction false} CompletedCountAppendUnchecked(items: seq<Item>, text: string)
    ensures CompletedCount(items + [Item(text, false)]) == CompletedCount(items)
  {
    if items != [] {
      assert (items + [Item(text, false)])[1..] == items[1..] + [Item(text, false)];
      CompletedCountAppendUnchecked(items[1..], text);
    }
  }

  /** The value of `completedItems / totalItems` as the comparisons of updateCard see it:
      0 / 0 is NaN, every other quotient is the exact ratio of the two counts. */
  datatype Rate = NaN | Ratio(completed: nat, total: nat)

  function CompletionRate(items: seq<Item>): (r: Rate)
    ensures r.NaN? <==> items == []
    ensures r.Ratio? ==> r.total == |items| && r.completed <= r.total
  {
    if items == [] then NaN else Ratio(CompletedCount(items), |items|)
  }

  /** `completionRate > 0.5`; a comparison with NaN is false. */
  predicate AboveHalf(r: Rate)
  {
    r.Ratio? && 2 * r.completed > r.total
  }

  /** `completionRate === 1`; a comparison with NaN is false. */
  predicate IsOne(r: Rate)
  {
    r.Ratio? && r.completed == r.total
  }

  /** The rate is above one half exactly when more than half of a non-empty checklist is ticked,
      and it is one exactly when a non-empty checklist is fully ticked. */
  lemma {:induction false} RateComparisons(items: seq<Item>)
    ensures AboveHalf(CompletionRate(items)) <==> 2 * CompletedCount(items) > |items|
    ensures IsOne(CompletionRate(items)) <==> items != [] && AllCompleted(items)
  {
  }

  /** A card of the note board. Its id is fixed at creation; its items and completion date are
      updated in place, as the component does with `card.items.push` and `card.completedDate = …`. */
  class Card {
    const id: nat
    var items: seq<Item>
    var completedDate: Option<string>

    ghost predicate Valid()
      reads this
    {
      |items| <= MaxItems
    }

    /** A fresh card with no items and no completion date. */
    constructor (id: nat)
      ensures this.id == id && items == [] && completedDate == None
      ensures Valid()
    {
      this.id := id;
      items := [];
      completedDate := None;
    }

    /** The computed `itemCount`: on a valid card it never exceeds MaxItems, which is what the
        template's disabled "add item" button relies on. */
    function ItemCount(): (n: nat)
      reads this
      ensures Valid() ==> n <= MaxItems
    {
      |items|
    }

    /** addItem: appends an unchecked item holding `text` as typed (not trimmed), unless the
        trimmed text is empty or the card already has MaxItems items. */
    method AddItem(text: string) returns (added: bool)
      modifies this
      ensures added <==> Trim(text) != "" && old(ItemCount()) < MaxItems
      ensures items == if added then old(items) + [Item(text, false)] else old(items)
      ensures old(Valid()) ==> Valid()
      ensures CompletedCount(items) == CompletedCount(old(items))
      ensures completedDate == old(completedDate)
    {
      added := Trim(text) != "" && ItemCount() < MaxItems;
      if added {
        CompletedCountAppendUnchecked(items, text);
        items := items + [Item(text, false)];
      }
    }
  }
}
