/** The sort control of the cards table (src/components/CardsTable.tsx): a
    sort string is a one-character direction flag ('0' or '1') followed by
    the name of the sorted column. Clicking a column toggles the direction
    when it is the sorted column and sorts ascending by it otherwise. */
module CardsTable {
  import opened Wrappers

  /** The one cards-slice action the table dispatches. */
  datatype CardsAction = SetSortCards(sortCards: string)

  /** JavaScript's `s.slice(0, 1)` and `s.slice(1)`. */
  function Code(s: string): string
  {
    if |s| == 0 then s else s[..1]
  }

  function Column(s: string): string
  {
    if |s| == 0 then s else s[1..]
  }

  /** The column a sort string sorts by; there is none before the first sort. */
  function SortedColumn(sortCards: Option<string>): Option<string>
  {
    match sortCards
    case Some(s) => Some(Column(s))
    case None => None
  }

  /** The new sort string after a click on column `sortingName`. */
  function ToggleSort(sortCards: Option<string>, sortingName: string): (r: string)
    ensures |r| == |sortingName| + 1 && r[1..] == sortingName
    ensures r[0] == '0' || r[0] == '1'
    ensures SortedColumn(sortCards) != Some(sortingName) ==> r[0] == '0'
    ensures SortedColumn(sortCards) == Some(sortingName) ==>
      r[0] == (if Code(sortCards.value) == "0" then '1' else '0')
  {
    match sortCards
    case None => "0" + sortingName
    case Some(s) =>
      var sortCode := Code(s);
      var sortName := Column(s);
      if sortName == sortingName then
        var newSortCode := if sortCode == "0" then "1" else "0";
        newSortCode + sortName
      else
        "0" + sortingName
  }

  /** A well-formed sort string: a direction flag, then a column name. */
  predicate WellFormed(s: string)
  {
    |s| >= 1 && (s[0] == '0' || s[0] == '1')
  }

  /** Clicking the sorted column flips the flag of a well-formed string and
      keeps the column. */
  lemma ToggleSameColumn(s: string)
    requires WellFormed(s)
    ensures ToggleSort(Some(s), s[1..]) == [if s[0] == '0' then '1' else '0'] + s[1..]
  {
    assert Code(s) == [s[0]];
    assert Code(s) == "0" <==> s[0] == '0';
  }

  /** Clicking the sorted column twice restores a well-formed sort string. */
  lemma ToggleTwice(s: string)
    requires WellFormed(s)
    ensures ToggleSort(Some(ToggleSort(Some(s), s[1..])), s[1..]) == s
  {
    var once := ToggleSort(Some(s), s[1..]);
    ToggleSameColumn(s);
    assert WellFormed(once) && once[1..] == s[1..];
    ToggleSameColumn(once);
    assert [s[0]] + s[1..] == s;
  }

  /** Clicking another column, or the first click, sorts ascending by it. */
  lemma OtherColumnAscending(sortCards: Option<string>, sortingName: string)
    requires SortedColumn(sortCards) != Some(sortingName)
    ensures ToggleSort(sortCards, sortingName) == "0" + sortingName
  {
    var r := ToggleSort(sortCards, sortingName);
    assert r == [r[0]] + r[1..];
  }

  /** `onChangeSortHandler(sortingName)`: the actions one click dispatches. */
  function OnChangeSortHandler(sortCards: Option<string>, sortingName: string): (dispatched: seq<CardsAction>)
    ensures |dispatched| == 1
    ensures dispatched[0].sortCards == ToggleSort(sortCards, sortingName)
    ensures WellFormed(dispatched[0].sortCards) && Column(dispatched[0].sortCards) == sortingName
  {
    [SetSortCards(ToggleSort(sortCards, sortingName))]
  }
}
