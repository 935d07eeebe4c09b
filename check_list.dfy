// The list of check boxes on the game form (one per collection): the list
// arrives ordered by caption, an item can be ticked or cleared, and an item
// typed into the text box is appended ticked.
module CheckList {
  import opened Common

  /** `{ caption, value, checked }`; `value` is `null` for items added here. */
  datatype Item<T> = Item(caption: string, value: Option<T>, checked: bool)

  // ---------------------------------------------------------------------
  // Ordering by caption

  /** Captions in lexicographic code-point order; this stands in for the source's `localeCompare`. */
  predicate CaptionAtMost(a: string, b: string)
    decreases |a|
  {
    a == [] || (b != [] && (a[0] < b[0] || (a[0] == b[0] && CaptionAtMost(a[1..], b[1..]))))
  }

  lemma {:induction false} CaptionTotal(a: string, b: string)
    ensures CaptionAtMost(a, b) || CaptionAtMost(b, a)
    decreases |a|
  {
    if a != [] && b != [] && a[0] == b[0] {
      CaptionTotal(a[1..], b[1..]);
    }
  }

  /** Each item's caption is at most the next one's. */
  predicate SortedByCaption<T>(s: seq<Item<T>>) {
    forall i | 0 <= i < |s| - 1 :: CaptionAtMost(s[i].caption, s[i + 1].caption)
  }

  function Insert<T>(x: Item<T>, s: seq<Item<T>>): (r: seq<Item<T>>)
    requires SortedByCaption(s)
    ensures SortedByCaption(r) && multiset(r) == multiset(s) + multiset{x}
    ensures r != [] && (r[0] == x || (s != [] && r[0] == s[0]))
    decreases |s|
  {
    if s == [] then [x]
    else if CaptionAtMost(x.caption, s[0].caption) then [x] + s
    else
      CaptionTotal(x.caption, s[0].caption);
      var rest := Insert(x, s[1..]);
      assert s == [s[0]] + s[1..];
      [s[0]] + rest
  }

  /** `list.sort((a, b) => a.caption.localeCompare(b.caption))`, with code-point order standing in for the locale's. */
  function SortByCaption<T>(s: seq<Item<T>>): (r: seq<Item<T>>)
    ensures SortedByCaption(r) && multiset(r) == multiset(s)
    decreases |s|
  {
    if s == [] then []
    else
      assert s == [s[0]] + s[1..];
      Insert(s[0], SortByCaption(s[1..]))
  }

  // ---------------------------------------------------------------------
  // Editing

  /** `handleAddItemClick`: nothing for a blank caption, else the list with one ticked item appended. */
  function Added<T>(list: seq<Item<T>>, caption: string): (r: Option<seq<Item<T>>>)
    ensures r.None? <==> AllSpace(caption)
    ensures r.Some? ==>
      |r.value| == |list| + 1 && r.value[..|list|] == list && r.value[|list|] == Item(caption, None, true)
  {
    TrimEmptyIffAllSpace(caption);
    if Trim(caption) == "" then None else Some(list + [Item(caption, None, true)])
  }

  /** The check-box `onChange` of the item at `index`. */
  function Toggled<T>(list: seq<Item<T>>, index: nat, check: bool): (r: seq<Item<T>>)
    requires index < |list|
    ensures |r| == |list| && r[index].checked == check
    ensures r[index].caption == list[index].caption && r[index].value == list[index].value
    ensures forall i | 0 <= i < |list| && i != index :: r[i] == list[i]
  {
    list[index := list[index].(checked := check)]
  }

  /** Setting an item back to what it was restores the list; setting it twice keeps the second. */
  lemma ToggleBack<T>(list: seq<Item<T>>, index: nat, check: bool, check2: bool)
    requires index < |list|
    ensures Toggled(Toggled(list, index, check), index, list[index].checked) == list
    ensures Toggled(Toggled(list, index, check), index, check2) == Toggled(list, index, check2)
  {
  }

  /** The ticked captions after an addition: the earlier ones and the new one. */
  function TickedCaptions<T>(list: seq<Item<T>>): set<string> {
    set i | 0 <= i < |list| && list[i].checked :: list[i].caption
  }

  lemma AddedIsTicked<T>(list: seq<Item<T>>, caption: string)
    requires !AllSpace(caption)
    ensures TickedCaptions(Added(list, caption).value) == TickedCaptions(list) + {caption}
  {
    var r := Added(list, caption).value;
    forall c ensures c in TickedCaptions(r) <==> c in TickedCaptions(list) + {caption} {
      if c in TickedCaptions(list) {
        var i :| 0 <= i < |list| && list[i].checked && list[i].caption == c;
        assert r[i] == list[i];
      }
      if c == caption {
        assert r[|list|].checked && r[|list|].caption == c;
      }
    }
  }

  /** Ticking an item adds its caption to the ticked ones; no other caption comes or goes. */
  lemma TickedAfterToggle<T>(list: seq<Item<T>>, index: nat)
    requires index < |list|
    ensures TickedCaptions(Toggled(list, index, true)) == TickedCaptions(list) + {list[index].caption}
  {
    var r := Toggled(list, index, true);
    forall c ensures c in TickedCaptions(r) <==> c in TickedCaptions(list) + {list[index].caption} {
      if c in TickedCaptions(r) {
        var i :| 0 <= i < |r| && r[i].checked && r[i].caption == c;
        if i != index {
          assert list[i] == r[i];
        }
      }
      if c in TickedCaptions(list) {
        var i :| 0 <= i < |list| && list[i].checked && list[i].caption == c;
        if i != index {
          assert r[i] == list[i];
        } else {
          assert r[index].checked && r[index].caption == c;
        }
      }
      if c == list[index].caption {
        assert r[index].checked && r[index].caption == c;
      }
    }
  }

  /** The component's state: the items and the text typed for a new one. */
  class CheckListBox<T> {
    var checkList: seq<Item<T>>
    var newItemCaption: string

    constructor (list: seq<Item<T>>)
      ensures checkList == list && newItemCaption == ""
    {
      checkList := list;
      newItemCaption := "";
    }

    /** The effect on a new `list` prop. */
    method OnListChanged(list: seq<Item<T>>)
      modifies this
      ensures checkList == SortByCaption(list) && newItemCaption == old(newItemCaption)
    {
      checkList := SortByCaption(list);
    }

    method HandleNewItemInput(value: string)
      modifies this
      ensures newItemCaption == value && checkList == old(checkList)
    {
      newItemCaption := value;
    }

    /** `handleAddItemClick`: `emitted` is the list `onChange` receives, or `None` when it is not called. */
    method HandleAddItemClick() returns (emitted: Option<seq<Item<T>>>)
      modifies this
      ensures emitted == Added(old(checkList), old(newItemCaption))
      ensures emitted.Some? ==> checkList == emitted.value && newItemCaption == ""
      ensures emitted.None? ==> checkList == old(checkList) && newItemCaption == old(newItemCaption)
    {
      if Trim(newItemCaption) == "" {
        return None;
      }
      var updatedList := checkList + [Item(newItemCaption, None, true)];
      checkList := updatedList;
      emitted := Some(updatedList);
      newItemCaption := "";
    }

    /** The `onChange` of the check box at `index`: `emitted` is the list `onChange` receives. */
    method HandleToggle(index: nat, check: bool) returns (emitted: seq<Item<T>>)
      requires index < |checkList|
      modifies this
      ensures checkList == Toggled(old(checkList), index, check) && emitted == checkList
      ensures newItemCaption == old(newItemCaption)
    {
      var updatedCheckList := checkList;
      updatedCheckList := updatedCheckList[index := updatedCheckList[index].(checked := check)];
      checkList := updatedCheckList;
      emitted := updatedCheckList;
    }
  }
}
