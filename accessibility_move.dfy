/**
 * The accessibility move actions (AccessibilityMove/AccessibilityMoveActions.swift):
 * the `.up` and `.down` actions with their names, and the handler that
 * `accessibilityMoveable` installs: it finds the first index of the item,
 * swaps it with its neighbour in the bound array, moves the accessibility
 * focus to it and returns the announcement it would post.
 */
module AccessibilityMove {
  import opened Foundation

  datatype AccessibilityMoveAction = Up | Down {
    /** The name VoiceOver reads for the action. */
    function Name(): (n: string)
      ensures n == "Move up" <==> this == Up
      ensures n == "Move down" <==> this == Down
    {
      match this
      case Up => "Move up"
      case Down => "Move down"
    }
  }

  /** `s.firstIndex(of: x)`. */
  function FirstIndex<T(==)>(s: seq<T>, x: T): (r: Option<nat>)
    ensures r.Some? <==> x in s
    ensures r.Some? ==> r.value < |s| && s[r.value] == x && forall j :: 0 <= j < r.value ==> s[j] != x
  {
    if s == [] then None
    else if s[0] == x then Some(0)
    else
      match FirstIndex(s[1..], x)
      case None => None
      case Some(i) => Some(i + 1)
  }

  /**
   * Whether the handler swaps: the item is present, the array has more than
   * one element, and the item's first index is not at the boundary it moves
   * towards.
   */
  predicate CanMove<T(==)>(s: seq<T>, item: T, action: AccessibilityMoveAction) {
    match FirstIndex(s, item)
    case None => false
    case Some(i) => |s| > 1 && (if action == Up then i > 0 else i < |s| - 1)
  }

  /** The index of the neighbour the item is swapped with. */
  function Neighbour(i: nat, action: AccessibilityMoveAction): int {
    if action == Up then i - 1 else i + 1
  }

  function Swap<T>(s: seq<T>, i: nat, j: nat): seq<T>
    requires i < |s| && j < |s|
  {
    s[i := s[j]][j := s[i]]
  }

  /** The bound array after the handler ran. */
  function Moved<T(==)>(s: seq<T>, item: T, action: AccessibilityMoveAction): seq<T> {
    if CanMove(s, item, action) then
      var i := FirstIndex(s, item).value;
      Swap(s, i, Neighbour(i, action))
    else
      s
  }

  /** The text posted after a move, naming `neighbour` when there is a label key path. */
  function Announcement<T>(action: AccessibilityMoveAction, itemLabel: Option<T -> string>, neighbour: T): string {
    match (action, itemLabel)
    case (Up, Some(f)) => "Moved above " + f(neighbour)
    case (Up, None) => "Moved up"
    case (Down, Some(f)) => "Moved below " + f(neighbour)
    case (Down, None) => "Moved down"
  }

  /** The announcement the handler posts: built from the element now at the item's old index. */
  function MoveAnnouncement<T(==)>(s: seq<T>, item: T, action: AccessibilityMoveAction, itemLabel: Option<T -> string>)
    : Option<string>
  {
    if CanMove(s, item, action) then
      var i := FirstIndex(s, item).value;
      Some(Announcement(action, itemLabel, Moved(s, item, action)[i]))
    else
      None
  }

  /** The state of `AccessibilityMoveableViewModifier`: the bound items, the label key path and the focus. */
  class AccessibilityMoveable<T(==)> {
    const items: array<T>
    const itemLabel: Option<T -> string>
    var focus: Option<T>

    constructor (items: array<T>, itemLabel: Option<T -> string>)
      ensures this.items == items && this.itemLabel == itemLabel && focus == None
    {
      this.items := items;
      this.itemLabel := itemLabel;
      focus := None;
    }

    /** The `accessibilityMove` closure: swap the item with its neighbour, focus it, and return the announcement. */
    method Move(item: T, destination: AccessibilityMoveAction) returns (announcement: Option<string>)
      modifies items, this`focus
      ensures items[..] == Moved(old(items[..]), item, destination)
      ensures multiset(items[..]) == multiset(old(items[..]))
      ensures announcement == MoveAnnouncement(old(items[..]), item, destination, itemLabel)
      ensures focus == if CanMove(old(items[..]), item, destination) then Some(item) else old(focus)
    {
      announcement := None;
      var firstIndex := FirstIndex(items[..], item);
      if firstIndex.None? || items.Length <= 1 {
        return;
      }
      var i := firstIndex.value;
      match destination
      case Up =>
        if i > 0 {
          items[i], items[i - 1] := items[i - 1], items[i];
          focus := Some(item);
          announcement := Some(Announcement(Up, itemLabel, items[i]));
        }
      case Down =>
        if i < items.Length - 1 {
          items[i], items[i + 1] := items[i + 1], items[i];
          focus := Some(item);
          announcement := Some(Announcement(Down, itemLabel, items[i]));
        }
    }
  }

  /** An absent item or an array of at most one element: nothing changes and nothing is announced. */
  lemma NoMoveWhenAbsentOrSingle<T>(s: seq<T>, item: T, action: AccessibilityMoveAction, itemLabel: Option<T -> string>)
    requires item !in s || |s| <= 1
    ensures Moved(s, item, action) == s && MoveAnnouncement(s, item, action, itemLabel) == None
  {
  }

  /** `.up` on the first element and `.down` on the last (its only occurrence) change nothing and announce nothing. */
  lemma NoMoveAtBoundary<T>(s: seq<T>, item: T, itemLabel: Option<T -> string>)
    requires s != []
    ensures s[0] == item ==> Moved(s, item, Up) == s && MoveAnnouncement(s, item, Up, itemLabel) == None
    ensures s[|s| - 1] == item && item !in s[..|s| - 1] ==>
              Moved(s, item, Down) == s && MoveAnnouncement(s, item, Down, itemLabel) == None
  {
  }

  /**
   * `.up` swaps the item at its first index `i` with the element at `i - 1`,
   * leaves every other position alone, and announces the former predecessor.
   */
  lemma MoveUpSwaps<T>(s: seq<T>, item: T, itemLabel: Option<T -> string>)
    requires CanMove(s, item, Up)
    ensures var i := FirstIndex(s, item).value;
            var r := Moved(s, item, Up);
            && 0 < i < |s| && |r| == |s|
            && r[i - 1] == item && r[i] == s[i - 1]
            && (forall k :: 0 <= k < |s| && k != i && k != i - 1 ==> r[k] == s[k])
            && MoveAnnouncement(s, item, Up, itemLabel) == Some(Announcement(Up, itemLabel, s[i - 1]))
  {
  }

  /**
   * `.down` swaps the item at its first index `i` with the element at
   * `i + 1`, leaves every other position alone, and announces the former
   * successor.
   */
  lemma MoveDownSwaps<T>(s: seq<T>, item: T, itemLabel: Option<T -> string>)
    requires CanMove(s, item, Down)
    ensures var i := FirstIndex(s, item).value;
            var r := Moved(s, item, Down);
            && i + 1 < |s| && |r| == |s|
            && r[i + 1] == item && r[i] == s[i + 1]
            && (forall k :: 0 <= k < |s| && k != i && k != i + 1 ==> r[k] == s[k])
            && MoveAnnouncement(s, item, Down, itemLabel) == Some(Announcement(Down, itemLabel, s[i + 1]))
  {
  }

  /** With a label the announcement names the neighbour; without one it is the generic text. */
  lemma AnnouncementText<T>(action: AccessibilityMoveAction, itemLabel: Option<T -> string>, neighbour: T)
    ensures itemLabel.Some? && action == Up ==> Announcement(action, itemLabel, neighbour) == "Moved above " + itemLabel.value(neighbour)
    ensures itemLabel.Some? && action == Down ==> Announcement(action, itemLabel, neighbour) == "Moved below " + itemLabel.value(neighbour)
    ensures itemLabel.None? ==> Announcement(action, itemLabel, neighbour) == (if action == Up then "Moved up" else "Moved down")
  {
  }

  /** Every move is a permutation: same length, same multiset of elements. */
  lemma MovePermutes<T>(s: seq<T>, item: T, action: AccessibilityMoveAction)
    ensures |Moved(s, item, action)| == |s|
    ensures multiset(Moved(s, item, action)) == multiset(s)
  {
    if CanMove(s, item, action) {
      var i := FirstIndex(s, item).value;
      var j := Neighbour(i, action);
      var t := s[i := s[j]];
      assert multiset(t) == multiset(s) - multiset{s[i]} + multiset{s[j]};
      assert multiset(t[j := s[i]]) == multiset(t) - multiset{t[j]} + multiset{s[i]};
    }
  }

  /** `.up` always moves the item: its predecessor differs from it, being before its first occurrence. */
  lemma MoveUpChanges<T>(s: seq<T>, item: T)
    requires CanMove(s, item, Up)
    ensures Moved(s, item, Up) != s
  {
    var i := FirstIndex(s, item).value;
    assert Moved(s, item, Up)[i - 1] == item != s[i - 1];
  }

  /** An index that holds `x`, with no earlier position holding it, is the first index of `x`. */
  lemma FirstIndexAt<T>(s: seq<T>, x: T, i: nat)
    requires i < |s| && s[i] == x
    requires forall j :: 0 <= j < i ==> s[j] != x
    ensures FirstIndex(s, x) == Some(i)
  {
  }

  /** `.down` undoes `.up`: the item's first index after `.up` is one less, and swapping back restores the array. */
  lemma UpThenDownRestores<T>(s: seq<T>, item: T)
    requires CanMove(s, item, Up)
    ensures CanMove(Moved(s, item, Up), item, Down)
    ensures Moved(Moved(s, item, Up), item, Down) == s
  {
    var i := FirstIndex(s, item).value;
    var r := Moved(s, item, Up);
    assert r == s[i := s[i - 1]][i - 1 := item];
    FirstIndexAt(r, item, i - 1);
    assert r[i - 1 := r[i]][i := r[i - 1]] == s;
  }

  /** `.up` undoes `.down` when the item's successor is a different element. */
  lemma DownThenUpRestores<T>(s: seq<T>, item: T)
    requires CanMove(s, item, Down)
    requires s[FirstIndex(s, item).value + 1] != item
    ensures CanMove(Moved(s, item, Down), item, Up)
    ensures Moved(Moved(s, item, Down), item, Up) == s
  {
    var i := FirstIndex(s, item).value;
    var r := Moved(s, item, Down);
    assert r == s[i := s[i + 1]][i + 1 := item];
    FirstIndexAt(r, item, i + 1);
    assert r[i + 1 := r[i]][i := r[i + 1]] == s;
  }

  /** When the item's successor equals it, `.down` leaves the array as it was yet still announces a move. */
  lemma DownOntoEqualSuccessor<T>(s: seq<T>, item: T, itemLabel: Option<T -> string>)
    requires CanMove(s, item, Down)
    requires s[FirstIndex(s, item).value + 1] == item
    ensures Moved(s, item, Down) == s
    ensures MoveAnnouncement(s, item, Down, itemLabel) == Some(Announcement(Down, itemLabel, item))
  {
  }
}
