/**
 * The two drop destinations of `BirdListTransferable`
 * (Bird+Transferable/BirdListTransferable.swift). While the list is empty the
 * view is a placeholder whose drop handler appends every dropped bird; once
 * it has birds, dropping onto a row inserts, at the drop offset, the dropped
 * birds whose ids the list does not already hold.
 */
module BirdListTransferable {
  import opened Foundation
  import opened Birds

  /** `birds.contains { $0.id == id }`. */
  predicate ContainsId(birds: seq<Bird>, id: Uuid) {
    exists k :: 0 <= k < |birds| && birds[k].id == id
  }

  /**
   * `droppedBirds.filter { bird in !birds.contains { $0.id == bird.id } }`:
   * the dropped birds, in drop order, whose id does not occur in `existing`.
   */
  function Unseen(existing: seq<Bird>, dropped: seq<Bird>): (kept: seq<Bird>)
    ensures |kept| <= |dropped|
    ensures forall b :: b in kept <==> b in dropped && !ContainsId(existing, b.id)
  {
    if dropped == [] then []
    else
      var rest := Unseen(existing, dropped[1..]);
      assert forall b :: b in dropped <==> b == dropped[0] || b in dropped[1..];
      (if ContainsId(existing, dropped[0].id) then [] else [dropped[0]]) + rest
  }

  /** The list after the insert: the kept birds placed contiguously at `offset`. */
  function InsertedAt(birds: seq<Bird>, dropped: seq<Bird>, offset: nat): seq<Bird>
    requires offset <= |birds|
  {
    birds[..offset] + Unseen(birds, dropped) + birds[offset..]
  }

  /** The list whose contents the view's binding `birds` designates. */
  class BirdList {
    var birds: seq<Bird>

    constructor (birds: seq<Bird>)
      ensures this.birds == birds
    {
      this.birds := birds;
    }

    /** The empty list's handler: `birds.append(contentsOf: droppedBirds); return true`. */
    method DropOnEmpty(dropped: seq<Bird>) returns (accepted: bool)
      modifies this
      ensures birds == old(birds) + dropped
      ensures accepted
    {
      birds := birds + dropped;
      accepted := true;
    }

    /** The rows' handler: insert the birds with new ids at `offset`. */
    method DropAt(dropped: seq<Bird>, offset: nat)
      requires offset <= |birds|
      modifies this
      ensures birds == InsertedAt(old(birds), dropped, offset)
      ensures birds[..offset] == old(birds)[..offset]
      ensures birds[offset..offset + |Unseen(old(birds), dropped)|] == Unseen(old(birds), dropped)
      ensures birds[offset + |Unseen(old(birds), dropped)|..] == old(birds)[offset..]
    {
      var newBirds := Unseen(birds, dropped);
      birds := birds[..offset] + newBirds + birds[offset..];
    }
  }

  /**
   * The insert keeps the birds before `offset`, places the kept birds next,
   * and keeps the original birds after them in their order; the list grows by
   * the number of kept birds.
   */
  lemma InsertedAtShape(birds: seq<Bird>, dropped: seq<Bird>, offset: nat)
    requires offset <= |birds|
    ensures |InsertedAt(birds, dropped, offset)| == |birds| + |Unseen(birds, dropped)|
    ensures forall k :: 0 <= k < offset ==> InsertedAt(birds, dropped, offset)[k] == birds[k]
    ensures forall k :: 0 <= k < |Unseen(birds, dropped)| ==>
              InsertedAt(birds, dropped, offset)[offset + k] == Unseen(birds, dropped)[k]
    ensures forall k :: offset <= k < |birds| ==>
              InsertedAt(birds, dropped, offset)[k + |Unseen(birds, dropped)|] == birds[k]
  {
  }

  /** Filtering preserves drop order: it distributes over concatenation. */
  lemma {:induction false} UnseenAppend(existing: seq<Bird>, first: seq<Bird>, second: seq<Bird>)
    ensures Unseen(existing, first + second) == Unseen(existing, first) + Unseen(existing, second)
  {
    if first == [] {
      assert first + second == second;
    } else {
      assert (first + second)[1..] == first[1..] + second;
      UnseenAppend(existing, first[1..], second);
    }
  }

  /** Nothing is filtered out exactly when no dropped id is already in the list. */
  lemma {:induction false} UnseenKeepsAll(existing: seq<Bird>, dropped: seq<Bird>)
    ensures Unseen(existing, dropped) == dropped <==> forall k :: 0 <= k < |dropped| ==> !ContainsId(existing, dropped[k].id)
  {
    if dropped != [] {
      UnseenKeepsAll(existing, dropped[1..]);
      if ContainsId(existing, dropped[0].id) {
        assert |Unseen(existing, dropped)| < |dropped|;
      } else {
        assert forall k :: 0 < k < |dropped| ==> dropped[k] == dropped[1..][k - 1];
      }
    }
  }

  /** Everything is filtered out when every dropped id is already in the list. */
  lemma {:induction false} UnseenDropsAll(existing: seq<Bird>, dropped: seq<Bird>)
    requires forall k :: 0 <= k < |dropped| ==> ContainsId(existing, dropped[k].id)
    ensures Unseen(existing, dropped) == []
  {
    if dropped != [] {
      assert ContainsId(existing, dropped[0].id);
      UnseenDropsAll(existing, dropped[1..]);
    }
  }

  /** On an empty list nothing is filtered out, so both handlers produce the same list. */
  lemma EmptyListHandlersAgree(dropped: seq<Bird>)
    ensures InsertedAt([], dropped, 0) == [] + dropped
  {
    UnseenKeepsAll([], dropped);
  }

  /**
   * De-duplication is only against the list: two dropped birds that share an
   * id that the list does not hold are both inserted.
   */
  lemma SharedDroppedIdsKept(existing: seq<Bird>, a: Bird, b: Bird)
    requires a.id == b.id && !ContainsId(existing, a.id)
    ensures Unseen(existing, [a, b]) == [a, b]
  {
  }

  /** Dropping the same birds a second time inserts nothing: every dropped id is now in the list. */
  lemma DropAgainAddsNothing(birds: seq<Bird>, dropped: seq<Bird>, offset: nat, again: nat)
    requires offset <= |birds|
    requires again <= |InsertedAt(birds, dropped, offset)|
    ensures InsertedAt(InsertedAt(birds, dropped, offset), dropped, again) == InsertedAt(birds, dropped, offset)
  {
    var after := InsertedAt(birds, dropped, offset);
    var kept := Unseen(birds, dropped);
    forall b | b in dropped
      ensures ContainsId(after, b.id)
    {
      if ContainsId(birds, b.id) {
        var k :| 0 <= k < |birds| && birds[k].id == b.id;
        if k < offset {
          assert after[k] == birds[k];
        } else {
          assert after[k + |kept|] == birds[k];
        }
      } else {
        assert b in kept;
        var k :| 0 <= k < |kept| && kept[k] == b;
        assert after[offset + k] == b;
      }
    }
    UnseenDropsAll(after, dropped);
    assert after[..again] + after[again..] == after;
  }
}
