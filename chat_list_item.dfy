/**
 * A row of the chat list (ChatListItem.swift): its order and equality go by
 * the title, its stable identity by the generated id.
 */
module ChatListItems {
  import opened ChatListViewModel

  /** A UUID; generating one is random, so callers pass the generated value in. */
  type Uuid = nat

  /**
   * The item. `cellData` is not declared in ChatListItem.swift, yet its users
   * read it, so it is a plain field here; the interaction callbacks are left out.
   */
  datatype ChatListItem = ChatListItem(id: Uuid, title: string, cellData: ChatCellData)

  /** `init`: a new id, and the title keeps its default, the empty string. */
  function NewItem(generatedId: Uuid, cellData: ChatCellData): (r: ChatListItem)
    ensures r.title == "" && r.id == generatedId && r.cellData == cellData
  {
    ChatListItem(generatedId, "", cellData)
  }

  // ---------------------------------------------------------------------------
  // String order: lexicographic over characters (a proper prefix comes first).

  /**
   * The textbook definition: `a` is a proper prefix of `b`, or the two first differ
   * at some position `k` where `a` has the smaller character.
   */
  ghost predicate FirstDifferenceLess(a: string, b: string) {
    || (|a| < |b| && a == b[..|a|])
    || exists k :: 0 <= k < |a| && k < |b| && a[..k] == b[..k] && a[k] < b[k]
  }

  /** `lhs.title < rhs.title`, compared character by character from the front. */
  predicate TitleLess(a: string, b: string)
    ensures TitleLess(a, b) <==> FirstDifferenceLess(a, b)
    decreases |a|
  {
    if |a| == 0 then
      assert |b| > 0 ==> a == b[..0];
      |b| > 0
    else if |b| == 0 then false
    else
      FirstDifferenceStep(a, b);
      a[0] < b[0] || (a[0] == b[0] && TitleLess(a[1..], b[1..]))
  }

  /** Comparing from the first character on: decide there, or drop it when it agrees. */
  lemma FirstDifferenceStep(a: string, b: string)
    requires |a| > 0 && |b| > 0
    ensures FirstDifferenceLess(a, b) <==>
              a[0] < b[0] || (a[0] == b[0] && FirstDifferenceLess(a[1..], b[1..]))
  {
    if a[0] < b[0] {
      assert a[..0] == b[..0];
    } else if a[0] == b[0] {
      var a', b' := a[1..], b[1..];
      if |a| < |b| {
        assert a == b[..|a|] <==> a' == b'[..|a'|] by {
          assert a == [a[0]] + a' && b[..|a|] == [b[0]] + b'[..|a'|];
        }
      }
      forall k | 0 < k <= |a| && k <= |b|
        ensures a[..k] == b[..k] <==> a'[..k - 1] == b'[..k - 1]
      {
        assert a[..k] == [a[0]] + a'[..k - 1] && b[..k] == [b[0]] + b'[..k - 1];
      }
      if exists k :: 0 <= k < |a| && k < |b| && a[..k] == b[..k] && a[k] < b[k] {
        var k :| 0 <= k < |a| && k < |b| && a[..k] == b[..k] && a[k] < b[k];
        assert k > 0 && a'[k - 1] == a[k] && b'[k - 1] == b[k];
      }
      if exists k :: 0 <= k < |a'| && k < |b'| && a'[..k] == b'[..k] && a'[k] < b'[k] {
        var k :| 0 <= k < |a'| && k < |b'| && a'[..k] == b'[..k] && a'[k] < b'[k];
        assert a[..k + 1] == b[..k + 1] && a[k + 1] < b[k + 1];
      }
    }
  }

  lemma {:induction false} TitleLessIrreflexive(a: string)
    ensures !TitleLess(a, a)
    decreases |a|
  {
    if |a| > 0 { TitleLessIrreflexive(a[1..]); }
  }

  lemma {:induction false} TitleLessTransitive(a: string, b: string, c: string)
    requires TitleLess(a, b) && TitleLess(b, c)
    ensures TitleLess(a, c)
    decreases |a|
  {
    if |a| > 0 && a[0] == b[0] && b[0] == c[0] {
      TitleLessTransitive(a[1..], b[1..], c[1..]);
    }
  }

  /** Exactly one of a < b, a == b, b < a. */
  lemma {:induction false} TitleLessTrichotomy(a: string, b: string)
    ensures TitleLess(a, b) || a == b || TitleLess(b, a)
    ensures !(TitleLess(a, b) && TitleLess(b, a))
    decreases |a|
  {
    if |a| > 0 && |b| > 0 && a[0] == b[0] {
      TitleLessTrichotomy(a[1..], b[1..]);
      if a[1..] == b[1..] {
        assert a == [a[0]] + a[1..] && b == [b[0]] + b[1..];
      }
    }
  }

  // ---------------------------------------------------------------------------
  // The item's operators.

  /** `<`: the titles' order; items with different titles are never both unordered. */
  predicate Less(lhs: ChatListItem, rhs: ChatListItem)
    ensures Less(lhs, rhs) <==> FirstDifferenceLess(lhs.title, rhs.title)
    ensures Less(lhs, rhs) ==> lhs.title != rhs.title && !FirstDifferenceLess(rhs.title, lhs.title)
  {
    TitleLessTrichotomy(lhs.title, rhs.title);
    TitleLessIrreflexive(lhs.title);
    TitleLess(lhs.title, rhs.title)
  }

  /** `==`: the titles agree, which is exactly when neither title is before the other. */
  predicate Equal(lhs: ChatListItem, rhs: ChatListItem)
    ensures Equal(lhs, rhs) <==> !FirstDifferenceLess(lhs.title, rhs.title) && !FirstDifferenceLess(rhs.title, lhs.title)
  {
    TitleLessTrichotomy(lhs.title, rhs.title);
    TitleLessIrreflexive(lhs.title);
    lhs.title == rhs.title
  }

  /** `stableId`: the id, wrapped as a hashable; title and record play no part. */
  function StableId(item: ChatListItem): (r: Uuid)
    ensures r == item.id
  {
    item.id
  }

  lemma ItemLessIsStrictOrder(a: ChatListItem, b: ChatListItem, c: ChatListItem)
    ensures !Less(a, a)
    ensures Less(a, b) && Less(b, c) ==> Less(a, c)
    ensures Less(a, b) ==> !Less(b, a)
  {
    TitleLessIrreflexive(a.title);
    TitleLessTrichotomy(a.title, b.title);
    if Less(a, b) && Less(b, c) { TitleLessTransitive(a.title, b.title, c.title); }
  }

  /** Equality and order agree: equal items are not ordered, unequal ones are. */
  lemma EqualIffUnordered(a: ChatListItem, b: ChatListItem)
    ensures Equal(a, b) <==> !Less(a, b) && !Less(b, a)
  {
    TitleLessTrichotomy(a.title, b.title);
    if Equal(a, b) { TitleLessIrreflexive(a.title); }
  }

  /** `==` looks only at the title: the id and the cell data never matter. */
  lemma EqualIgnoresId(a: ChatListItem, id: Uuid, cellData: ChatCellData)
    ensures Equal(a, a.(id := id, cellData := cellData))
    ensures forall b :: Equal(a, b) <==> a.title == b.title
  {
  }

  /** `stableId` looks only at the id: retitling an item keeps its identity. */
  lemma StableIdIgnoresTitle(a: ChatListItem, b: ChatListItem, title: string)
    ensures StableId(a.(title := title)) == StableId(a)
    ensures StableId(a) == StableId(b) <==> a.id == b.id
  {
  }

  /** Two freshly made items with distinct ids are `==` yet have different identities. */
  lemma FreshItemsEqualButDistinct(id1: Uuid, id2: Uuid, c1: ChatCellData, c2: ChatCellData)
    requires id1 != id2
    ensures Equal(NewItem(id1, c1), NewItem(id2, c2))
    ensures StableId(NewItem(id1, c1)) != StableId(NewItem(id2, c2))
  {
  }

  /** `selectable` */
  function Selectable(item: ChatListItem): (r: bool)
    ensures r
  {
    true
  }

  /** `approximateHeight` */
  function ApproximateHeight(item: ChatListItem): (r: real)
    ensures r == 70.0
  {
    70.0
  }
}
