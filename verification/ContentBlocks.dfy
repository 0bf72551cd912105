/** Moving a content block of a card before or after another one, and the move that undoes it. */
module ContentBlocks {
  import opened Sequences

  /** A place in a card's content: one block, or a row of blocks side by side. */
  datatype Entry = Id(id: string) | Row(ids: seq<string>)

  /** What a card's "contentOrder" field holds, if it has one. */
  datatype Content = Absent | Order(entries: seq<Entry>)

  datatype Block = Block(id: string, parentID: string)

  datatype Answer<T> = Ok(value: T) | OtherParent | NoParent | NoSource | NoDestination | NotStored

  function Entries(c: Content): seq<Entry> {
    if c.Order? then c.entries else []
  }

  /** What the loop makes of one place. */
  function Piece(e: Entry, src: string, dst: string, after: bool): seq<Entry> {
    if e == Id(dst) then if after then [e, Id(src)] else [Id(src), e]
    else if e == Id(src) then []
    else [e]
  }

  function Rebuilt(order: seq<Entry>, src: string, dst: string, after: bool): seq<Entry> {
    if order == [] then [] else Piece(order[0], src, dst, after) + Rebuilt(order[1..], src, dst, after)
  }

  /** The new order, or why there is none: the source is looked for first, and is not found either when
      it is the destination. */
  function Move(order: seq<Entry>, src: string, dst: string, after: bool): Answer<seq<Entry>> {
    if src == dst || Id(src) !in order then NoSource
    else if Id(dst) !in order then NoDestination
    else Ok(Rebuilt(order, src, dst, after))
  }

  lemma {:induction false} RebuiltJoin(a: seq<Entry>, b: seq<Entry>, src: string, dst: string, after: bool)
    ensures Rebuilt(a + b, src, dst, after) == Rebuilt(a, src, dst, after) + Rebuilt(b, src, dst, after)
  {
    if a == [] {
      assert a + b == b;
    } else {
      assert (a + b)[1..] == a[1..] + b;
      RebuiltJoin(a[1..], b, src, dst, after);
      JoinJoin(Piece(a[0], src, dst, after), Rebuilt(a[1..], src, dst, after), Rebuilt(b, src, dst, after));
    }
  }

  lemma RebuiltPush(order: seq<Entry>, e: Entry, src: string, dst: string, after: bool)
    ensures Rebuilt(order + [e], src, dst, after) == Rebuilt(order, src, dst, after) + Piece(e, src, dst, after)
  {
    RebuiltJoin(order, [e], src, dst, after);
    assert Rebuilt([e], src, dst, after) == Piece(e, src, dst, after) + [];
  }

  method Rebuild(contentOrder: seq<Entry>, src: string, dst: string, after: bool) returns (r: Answer<seq<Entry>>)
    ensures r == Move(contentOrder, src, dst, after)
    ensures r.Ok? <==> src != dst && Id(src) in contentOrder && Id(dst) in contentOrder
    ensures !r.Ok? ==> r == if src == dst || Id(src) !in contentOrder then NoSource else NoDestination
  {
    var newContentOrder: seq<Entry> := [];
    var foundDst, foundSrc := false, false;
    for i := 0 to |contentOrder|
      invariant newContentOrder == Rebuilt(contentOrder[..i], src, dst, after)
      invariant foundDst <==> Id(dst) in contentOrder[..i]
      invariant foundSrc <==> src != dst && Id(src) in contentOrder[..i]
    {
      var e := contentOrder[i];
      assert contentOrder[..i + 1] == contentOrder[..i] + [e];
      RebuiltPush(contentOrder[..i], e, src, dst, after);
      if e.Row? {
        newContentOrder := newContentOrder + [e];
      } else if dst == e.id {
        foundDst := true;
        if after {
          newContentOrder := newContentOrder + [e];
          newContentOrder := newContentOrder + [Id(src)];
        } else {
          newContentOrder := newContentOrder + [Id(src)];
          newContentOrder := newContentOrder + [e];
        }
      } else if src == e.id {
        foundSrc := true;
      } else {
        newContentOrder := newContentOrder + [e];
      }
    }
    assert contentOrder[..|contentOrder|] == contentOrder;
    if !foundSrc {
      return NoSource;
    }
    if !foundDst {
      return NoDestination;
    }
    r := Ok(newContentOrder);
  }

  class App {
    var contents: map<string, Content>      // the content of each stored card

    /** Moves a block next to another one of the same card; `stores` tells whether the store takes the
        new order. */
    method MoveContentBlock(block: Block, dstBlock: Block, after: bool, stores: bool) returns (r: Answer<()>)
      modifies this
      ensures r.OtherParent? <==> block.parentID != dstBlock.parentID
      ensures r.NoParent? <==> block.parentID == dstBlock.parentID && block.parentID !in old(contents)
      ensures block.parentID == dstBlock.parentID && block.parentID in old(contents) ==>
                var moved := Move(Entries(old(contents)[block.parentID]), block.id, dstBlock.id, after);
                && (r == NoSource <==> moved == NoSource) && (r == NoDestination <==> moved == NoDestination)
                && (r == NotStored <==> moved.Ok? && !stores)
                && (r == Ok(()) <==> moved.Ok? && stores)
                && (r == Ok(()) ==> contents == old(contents)[block.parentID := Order(moved.value)])
      ensures r != Ok(()) ==> contents == old(contents)
    {
      if block.parentID != dstBlock.parentID {
        return OtherParent;
      }
      if block.parentID !in contents {
        return NoParent;
      }
      var moved := Rebuild(Entries(contents[block.parentID]), block.id, dstBlock.id, after);
      match moved {
        case Ok(newContentOrder) =>
          if !stores {
            return NotStored;
          }
          contents := contents[block.parentID := Order(newContentOrder)];
          r := Ok(());
        case NoSource => r := NoSource;
        case _ => r := NoDestination;
      }
    }
  }

  // ----- what a move does to the order

  lemma {:induction false} TimesOnce(order: seq<Entry>, e: Entry)
    requires NoRepeats(order)
    ensures Times(order, e) == if e in order then 1 else 0
  {
    if order == [] {
    } else {
      TimesOnce(order[1..], e);
      assert order == [order[0]] + order[1..];
    }
  }

  lemma {:induction false} RebuiltNone(order: seq<Entry>, src: string, dst: string, after: bool)
    requires Id(dst) !in order
    ensures Rebuilt(order, src, dst, after) == Without(order, Id(src))
  {
    if order == [] {
    } else {
      RebuiltNone(order[1..], src, dst, after);
    }
  }

  /** The others stay in the same order. */
  lemma {:induction false} OthersStay(order: seq<Entry>, src: string, dst: string, after: bool)
    requires src != dst
    ensures Without(Rebuilt(order, src, dst, after), Id(src)) == Without(order, Id(src))
  {
    if order == [] {
    } else {
      OthersStay(order[1..], src, dst, after);
      var p := Piece(order[0], src, dst, after);
      WithoutJoin(p, Rebuilt(order[1..], src, dst, after), Id(src));
      assert [order[0], Id(src)][1..] == [Id(src)] && [Id(src), order[0]][1..] == [order[0]];
      assert Without([Id(src)], Id(src)) == [] && [Id(src)][1..] == [] && [order[0]][1..] == [];
    }
  }

  /** Where the source is before the move does not matter. */
  lemma {:induction false} RebuiltFromOthers(order: seq<Entry>, src: string, dst: string, after: bool)
    requires src != dst
    ensures Rebuilt(order, src, dst, after) == Rebuilt(Without(order, Id(src)), src, dst, after)
  {
    if order == [] {
    } else {
      RebuiltFromOthers(order[1..], src, dst, after);
    }
  }

  /** The source is directly after, or before, the other block. */
  ghost predicate Beside(order: seq<Entry>, src: string, other: string, after: bool) {
    exists k :: 0 <= k < |order| - 1 && order[k] == Id(if after then other else src) &&
      order[k + 1] == Id(if after then src else other)
  }

  /** An order with a block in it, split at the block. */
  ghost predicate SplitsAt(order: seq<Entry>, dst: string, a: seq<Entry>, b: seq<Entry>) {
    order == a + [Id(dst)] + b && Id(dst) !in a && Id(dst) !in b
  }

  lemma SplitAt(order: seq<Entry>, dst: string)
    requires NoRepeats(order) && Id(dst) in order
    ensures exists a, b :: SplitsAt(order, dst, a, b)
  {
    var k :| 0 <= k < |order| && order[k] == Id(dst);
    assert SplitsAt(order, dst, order[..k], order[k + 1..]);
  }

  lemma RebuiltSplit(a: seq<Entry>, b: seq<Entry>, src: string, dst: string, after: bool)
    requires src != dst && Id(dst) !in a && Id(dst) !in b
    ensures Rebuilt(a + [Id(dst)] + b, src, dst, after) ==
              Without(a, Id(src)) + (if after then [Id(dst), Id(src)] else [Id(src), Id(dst)]) + Without(b, Id(src))
  {
    RebuiltJoin(a + [Id(dst)], b, src, dst, after);
    RebuiltJoin(a, [Id(dst)], src, dst, after);
    RebuiltNone(a, src, dst, after);
    RebuiltNone(b, src, dst, after);
    var p := Piece(Id(dst), src, dst, after);
    assert [Id(dst)][1..] == [] && p + [] == p;
    assert Rebuilt([Id(dst)], src, dst, after) == p;
  }

  /** A move of a repeat-free order is a permutation that puts the source next to the destination and
      leaves the others in their order. */
  lemma MovePermutes(order: seq<Entry>, src: string, dst: string, after: bool, e: Entry)
    requires NoRepeats(order) && Move(order, src, dst, after).Ok?
    ensures var moved := Move(order, src, dst, after).value;
            && Times(moved, e) == Times(order, e)
            && Beside(moved, src, dst, after)
            && Without(moved, Id(src)) == Without(order, Id(src))
  {
    OthersStay(order, src, dst, after);
    SplitAt(order, dst);
    var a, b :| SplitsAt(order, dst, a, b);
    RebuiltSplit(a, b, src, dst, after);
    var moved := Rebuilt(order, src, dst, after);
    var x, y := Without(a, Id(src)), Without(b, Id(src));
    var pair := if after then [Id(dst), Id(src)] else [Id(src), Id(dst)];
    assert moved[|x|] == pair[0] && moved[|x| + 1] == pair[1];
    TimesOnce(order, e);
    TimesWithout(a, Id(src), e);
    TimesWithout(b, Id(src), e);
    TimesJoin(x + pair, y, e);
    TimesJoin(x, pair, e);
    TimesJoin(a + [Id(dst)], b, e);
    TimesJoin(a, [Id(dst)], e);
    assert Times([Id(dst)], e) == if e == Id(dst) then 1 else 0;
    assert pair[1..][1..] == [];
    assert Times(pair, e) == if e == Id(dst) || e == Id(src) then 1 else 0;
  }

  lemma {:induction false} TimesWithout(order: seq<Entry>, x: Entry, e: Entry)
    ensures Times(Without(order, x), e) == if e == x then 0 else Times(order, e)
  {
    if order == [] {
    } else {
      TimesWithout(order[1..], x, e);
    }
  }

  lemma Regroup<T>(a: seq<T>, x: T, y: T, b: seq<T>)
    ensures a + [x] + ([y] + b) == a + [x, y] + b
    ensures a + [x] + [y] + b == a + [x, y] + b
  {
    assert [x] + [y] == [x, y];
    assert a + [x] + [y] == a + ([x] + [y]);
    assert a + [x] + ([y] + b) == a + [x] + [y] + b;
  }

  lemma PutBackAfter(a: seq<Entry>, b: seq<Entry>, src: string, other: string)
    requires src != other && Id(other) !in a && Id(other) !in b && Id(src) !in a && Id(src) !in b
    ensures Rebuilt(a + [Id(other), Id(src)] + b, src, other, true) == a + [Id(other), Id(src)] + b
  {
    Regroup(a, Id(other), Id(src), b);
    assert Without([Id(src)] + b, Id(src)) == b by {
      WithoutNone(b, Id(src));
      assert ([Id(src)] + b)[1..] == b;
    }
    WithoutNone(a, Id(src));
    RebuiltSplit(a, [Id(src)] + b, src, other, true);
  }

  lemma PutBackBefore(a: seq<Entry>, b: seq<Entry>, src: string, other: string)
    requires src != other && Id(other) !in a && Id(other) !in b && Id(src) !in a && Id(src) !in b
    ensures Rebuilt(a + [Id(src), Id(other)] + b, src, other, false) == a + [Id(src), Id(other)] + b
  {
    Regroup(a, Id(src), Id(other), b);
    assert Without(a + [Id(src)], Id(src)) == a by {
      WithoutJoin(a, [Id(src)], Id(src));
      WithoutNone(a, Id(src));
      assert Without([Id(src)], Id(src)) == [] && a + [] == a;
    }
    WithoutNone(b, Id(src));
    RebuiltSplit(a + [Id(src)], b, src, other, false);
  }

  /** The parts of a repeat-free order around two neighbours. */
  ghost predicate SplitsAround(order: seq<Entry>, x: Entry, y: Entry, a: seq<Entry>, b: seq<Entry>) {
    && order == a + [x, y] + b && x != y
    && x !in a && x !in b && y !in a && y !in b
  }

  lemma SplitAround(order: seq<Entry>, k: nat, x: Entry, y: Entry)
    requires NoRepeats(order) && k + 1 < |order| && order[k] == x && order[k + 1] == y
    ensures exists a, b :: SplitsAround(order, x, y, a, b)
  {
    var a, b := order[..k], order[k + 2..];
    assert order[k..] == [x, y] + b;
    assert SplitsAround(order, x, y, a, b);
  }

  /** Putting the source back next to a block restores an order exactly if it was next to that block. */
  lemma PutBackIff(order: seq<Entry>, src: string, other: string, after: bool)
    requires NoRepeats(order) && Id(src) in order && Id(other) in order && src != other
    ensures Rebuilt(order, src, other, after) == order <==> Beside(order, src, other, after)
  {
    if Rebuilt(order, src, other, after) == order {
      MovePermutes(order, src, other, after, Id(src));
    }
    if Beside(order, src, other, after) {
      var k :| 0 <= k < |order| - 1 && order[k] == Id(if after then other else src) &&
        order[k + 1] == Id(if after then src else other);
      var x, y := order[k], order[k + 1];
      SplitAround(order, k, x, y);
      var a, b :| SplitsAround(order, x, y, a, b);
      if after {
        PutBackAfter(a, b, src, other);
      } else {
        PutBackBefore(a, b, src, other);
      }
    }
  }

  /** A second move of the same block undoes the first exactly if it goes to where the block was. */
  lemma UndoIff(order: seq<Entry>, src: string, dst: string, after: bool, back: string, backAfter: bool)
    requires NoRepeats(order) && Move(order, src, dst, after).Ok?
    ensures Move(Move(order, src, dst, after).value, src, back, backAfter) == Ok(order) <==>
              src != back && Beside(order, src, back, backAfter)
  {
    var moved := Move(order, src, dst, after).value;
    MovePermutes(order, src, dst, after, Id(src));
    if src != back {
      InWithout(order, Id(src), Id(back));
      InWithout(moved, Id(src), Id(back));
      assert Id(src) in moved by {
        var k :| 0 <= k < |moved| - 1 && moved[k] == Id(if after then dst else src) &&
          moved[k + 1] == Id(if after then src else dst);
      }
      RebuiltFromOthers(moved, src, back, backAfter);
      RebuiltFromOthers(order, src, back, backAfter);
      if Id(back) in order {
        PutBackIff(order, src, back, backAfter);
      }
    }
  }

  /** The place the client names to move back to: the one before, or for the first block the one after. */
  function UndoTarget(order: seq<Entry>, k: nat): Entry
    requires k < |order|
  {
    if k > 0 then order[k - 1] else if |order| > 1 then order[1] else Row([])
  }

  /** What the client sends for a place: the ID of a block; for a row whatever text its list turns into. */
  predicate Sent(e: Entry, back: string) {
    e.Id? ==> back == e.id
  }

  /** The client's undo works exactly if that neighbour is a block on its own, and not a row. */
  lemma ClientUndoIff(order: seq<Entry>, k: nat, dst: string, after: bool, back: string)
    requires NoRepeats(order) && k < |order| && order[k].Id? && Move(order, order[k].id, dst, after).Ok?
    requires Sent(UndoTarget(order, k), back)
    ensures Move(Move(order, order[k].id, dst, after).value, order[k].id, back, k > 0) == Ok(order) <==>
              UndoTarget(order, k).Id?
  {
    var src := order[k].id;
    assert |order| > 1 by {
      var d :| 0 <= d < |order| && order[d] == Id(dst);
      assert d != k;
    }
    UndoIff(order, src, dst, after, back, k > 0);
    if UndoTarget(order, k).Id? {
      BesideAt(order, src, back, k);
    }
  }

  lemma BesideAt(order: seq<Entry>, src: string, back: string, k: nat)
    requires NoRepeats(order) && 1 < |order| && k < |order| && order[k] == Id(src) && UndoTarget(order, k) == Id(back)
    ensures src != back && Beside(order, src, back, k > 0)
  {
    if k > 0 {
      assert order[k - 1] == Id(back) && order[k - 1 + 1] == Id(src);
    } else {
      assert order[k] == Id(src) && order[k + 1] == Id(back);
    }
  }
}
