/** The kitchen's kanban board: four columns of orders (to prepare, in
    preparation, ready, delivered), moved forward by a button or by drag and
    drop, with a search filter over the cards and an "elapsed time" label. */
module KitchenBoard {
  import opened Text
  import opened Lists
  import opened Wrappers

  datatype Status = APreparar | EmPreparo | Pronto | Entregue

  /** The label the board stores in `Order.status`. */
  function StatusLabel(s: Status): string {
    match s
    case APreparar => "A PREPARAR"
    case EmPreparo => "EM PREPARO"
    case Pronto => "PRONTO"
    case Entregue => "ENTREGUE"
  }

  datatype OrderItem = OrderItem(name: string, qty: int)

  /** A card. `timestamp` is in milliseconds since the epoch. */
  datatype Order = Order(id: string, orderId: int, table: string, status: Status,
                         items: seq<OrderItem>, timestamp: int, justUpdated: bool)

  /** The four columns, left to right. */
  datatype Col = ToPrepareCol | InProgressCol | ReadyCol | DeliveredCol

  datatype Board = Board(toPrepare: seq<Order>, inProgress: seq<Order>, ready: seq<Order>, delivered: seq<Order>)

  function Column(b: Board, c: Col): seq<Order> {
    match c
    case ToPrepareCol => b.toPrepare
    case InProgressCol => b.inProgress
    case ReadyCol => b.ready
    case DeliveredCol => b.delivered
  }

  function WithColumn(b: Board, c: Col, s: seq<Order>): (r: Board)
    ensures Column(r, c) == s
    ensures forall d :: d != c ==> Column(r, d) == Column(b, d)
  {
    match c
    case ToPrepareCol => b.(toPrepare := s)
    case InProgressCol => b.(inProgress := s)
    case ReadyCol => b.(ready := s)
    case DeliveredCol => b.(delivered := s)
  }

  /** Replacing a column twice keeps only the second replacement. */
  lemma WithColumnTwice(b: Board, c: Col, s: seq<Order>, t: seq<Order>)
    ensures WithColumn(WithColumn(b, c, s), c, t) == WithColumn(b, c, t)
  {
  }

  /** Overwriting the element just inserted is inserting the new one. */
  lemma InsertAtReplace(s: seq<Order>, j: nat, x: Order, y: Order)
    requires j <= |s|
    ensures InsertAt(s, j, x)[j := y] == InsertAt(s, j, y)
  {
    assert InsertAt(s, j, x)[j := y] == s[..j] + [y] + s[j..];
  }

  /** The status a card in column `c` carries. */
  function ColumnStatus(c: Col): Status {
    match c
    case ToPrepareCol => APreparar
    case InProgressCol => EmPreparo
    case ReadyCol => Pronto
    case DeliveredCol => Entregue
  }

  /** The column a button press moves a card to. */
  function NextCol(c: Col): Col
    requires c != DeliveredCol
  {
    match c
    case ToPrepareCol => InProgressCol
    case InProgressCol => ReadyCol
    case ReadyCol => DeliveredCol
  }

  /** `c` is searched before `d` by the button handler. */
  predicate SearchedBefore(c: Col, d: Col) {
    (c == ToPrepareCol && d != ToPrepareCol) || (c == InProgressCol && (d == ReadyCol || d == DeliveredCol))
  }

  /** The same card with a new status and the "just updated" flag set. */
  function Restamp(o: Order, s: Status): Order {
    o.(status := s, justUpdated := true)
  }

  predicate AllHaveStatus(s: seq<Order>, st: Status) {
    forall k :: 0 <= k < |s| ==> s[k].status == st
  }

  /** Every card sits in the column that matches its status. */
  predicate Filed(b: Board) {
    forall c :: AllHaveStatus(Column(b, c), ColumnStatus(c))
  }

  function Total(b: Board): nat {
    |b.toPrepare| + |b.inProgress| + |b.ready| + |b.delivered|
  }

  /** The order numbers of a column's cards, in order. */
  function Ids(s: seq<Order>): (r: seq<int>)
    ensures |r| == |s| && forall k :: 0 <= k < |s| ==> r[k] == s[k].orderId
  {
    seq(|s|, k requires 0 <= k < |s| => s[k].orderId)
  }

  function BoardOrderIds(b: Board): multiset<int> {
    multiset(Ids(b.toPrepare)) + multiset(Ids(b.inProgress)) + multiset(Ids(b.ready)) + multiset(Ids(b.delivered))
  }

  lemma IdsRemoveAt(s: seq<Order>, i: nat)
    requires i < |s|
    ensures multiset(Ids(RemoveAt(s, i))) + multiset{s[i].orderId} == multiset(Ids(s))
  {
    assert Ids(RemoveAt(s, i)) == RemoveAt(Ids(s), i);
    RemoveAtMultiset(Ids(s), i);
  }

  lemma IdsInsertAt(s: seq<Order>, j: nat, o: Order)
    requires j <= |s|
    ensures multiset(Ids(InsertAt(s, j, o))) == multiset(Ids(s)) + multiset{o.orderId}
  {
    assert Ids(InsertAt(s, j, o)) == InsertAt(Ids(s), j, o.orderId);
    InsertAtMultiset(Ids(s), j, o.orderId);
  }

  lemma IdsAppendOne(s: seq<Order>, o: Order)
    ensures multiset(Ids(s + [o])) == multiset(Ids(s)) + multiset{o.orderId}
  {
    assert Ids(s + [o]) == Ids(s) + [o.orderId];
  }

  /** The first index of a card with order number `orderId`, or -1
      (`findIndex(o => o.orderId === orderId)`). */
  function IndexOfOrder(s: seq<Order>, orderId: int): (r: int)
    ensures -1 <= r < |s|
    ensures r >= 0 ==> s[r].orderId == orderId && forall k :: 0 <= k < r ==> s[k].orderId != orderId
    ensures r == -1 ==> forall k :: 0 <= k < |s| ==> s[k].orderId != orderId
  {
    IndexWhere(s, HasOrderId(orderId))
  }

  /** Whether a card carries the order number `orderId`. */
  function HasOrderId(orderId: int): Order -> bool {
    (o: Order) => o.orderId == orderId
  }

  /** The board after the "next status" button for `orderId`: the first column
      among to-prepare, in-preparation and ready that holds the order loses its
      first such card, which is appended to the next column with the next
      status. */
  function Advance(b: Board, orderId: int): Board {
    var i := IndexOfOrder(b.toPrepare, orderId);
    if i != -1 then
      b.(toPrepare := RemoveAt(b.toPrepare, i), inProgress := b.inProgress + [Restamp(b.toPrepare[i], EmPreparo)])
    else
      var j := IndexOfOrder(b.inProgress, orderId);
      if j != -1 then
        b.(inProgress := RemoveAt(b.inProgress, j), ready := b.ready + [Restamp(b.inProgress[j], Pronto)])
      else
        var k := IndexOfOrder(b.ready, orderId);
        if k != -1 then
          b.(ready := RemoveAt(b.ready, k), delivered := b.delivered + [Restamp(b.ready[k], Entregue)])
        else b
  }

  /** The button acts on the first column searched that holds the order: the
      first matching card leaves it, keeping the rest in order, and is
      appended to the next column with that column's status; the other
      columns are untouched. */
  lemma AdvanceMovesFirstMatch(b: Board, orderId: int, src: Col, i: nat)
    requires src != DeliveredCol
    requires forall c :: SearchedBefore(c, src) ==> IndexOfOrder(Column(b, c), orderId) == -1
    requires i < |Column(b, src)| && Column(b, src)[i].orderId == orderId
    requires forall k :: 0 <= k < i ==> Column(b, src)[k].orderId != orderId
    ensures Column(Advance(b, orderId), src) == RemoveAt(Column(b, src), i)
    ensures Column(Advance(b, orderId), NextCol(src))
         == Column(b, NextCol(src)) + [Restamp(Column(b, src)[i], ColumnStatus(NextCol(src)))]
    ensures forall c :: c != src && c != NextCol(src) ==> Column(Advance(b, orderId), c) == Column(b, c)
  {
    assert IndexOfOrder(Column(b, src), orderId) == i;
    if src == InProgressCol {
      assert SearchedBefore(ToPrepareCol, src);
    } else if src == ReadyCol {
      assert SearchedBefore(ToPrepareCol, src) && SearchedBefore(InProgressCol, src);
    }
  }

  /** An order that is only delivered, or on no card at all, changes nothing. */
  lemma AdvanceWithoutMatch(b: Board, orderId: int)
    requires forall k :: 0 <= k < |b.toPrepare| ==> b.toPrepare[k].orderId != orderId
    requires forall k :: 0 <= k < |b.inProgress| ==> b.inProgress[k].orderId != orderId
    requires forall k :: 0 <= k < |b.ready| ==> b.ready[k].orderId != orderId
    ensures Advance(b, orderId) == b
  {
  }

  /** Moving the card at `i` of `a`, restamped, to the end of `c` keeps the
      two columns' order numbers. */
  lemma MoveIds(a: seq<Order>, c: seq<Order>, i: nat, o: Order)
    requires i < |a| && o.orderId == a[i].orderId
    ensures multiset(Ids(RemoveAt(a, i))) + multiset(Ids(c + [o])) == multiset(Ids(a)) + multiset(Ids(c))
  {
    IdsRemoveAt(a, i);
    IdsAppendOne(c, o);
  }

  /** The button neither loses nor duplicates a card. */
  lemma AdvanceKeepsCards(b: Board, orderId: int)
    ensures Total(Advance(b, orderId)) == Total(b)
    ensures BoardOrderIds(Advance(b, orderId)) == BoardOrderIds(b)
  {
    var r := Advance(b, orderId);
    var p, g, y, d := multiset(Ids(b.toPrepare)), multiset(Ids(b.inProgress)), multiset(Ids(b.ready)), multiset(Ids(b.delivered));
    var i := IndexOfOrder(b.toPrepare, orderId);
    var j := IndexOfOrder(b.inProgress, orderId);
    var k := IndexOfOrder(b.ready, orderId);
    if i != -1 {
      MoveIds(b.toPrepare, b.inProgress, i, Restamp(b.toPrepare[i], EmPreparo));
      assert BoardOrderIds(r) == (multiset(Ids(r.toPrepare)) + multiset(Ids(r.inProgress))) + y + d;
    } else if j != -1 {
      MoveIds(b.inProgress, b.ready, j, Restamp(b.inProgress[j], Pronto));
      assert BoardOrderIds(r) == p + (multiset(Ids(r.inProgress)) + multiset(Ids(r.ready))) + d;
      assert BoardOrderIds(b) == p + (g + y) + d;
    } else if k != -1 {
      MoveIds(b.ready, b.delivered, k, Restamp(b.ready[k], Entregue));
      assert BoardOrderIds(r) == p + g + (multiset(Ids(r.ready)) + multiset(Ids(r.delivered)));
      assert BoardOrderIds(b) == p + g + (y + d);
    }
  }

  lemma AllHaveStatusAppend(s: seq<Order>, o: Order, st: Status)
    requires AllHaveStatus(s, st) && o.status == st
    ensures AllHaveStatus(s + [o], st)
  {
  }

  lemma AllHaveStatusRemoveAt(s: seq<Order>, i: nat, st: Status)
    requires i < |s| && AllHaveStatus(s, st)
    ensures AllHaveStatus(RemoveAt(s, i), st)
  {
  }

  /** A board is filed when each of its four columns is. */
  lemma FiledByColumns(b: Board)
    requires AllHaveStatus(b.toPrepare, APreparar) && AllHaveStatus(b.inProgress, EmPreparo)
    requires AllHaveStatus(b.ready, Pronto) && AllHaveStatus(b.delivered, Entregue)
    ensures Filed(b)
  {
    forall c ensures AllHaveStatus(Column(b, c), ColumnStatus(c)) {
      match c
      case ToPrepareCol =>
      case InProgressCol =>
      case ReadyCol =>
      case DeliveredCol =>
    }
  }

  /** A board whose cards all match their columns stays so under the button. */
  lemma AdvanceKeepsFiled(b: Board, orderId: int)
    requires Filed(b)
    ensures Filed(Advance(b, orderId))
  {
    assert AllHaveStatus(Column(b, ToPrepareCol), APreparar);
    assert AllHaveStatus(Column(b, InProgressCol), EmPreparo);
    assert AllHaveStatus(Column(b, ReadyCol), Pronto);
    assert AllHaveStatus(Column(b, DeliveredCol), Entregue);
    var i := IndexOfOrder(b.toPrepare, orderId);
    var j := IndexOfOrder(b.inProgress, orderId);
    var k := IndexOfOrder(b.ready, orderId);
    if i != -1 {
      AllHaveStatusRemoveAt(b.toPrepare, i, APreparar);
      AllHaveStatusAppend(b.inProgress, Restamp(b.toPrepare[i], EmPreparo), EmPreparo);
    } else if j != -1 {
      AllHaveStatusRemoveAt(b.inProgress, j, EmPreparo);
      AllHaveStatusAppend(b.ready, Restamp(b.inProgress[j], Pronto), Pronto);
    } else if k != -1 {
      AllHaveStatusRemoveAt(b.ready, k, Pronto);
      AllHaveStatusAppend(b.delivered, Restamp(b.ready[k], Entregue), Entregue);
    }
    FiledByColumns(Advance(b, orderId));
  }

  /** The status a drop target's element id assigns, if it is one of the four. */
  function StatusForListId(id: string): (r: Option<Status>)
    ensures r.Some? <==> id in {"toPrepareList", "inProgressList", "readyList", "deliveredList"}
  {
    if id == "toPrepareList" then Some(APreparar)
    else if id == "inProgressList" then Some(EmPreparo)
    else if id == "readyList" then Some(Pronto)
    else if id == "deliveredList" then Some(Entregue)
    else None
  }

  /** The element id of each column's drop list. */
  function ListId(c: Col): (r: string)
    ensures StatusForListId(r) == Some(ColumnStatus(c))
  {
    match c
    case ToPrepareCol => "toPrepareList"
    case InProgressCol => "inProgressList"
    case ReadyCol => "readyList"
    case DeliveredCol => "deliveredList"
  }

  /** The drag indices address an existing card, and, across columns, a
      position from the head to just past the end of the destination. */
  predicate DropInRange(b: Board, prev: Col, cur: Col, previousIndex: nat, currentIndex: nat) {
    if prev == cur then previousIndex < |Column(b, cur)| && currentIndex < |Column(b, cur)|
    else previousIndex < |Column(b, prev)| && currentIndex <= |Column(b, cur)|
  }

  /** The board after a card is dropped: within one column it is moved from
      `previousIndex` to `currentIndex`; across columns it is transferred and
      then takes the status named by the destination's element id, if any. */
  function Dropped(b: Board, prev: Col, cur: Col, containerId: string, previousIndex: nat, currentIndex: nat): Board
    requires DropInRange(b, prev, cur, previousIndex, currentIndex)
  {
    if prev == cur then WithColumn(b, cur, MoveItem(Column(b, cur), previousIndex, currentIndex))
    else
      var moved := Column(b, prev)[previousIndex];
      var st := StatusForListId(containerId);
      var card := if st.Some? then Restamp(moved, st.value) else moved;
      WithColumn(WithColumn(b, prev, RemoveAt(Column(b, prev), previousIndex)), cur,
                 InsertAt(Column(b, cur), currentIndex, card))
  }

  /** Within one column a drop only reorders it: the dragged card lands at
      `currentIndex`, the column holds the same cards (statuses included), and
      the other columns are untouched. */
  lemma DropWithinColumn(b: Board, c: Col, containerId: string, previousIndex: nat, currentIndex: nat)
    requires DropInRange(b, c, c, previousIndex, currentIndex)
    ensures var r := Dropped(b, c, c, containerId, previousIndex, currentIndex);
      multiset(Column(r, c)) == multiset(Column(b, c))
      && Column(r, c)[currentIndex] == Column(b, c)[previousIndex]
      && (forall d :: d != c ==> Column(r, d) == Column(b, d))
  {
  }

  /** Across columns the dragged card leaves its column and lands at
      `currentIndex` of the destination, with the status of the destination's
      id or, for an unknown id, with its old status. */
  lemma DropAcrossColumns(b: Board, prev: Col, cur: Col, containerId: string, previousIndex: nat, currentIndex: nat)
    requires prev != cur && DropInRange(b, prev, cur, previousIndex, currentIndex)
    ensures var r := Dropped(b, prev, cur, containerId, previousIndex, currentIndex);
      var moved := Column(b, prev)[previousIndex];
      Column(r, prev) == RemoveAt(Column(b, prev), previousIndex)
      && |Column(r, cur)| == |Column(b, cur)| + 1
      && Column(r, cur)[currentIndex].orderId == moved.orderId
      && (StatusForListId(containerId).Some? ==> Column(r, cur)[currentIndex] == Restamp(moved, StatusForListId(containerId).value))
      && (StatusForListId(containerId).None? ==> Column(r, cur)[currentIndex] == moved)
      && (forall d :: d != prev && d != cur ==> Column(r, d) == Column(b, d))
  {
  }

  lemma IdsPermuted(s: seq<Order>, t: seq<Order>)
    requires multiset(s) == multiset(t)
    ensures multiset(Ids(s)) == multiset(Ids(t))
    decreases |s|
  {
    if s != [] {
      assert s[0] in multiset(t);
      var k :| 0 <= k < |t| && t[k] == s[0];
      RemoveAtMultiset(s, 0);
      RemoveAtMultiset(t, k);
      IdsPermuted(RemoveAt(s, 0), RemoveAt(t, k));
      IdsRemoveAt(s, 0);
      IdsRemoveAt(t, k);
    } else {
      assert t == [];
    }
  }

  function ColumnIds(b: Board, c: Col): multiset<int> {
    multiset(Ids(Column(b, c)))
  }

  /** The order numbers of the columns other than `c1` and `c2`. */
  function OtherIds(b: Board, c1: Col, c2: Col): multiset<int> {
    (if ToPrepareCol != c1 && ToPrepareCol != c2 then ColumnIds(b, ToPrepareCol) else multiset{})
    + (if InProgressCol != c1 && InProgressCol != c2 then ColumnIds(b, InProgressCol) else multiset{})
    + (if ReadyCol != c1 && ReadyCol != c2 then ColumnIds(b, ReadyCol) else multiset{})
    + (if DeliveredCol != c1 && DeliveredCol != c2 then ColumnIds(b, DeliveredCol) else multiset{})
  }

  lemma BoardOrderIdsSplit(b: Board, c1: Col, c2: Col)
    requires c1 != c2
    ensures BoardOrderIds(b) == ColumnIds(b, c1) + ColumnIds(b, c2) + OtherIds(b, c1, c2)
  {
  }

  lemma OtherIdsSame(b: Board, r: Board, c1: Col, c2: Col)
    requires forall d :: d != c1 && d != c2 ==> Column(r, d) == Column(b, d)
    ensures OtherIds(r, c1, c2) == OtherIds(b, c1, c2)
  {
  }

  /** A column other than `c`. */
  function Another(c: Col): (r: Col)
    ensures r != c
  {
    if c == ToPrepareCol then InProgressCol else ToPrepareCol
  }

  /** What a drop does to each column. */
  lemma DroppedColumns(b: Board, prev: Col, cur: Col, containerId: string, previousIndex: nat, currentIndex: nat)
    requires DropInRange(b, prev, cur, previousIndex, currentIndex)
    ensures var r := Dropped(b, prev, cur, containerId, previousIndex, currentIndex);
      var moved := Column(b, prev)[previousIndex];
      var st := StatusForListId(containerId);
      (prev == cur ==> Column(r, cur) == MoveItem(Column(b, cur), previousIndex, currentIndex))
      && (prev != cur ==>
            (Column(r, prev) == RemoveAt(Column(b, prev), previousIndex)
             && Column(r, cur) == InsertAt(Column(b, cur), currentIndex, if st.Some? then Restamp(moved, st.value) else moved)))
      && (forall d :: d != prev && d != cur ==> Column(r, d) == Column(b, d))
  {
  }

  /** Two boards with the same order numbers in columns `c1` and `c2` and the
      same other columns have the same order numbers overall. */
  lemma SameIdsOutside(b: Board, r: Board, c1: Col, c2: Col)
    requires c1 != c2
    requires forall d :: d != c1 && d != c2 ==> Column(r, d) == Column(b, d)
    requires ColumnIds(r, c1) + ColumnIds(r, c2) == ColumnIds(b, c1) + ColumnIds(b, c2)
    ensures BoardOrderIds(r) == BoardOrderIds(b)
  {
    BoardOrderIdsSplit(r, c1, c2);
    BoardOrderIdsSplit(b, c1, c2);
    OtherIdsSame(b, r, c1, c2);
  }

  lemma DropWithinKeepsCards(b: Board, r: Board, c: Col)
    requires multiset(Column(r, c)) == multiset(Column(b, c))
    requires forall d :: d != c ==> Column(r, d) == Column(b, d)
    ensures Total(r) == Total(b) && BoardOrderIds(r) == BoardOrderIds(b)
  {
    IdsPermuted(Column(r, c), Column(b, c));
    SameIdsOutside(b, r, c, Another(c));
    assert |Column(r, c)| == |Column(b, c)| by {
      assert |multiset(Column(r, c))| == |multiset(Column(b, c))|;
    }
    assert Total(r) == |Column(r, ToPrepareCol)| + |Column(r, InProgressCol)| + |Column(r, ReadyCol)| + |Column(r, DeliveredCol)|;
    assert Total(b) == |Column(b, ToPrepareCol)| + |Column(b, InProgressCol)| + |Column(b, ReadyCol)| + |Column(b, DeliveredCol)|;
  }

  lemma DropAcrossKeepsCards(b: Board, r: Board, prev: Col, cur: Col, i: nat, j: nat, card: Order)
    requires prev != cur && i < |Column(b, prev)| && j <= |Column(b, cur)|
    requires card.orderId == Column(b, prev)[i].orderId
    requires Column(r, prev) == RemoveAt(Column(b, prev), i)
    requires Column(r, cur) == InsertAt(Column(b, cur), j, card)
    requires forall d :: d != prev && d != cur ==> Column(r, d) == Column(b, d)
    ensures Total(r) == Total(b) && BoardOrderIds(r) == BoardOrderIds(b)
  {
    IdsRemoveAt(Column(b, prev), i);
    IdsInsertAt(Column(b, cur), j, card);
    SameIdsOutside(b, r, cur, prev);
    assert Total(r) == |Column(r, ToPrepareCol)| + |Column(r, InProgressCol)| + |Column(r, ReadyCol)| + |Column(r, DeliveredCol)|;
    assert Total(b) == |Column(b, ToPrepareCol)| + |Column(b, InProgressCol)| + |Column(b, ReadyCol)| + |Column(b, DeliveredCol)|;
  }

  /** A drop neither loses nor duplicates a card. */
  lemma DropKeepsCards(b: Board, prev: Col, cur: Col, containerId: string, previousIndex: nat, currentIndex: nat)
    requires DropInRange(b, prev, cur, previousIndex, currentIndex)
    ensures var r := Dropped(b, prev, cur, containerId, previousIndex, currentIndex);
      Total(r) == Total(b) && BoardOrderIds(r) == BoardOrderIds(b)
  {
    var r := Dropped(b, prev, cur, containerId, previousIndex, currentIndex);
    DroppedColumns(b, prev, cur, containerId, previousIndex, currentIndex);
    if prev == cur {
      DropWithinKeepsCards(b, r, cur);
    } else {
      var moved := Column(b, prev)[previousIndex];
      var st := StatusForListId(containerId);
      DropAcrossKeepsCards(b, r, prev, cur, previousIndex, currentIndex, if st.Some? then Restamp(moved, st.value) else moved);
    }
  }

  lemma AllHaveStatusPermuted(s: seq<Order>, t: seq<Order>, st: Status)
    requires AllHaveStatus(s, st) && multiset(s) == multiset(t)
    ensures AllHaveStatus(t, st)
  {
    forall k | 0 <= k < |t| ensures t[k].status == st {
      assert t[k] in multiset(s);
    }
  }

  lemma AllHaveStatusRemoveInsert(s: seq<Order>, i: nat, t: seq<Order>, j: nat, o: Order, st: Status, st': Status)
    requires i < |s| && j <= |t|
    requires AllHaveStatus(s, st) && AllHaveStatus(t, st') && o.status == st'
    ensures AllHaveStatus(RemoveAt(s, i), st) && AllHaveStatus(InsertAt(t, j, o), st')
  {
  }

  /** A board that differs from a filed board only in columns `c1` and `c2`,
      both of which are filed, is filed. */
  lemma FiledOutside(b: Board, r: Board, c1: Col, c2: Col)
    requires Filed(b)
    requires AllHaveStatus(Column(r, c1), ColumnStatus(c1)) && AllHaveStatus(Column(r, c2), ColumnStatus(c2))
    requires forall d :: d != c1 && d != c2 ==> Column(r, d) == Column(b, d)
    ensures Filed(r)
  {
    forall c ensures AllHaveStatus(Column(r, c), ColumnStatus(c)) {
      assert AllHaveStatus(Column(b, c), ColumnStatus(c));
    }
  }

  /** Dropping onto a column's own list keeps every card in the column that
      matches its status. */
  lemma DropKeepsFiled(b: Board, prev: Col, cur: Col, previousIndex: nat, currentIndex: nat)
    requires Filed(b) && DropInRange(b, prev, cur, previousIndex, currentIndex)
    ensures Filed(Dropped(b, prev, cur, ListId(cur), previousIndex, currentIndex))
  {
    var r := Dropped(b, prev, cur, ListId(cur), previousIndex, currentIndex);
    DroppedColumns(b, prev, cur, ListId(cur), previousIndex, currentIndex);
    assert AllHaveStatus(Column(b, cur), ColumnStatus(cur));
    assert AllHaveStatus(Column(b, prev), ColumnStatus(prev));
    if prev == cur {
      AllHaveStatusPermuted(Column(b, cur), Column(r, cur), ColumnStatus(cur));
    } else {
      var moved := Column(b, prev)[previousIndex];
      AllHaveStatusRemoveInsert(Column(b, prev), previousIndex, Column(b, cur), currentIndex,
                                Restamp(moved, ColumnStatus(cur)), ColumnStatus(prev), ColumnStatus(cur));
    }
    FiledOutside(b, r, prev, cur);
  }

  /** The search test for one card against a lower-cased, trimmed query: the
      order number's text, the lower-cased table, or some lower-cased item name
      contains it. */
  predicate MatchesQuery(o: Order, q: string) {
    Contains(IntToString(o.orderId), q)
    || (o.table != "" && Contains(Lower(o.table), q))
    || exists i :: 0 <= i < |o.items| && Contains(Lower(o.items[i].name), q)
  }

  /** The cards of `list` shown for the search text `query`. */
  function FilterOrders(list: seq<Order>, query: string): (r: seq<Order>)
    ensures Trim(Lower(query)) == "" ==> r == list
    ensures Trim(Lower(query)) != "" ==>
      SubseqOf(r, list)
      && (forall i :: 0 <= i < |r| ==> MatchesQuery(r[i], Trim(Lower(query))))
      && (forall i :: 0 <= i < |list| && MatchesQuery(list[i], Trim(Lower(query))) ==> list[i] in r)
      && (forall o :: multiset(r)[o] == if MatchesQuery(o, Trim(Lower(query))) then multiset(list)[o] else 0)
  {
    var q := Trim(Lower(query));
    if q == "" then list
    else
      FilterIsSubseq(list, o => MatchesQuery(o, q));
      FilterCount(list, o => MatchesQuery(o, q));
      Filter(list, o => MatchesQuery(o, q))
  }

  /** "há N unidade(s)" */
  function Ago(n: nat, unit: string): string {
    "há " + NatToString(n) + " " + unit + (if n > 1 then "s" else "")
  }

  /** The label for a card created at `timestampMs` when the clock reads `nowMs`. */
  function GetTimeElapsed(nowMs: int, timestampMs: int): (r: string)
    ensures StartsWith(r, "há ")
  {
    var diffInSeconds := (nowMs - timestampMs) / 1000;
    if diffInSeconds < 60 then "há alguns segundos"
    else if diffInSeconds < 3600 then Ago(diffInSeconds / 60, "minuto")
    else Ago(diffInSeconds / 3600, "hora")
  }

  lemma ElapsedSeconds(nowMs: int, timestampMs: int)
    requires nowMs - timestampMs < 60000
    ensures GetTimeElapsed(nowMs, timestampMs) == "há alguns segundos"
  {
  }

  /** Between m and m + 1 whole minutes (under an hour) the label counts m
      minutes, in the singular only for one. */
  lemma ElapsedMinutes(nowMs: int, timestampMs: int, m: nat)
    requires 1 <= m < 60 && m * 60000 <= nowMs - timestampMs < (m + 1) * 60000
    ensures GetTimeElapsed(nowMs, timestampMs) == "há " + NatToString(m) + (if m == 1 then " minuto" else " minutos")
  {
    var e := nowMs - timestampMs;
    var d := e / 1000;
    assert d * 1000 <= e < d * 1000 + 1000;
    assert m * 60 <= d < m * 60 + 60;
    assert d / 60 == m;
  }

  /** From h to h + 1 whole hours the label counts h hours, in the singular only
      for one. */
  lemma ElapsedHours(nowMs: int, timestampMs: int, h: nat)
    requires 1 <= h && h * 3600000 <= nowMs - timestampMs < (h + 1) * 3600000
    ensures GetTimeElapsed(nowMs, timestampMs) == "há " + NatToString(h) + (if h == 1 then " hora" else " horas")
  {
    var e := nowMs - timestampMs;
    var d := e / 1000;
    assert d * 1000 <= e < d * 1000 + 1000;
    assert h * 3600 <= d < h * 3600 + 3600;
    assert d / 3600 == h;
  }

  /** The sample cards the board starts with, `nowMs` being the time it is created. */
  function SampleBoard(nowMs: int): (r: Board)
    ensures Filed(r) && Total(r) == 5
  {
    Board(
      [Order("1", 100, "", APreparar, [OrderItem("Pizza Margherita", 1), OrderItem("Batata Frita", 1)], nowMs - 5 * 60 * 1000, false),
       Order("2", 101, "", APreparar, [OrderItem("Refrigerante 600ml", 2), OrderItem("Pizza Pepperoni", 1)], nowMs - 3 * 60 * 1000, false)],
      [Order("3", 98, "", EmPreparo, [OrderItem("Pizza Quatro Queijos", 1)], nowMs - 9 * 60 * 1000, false)],
      [Order("4", 97, "", Pronto, [OrderItem("Pizza Chocolate", 1)], nowMs - 15 * 60 * 1000, false)],
      [Order("5", 96, "", Entregue, [OrderItem("Refrigerante 2L", 1)], nowMs - 20 * 60 * 1000, false)])
  }

  /** `findIndex` on a column, as the button handler runs it. */
  method FindIndex(s: seq<Order>, orderId: int) returns (idx: int)
    ensures idx == IndexOfOrder(s, orderId)
  {
    var k := 0;
    while k < |s|
      invariant 0 <= k <= |s|
      invariant forall j :: 0 <= j < k ==> s[j].orderId != orderId
    {
      if s[k].orderId == orderId {
        return k;
      }
      k := k + 1;
    }
    return -1;
  }

  /** The board component's state. */
  class Painel {
    var toPrepare: seq<Order>
    var inProgress: seq<Order>
    var ready: seq<Order>
    var delivered: seq<Order>
    var searchQuery: string

    function Snapshot(): Board
      reads this
    {
      Board(toPrepare, inProgress, ready, delivered)
    }

    constructor (nowMs: int)
      ensures Snapshot() == SampleBoard(nowMs) && searchQuery == ""
    {
      var b := SampleBoard(nowMs);
      toPrepare, inProgress, ready, delivered := b.toPrepare, b.inProgress, b.ready, b.delivered;
      searchQuery := "";
    }

    /** Replaces one column. */
    method SetColumn(c: Col, s: seq<Order>)
      modifies this
      ensures Snapshot() == WithColumn(old(Snapshot()), c, s)
      ensures searchQuery == old(searchQuery)
    {
      match c
      case ToPrepareCol => toPrepare := s;
      case InProgressCol => inProgress := s;
      case ReadyCol => ready := s;
      case DeliveredCol => delivered := s;
    }

    /** The "next status" button for `orderId`. */
    method MoveOrderToNextStatus(orderId: int)
      modifies this
      ensures Snapshot() == Advance(old(Snapshot()), orderId)
      ensures searchQuery == old(searchQuery)
    {
      var i := FindIndex(toPrepare, orderId);
      if i != -1 {
        var order := toPrepare[i];
        toPrepare := RemoveAt(toPrepare, i);
        inProgress := inProgress + [Restamp(order, EmPreparo)];
        return;
      }
      i := FindIndex(inProgress, orderId);
      if i != -1 {
        var order := inProgress[i];
        inProgress := RemoveAt(inProgress, i);
        ready := ready + [Restamp(order, Pronto)];
        return;
      }
      i := FindIndex(ready, orderId);
      if i != -1 {
        var order := ready[i];
        ready := RemoveAt(ready, i);
        delivered := delivered + [Restamp(order, Entregue)];
        return;
      }
    }

    /** A card dragged from column `prev` at `previousIndex` and dropped on
        column `cur`, whose element id is `containerId`, at `currentIndex`. */
    method Drop(prev: Col, cur: Col, containerId: string, previousIndex: nat, currentIndex: nat)
      requires DropInRange(Snapshot(), prev, cur, previousIndex, currentIndex)
      modifies this
      ensures Snapshot() == Dropped(old(Snapshot()), prev, cur, containerId, previousIndex, currentIndex)
      ensures searchQuery == old(searchQuery)
    {
      ghost var b := Snapshot();
      if prev == cur {
        SetColumn(cur, MoveItem(Column(Snapshot(), cur), previousIndex, currentIndex));
        return;
      }
      var moved := Column(Snapshot(), prev)[previousIndex];
      SetColumn(prev, RemoveAt(Column(Snapshot(), prev), previousIndex));
      ghost var removed := Snapshot();
      SetColumn(cur, InsertAt(Column(Snapshot(), cur), currentIndex, moved));
      var newStatus := StatusForListId(containerId);
      if newStatus.None? {
        return;
      }
      var dest := Column(Snapshot(), cur);
      InsertAtReplace(Column(b, cur), currentIndex, moved, Restamp(moved, newStatus.value));
      SetColumn(cur, dest[currentIndex := Restamp(dest[currentIndex], newStatus.value)]);
      WithColumnTwice(removed, cur, InsertAt(Column(b, cur), currentIndex, moved),
                      InsertAt(Column(b, cur), currentIndex, Restamp(moved, newStatus.value)));
    }
  }
}
