/**
 Rows ordered by (queue_position, sequence), seen as a plain list of job numbers.

 A queue is given by the positions of its queued rows: a map from row number
 (sequence) to queue_position. Order lists the rows as the claim query sees them.
 Everything below says which list operation a change of one position amounts to.
 */
module QueueOrder {
  type Positions = map<int, int>

  // ---------- Plain lists ----------

  /** q without the members of s, in the same order. */
  function Reject<T(==)>(q: seq<T>, s: set<T>): seq<T> {
    if q == [] then []
    else (if q[0] in s then [] else [q[0]]) + Reject(q[1..], s)
  }

  /** The members of s that occur in q, in the order of q. */
  function Select<T(==)>(q: seq<T>, s: set<T>): seq<T> {
    if q == [] then []
    else (if q[0] in s then [q[0]] else []) + Select(q[1..], s)
  }

  function ToFront(q: seq<int>, id: int): seq<int> {
    [id] + Reject(q, {id})
  }

  function Renamed(x: int, a: int, b: int): int {
    if x == a then b else if x == b then a else x
  }

  /** q with the places of a and b exchanged. */
  function Exchange(q: seq<int>, a: int, b: int): (r: seq<int>)
    ensures |r| == |q|
    ensures forall i :: 0 <= i < |q| ==> r[i] == Renamed(q[i], a, b)
  {
    seq(|q|, i requires 0 <= i < |q| => Renamed(q[i], a, b))
  }

  ghost predicate Distinct<T(!new)>(q: seq<T>) {
    forall i, j :: 0 <= i < j < |q| ==> q[i] != q[j]
  }

  lemma {:induction false} RejectMembers<T>(q: seq<T>, s: set<T>)
    ensures forall x :: x in Reject(q, s) <==> x in q && x !in s
  {
    if q != [] { RejectMembers(q[1..], s); }
  }

  lemma {:induction false} SelectMembers<T>(q: seq<T>, s: set<T>)
    ensures forall x :: x in Select(q, s) <==> x in q && x in s
  {
    if q != [] { SelectMembers(q[1..], s); }
  }

  lemma {:induction false} RejectNothing<T>(q: seq<T>, s: set<T>)
    requires forall i :: 0 <= i < |q| ==> q[i] !in s
    ensures Reject(q, s) == q
  {
    if q != [] {
      RejectNothing(q[1..], s);
    }
  }

  lemma {:induction false} RejectConcat<T>(q: seq<T>, r: seq<T>, s: set<T>)
    ensures Reject(q + r, s) == Reject(q, s) + Reject(r, s)
  {
    if q == [] {
      assert q + r == r;
    } else {
      assert (q + r)[1..] == q[1..] + r;
      RejectConcat(q[1..], r, s);
    }
  }

  lemma {:induction false} RejectTwice<T>(q: seq<T>, s: set<T>, t: set<T>)
    ensures Reject(Reject(q, s), t) == Reject(q, s + t)
  {
    if q != [] {
      RejectTwice(q[1..], s, t);
      RejectConcat(if q[0] in s then [] else [q[0]], Reject(q[1..], s), t);
    }
  }

  /** Rejecting one member of a list without repetitions cuts out its place. */
  lemma {:induction false} RejectAt(q: seq<int>, k: int)
    requires 0 <= k < |q| && Distinct(q)
    ensures Reject(q, {q[k]}) == q[..k] + q[k + 1..]
  {
    var tail := q[1..];
    if k == 0 {
      RejectNothing(tail, {q[0]});
    } else {
      assert tail[k - 1] == q[k] && q[0] != q[k];
      RejectAt(tail, k - 1);
      assert q[..k] == [q[0]] + tail[..k - 1] && q[k + 1..] == tail[k..];
    }
  }

  // ---------- The listing of a table ----------

  /** The claim query's ordering: by position, then by row number. */
  predicate Before(pos: Positions, a: int, b: int)
    requires a in pos && b in pos
  {
    pos[a] < pos[b] || (pos[a] == pos[b] && a < b)
  }

  /** q lists every row of pos exactly once, in claim order. */
  ghost predicate Lists(pos: Positions, q: seq<int>) {
    && (forall i :: 0 <= i < |q| ==> q[i] in pos)
    && (forall id :: id in pos ==> id in q)
    && (forall i, j :: 0 <= i < j < |q| ==> Before(pos, q[i], q[j]))
  }

  /** Prepending a row that comes before all others extends the listing. */
  lemma ConsLists(pos: Positions, f: int, r: seq<int>)
    requires f in pos && Lists(pos - {f}, r)
    requires forall x :: x in pos && x != f ==> Before(pos, f, x)
    ensures Lists(pos, [f] + r)
  {
    var rest := pos - {f};
    forall id | id in pos ensures id in [f] + r {
      if id != f { assert id in rest; }
    }
    forall i, j | 0 <= i < j < |[f] + r| ensures Before(pos, ([f] + r)[i], ([f] + r)[j]) {
      assert r[j - 1] in rest;
      if 0 < i { assert r[i - 1] in rest && Before(rest, r[i - 1], r[j - 1]); }
    }
  }

  lemma Inhabited(s: set<int>)
    ensures s == {} || exists x :: x in s
  {
    if !(exists x :: x in s) { assert s == {}; }
  }

  lemma InhabitedMap(pos: Positions)
    ensures pos == map[] || exists x :: x in pos
  {
    if !(exists x :: x in pos) { assert pos == map[]; }
  }

  lemma Foremost(pos: Positions) returns (f: int)
    requires pos != map[]
    ensures f in pos && forall x :: x in pos && x != f ==> Before(pos, f, x)
    decreases pos.Keys
  {
    InhabitedMap(pos);
    var k :| k in pos;
    var rest := pos - {k};
    f := k;
    if rest != map[] {
      var g := Foremost(rest);
      f := if Before(pos, g, k) then g else k;
      forall x | x in rest && x != g ensures Before(pos, g, x) { assert Before(rest, g, x); }
    }
    forall x | x in pos && x != f ensures Before(pos, f, x) {
      if x != k { assert x in rest; }
    }
  }

  lemma FirstExists(pos: Positions)
    requires pos != map[]
    ensures exists f :: f in pos && forall x :: x in pos && x != f ==> Before(pos, f, x)
  {
    var f := Foremost(pos);
  }

  /** The row that "ORDER BY queue_position, sequence LIMIT 1" returns. */
  function First(pos: Positions): int
    requires pos != map[]
  {
    FirstExists(pos);
    var f :| f in pos && forall x :: x in pos && x != f ==> Before(pos, f, x);
    f
  }

  lemma FirstIsFirst(pos: Positions)
    requires pos != map[]
    ensures First(pos) in pos
    ensures forall x :: x in pos && x != First(pos) ==> Before(pos, First(pos), x)
  {
    FirstExists(pos);
  }

  function Order(pos: Positions): seq<int>
    decreases pos.Keys
  {
    if pos == map[] then []
    else
      FirstIsFirst(pos);
      [First(pos)] + Order(pos - {First(pos)})
  }

  lemma {:induction false} OrderLists(pos: Positions)
    ensures Lists(pos, Order(pos))
    decreases pos.Keys
  {
    if pos != map[] {
      FirstIsFirst(pos);
      OrderLists(pos - {First(pos)});
      ConsLists(pos, First(pos), Order(pos - {First(pos)}));
    }
  }

  lemma {:induction false} ListingUnique(pos: Positions, q: seq<int>, r: seq<int>)
    requires Lists(pos, q) && Lists(pos, r)
    ensures q == r
    decreases |q|
  {
    if q == [] {
      if r != [] { SameHead(pos, r, q); }
    } else {
      SameHead(pos, q, r);
      var rest := pos - {q[0]};
      TailLists(pos, q);
      TailLists(pos, r);
      ListingUnique(rest, q[1..], r[1..]);
      assert q == [q[0]] + q[1..] && r == [r[0]] + r[1..];
    }
  }

  lemma SameHead(pos: Positions, q: seq<int>, r: seq<int>)
    requires Lists(pos, q) && Lists(pos, r) && q != []
    ensures r != [] && q[0] == r[0]
  {
    assert q[0] in pos && q[0] in r && r[0] in pos && r[0] in q;
  }

  lemma TailLists(pos: Positions, q: seq<int>)
    requires Lists(pos, q) && q != []
    ensures Lists(pos - {q[0]}, q[1..])
  {
    var rest := pos - {q[0]};
    forall id | id in rest ensures id in q[1..] {
      assert id in q && id != q[0];
    }
    forall i | 0 <= i < |q[1..]| ensures q[1..][i] in rest {
      assert Before(pos, q[0], q[i + 1]);
    }
  }

  /** The listing of a table is the only one: showing Lists is enough. */
  lemma OrderIs(pos: Positions, q: seq<int>)
    requires Lists(pos, q)
    ensures Order(pos) == q
  {
    OrderLists(pos);
    ListingUnique(pos, Order(pos), q);
  }

  lemma OrderDistinct(pos: Positions)
    ensures Distinct(Order(pos))
    ensures forall id :: id in Order(pos) <==> id in pos
  {
    OrderLists(pos);
  }

  lemma OrderHead(pos: Positions)
    requires pos != map[]
    ensures Order(pos) != [] && Order(pos)[0] == First(pos)
    ensures Order(pos - {First(pos)}) == Order(pos)[1..]
  {
    OrderLists(pos);
    FirstIsFirst(pos);
    TailLists(pos, Order(pos));
    OrderIs(pos - {First(pos)}, Order(pos)[1..]);
  }

  // ---------- What one change of a position does to the list ----------

  lemma CutLists(pos: Positions, q: seq<int>, k: int)
    requires Lists(pos, q) && 0 <= k < |q|
    ensures Lists(pos - {q[k]}, q[..k] + q[k + 1..])
  {
    var r := q[..k] + q[k + 1..];
    forall x | x in pos - {q[k]} ensures x in r {
      var i :| 0 <= i < |q| && q[i] == x;
      assert r[if i < k then i else i - 1] == x;
    }
    forall i | 0 <= i < |r| ensures r[i] in pos - {q[k]} {
      var i' := if i < k then i else i + 1;
      assert r[i] == q[i'];
      assert if i' < k then Before(pos, q[i'], q[k]) else Before(pos, q[k], q[i']);
    }
    forall i, j | 0 <= i < j < |r| ensures Before(pos - {q[k]}, r[i], r[j]) {
      var i', j' := if i < k then i else i + 1, if j < k then j else j + 1;
      assert r[i] == q[i'] && r[j] == q[j'];
      assert Before(pos, q[i'], q[j']);
    }
  }

  /** Dropping a row (or changing its status) takes it out of the list, wherever it was. */
  lemma OrderRemove(pos: Positions, id: int)
    ensures Order(pos - {id}) == Reject(Order(pos), {id})
  {
    var q := Order(pos);
    OrderLists(pos);
    if id in pos {
      var k :| 0 <= k < |q| && q[k] == id;
      RejectAt(q, k);
      CutLists(pos, q, k);
      OrderIs(pos - {id}, q[..k] + q[k + 1..]);
    } else {
      assert pos - {id} == pos;
      RejectNothing(q, {id});
    }
  }

  /** A row placed after all others joins at the end. */
  lemma OrderPushBack(pos: Positions, id: int, p: int)
    requires forall x :: x in pos && x != id ==> pos[x] < p || (pos[x] == p && x < id)
    ensures Order(pos[id := p]) == Reject(Order(pos), {id}) + [id]
  {
    var others := pos - {id};
    OrderRemove(pos, id);
    OrderLists(others);
    var q := Order(others);
    forall i, j | 0 <= i < j < |q + [id]| ensures Before(pos[id := p], (q + [id])[i], (q + [id])[j]) {
      assert q[i] in others;
      if j < |q| { assert Before(others, q[i], q[j]); }
    }
    forall x | x in pos[id := p] ensures x in q + [id] {
      if x != id { assert x in others; }
    }
    OrderIs(pos[id := p], q + [id]);
  }

  /** A row given a position below all others moves to the front. */
  lemma OrderPushFront(pos: Positions, id: int, p: int)
    requires forall x :: x in pos && x != id ==> p < pos[x]
    ensures Order(pos[id := p]) == ToFront(Order(pos), id)
  {
    var others := pos - {id};
    OrderRemove(pos, id);
    OrderLists(others);
    assert pos[id := p] - {id} == others;
    ConsLists(pos[id := p], id, Order(others));
    OrderIs(pos[id := p], [id] + Order(others));
  }

  // ---------- Exchanging two positions ----------

  function Swapped(pos: Positions, a: int, b: int): Positions
    requires a in pos && b in pos
  {
    pos[a := pos[b]][b := pos[a]]
  }

  /**
   When writing a's position to b and b's to a exchanges their places and moves
   nothing else: the two positions differ, and no third row tied with one of them
   has a number between the two.
   */
  ghost predicate SwapIsClean(pos: Positions, a: int, b: int)
    requires a in pos && b in pos
  {
    a == b ||
    (pos[a] != pos[b] &&
     forall x :: x in pos && x != a && x != b && (pos[x] == pos[a] || pos[x] == pos[b]) ==> (x < a <==> x < b))
  }

  lemma SwapBefore(pos: Positions, a: int, b: int, x: int, y: int)
    requires a in pos && b in pos && x in pos && y in pos && x != y && SwapIsClean(pos, a, b)
    ensures Before(pos, x, y) ==> Before(Swapped(pos, a, b), Renamed(x, a, b), Renamed(y, a, b))
  {
  }

  lemma SwapExchanges(pos: Positions, a: int, b: int)
    requires a in pos && b in pos && SwapIsClean(pos, a, b)
    ensures Order(Swapped(pos, a, b)) == Exchange(Order(pos), a, b)
  {
    OrderLists(pos);
    SwapLists(pos, a, b, Order(pos), Exchange(Order(pos), a, b));
    OrderIs(Swapped(pos, a, b), Exchange(Order(pos), a, b));
  }

  lemma SwapLists(pos: Positions, a: int, b: int, q: seq<int>, r: seq<int>)
    requires a in pos && b in pos && SwapIsClean(pos, a, b) && Lists(pos, q) && r == Exchange(q, a, b)
    ensures Lists(Swapped(pos, a, b), r)
  {
    var pos' := Swapped(pos, a, b);
    forall x | x in pos' ensures x in r {
      var y := Renamed(x, a, b);
      var i :| 0 <= i < |q| && q[i] == y;
      assert r[i] == x;
    }
    forall i, j | 0 <= i < j < |r| ensures Before(pos', r[i], r[j]) {
      assert Before(pos, q[i], q[j]);
      SwapBefore(pos, a, b, q[i], q[j]);
    }
  }

  /** Renaming a to b and b to a carries the claim order over to the swapped positions. */
  ghost predicate CarriesOrder(pos: Positions, a: int, b: int)
    requires a in pos && b in pos
  {
    forall x, y :: x in pos && y in pos && Before(pos, x, y) ==>
      Before(Swapped(pos, a, b), Renamed(x, a, b), Renamed(y, a, b))
  }

  lemma ExchangeCarriesOrder(pos: Positions, a: int, b: int, q: seq<int>, r: seq<int>)
    requires a in pos && b in pos
    requires Lists(pos, q) && Lists(Swapped(pos, a, b), r) && r == Exchange(q, a, b)
    ensures CarriesOrder(pos, a, b)
  {
    forall x, y | x in pos && y in pos && Before(pos, x, y)
      ensures Before(Swapped(pos, a, b), Renamed(x, a, b), Renamed(y, a, b))
    {
      var i :| 0 <= i < |q| && q[i] == x;
      var j :| 0 <= j < |q| && q[j] == y;
      if j < i { assert false; }
      assert Before(Swapped(pos, a, b), r[i], r[j]);
    }
  }

  lemma CarriesOrderIsClean(pos: Positions, a: int, b: int)
    requires a in pos && b in pos && CarriesOrder(pos, a, b)
    ensures SwapIsClean(pos, a, b)
  {
    if a != b {
      assert Before(pos, a, b) || Before(pos, b, a);
      forall x | x in pos && x != a && x != b && (pos[x] == pos[a] || pos[x] == pos[b])
        ensures x < a <==> x < b
      {
        assert Before(pos, x, a) || Before(pos, a, x);
        assert Before(pos, x, b) || Before(pos, b, x);
      }
    }
  }

  /** Writing two positions crosswise exchanges two places of the list exactly when the swap is clean. */
  lemma SwapExchangesIffClean(pos: Positions, a: int, b: int)
    requires a in pos && b in pos
    ensures Order(Swapped(pos, a, b)) == Exchange(Order(pos), a, b) <==> SwapIsClean(pos, a, b)
  {
    if SwapIsClean(pos, a, b) {
      SwapExchanges(pos, a, b);
    }
    if Order(Swapped(pos, a, b)) == Exchange(Order(pos), a, b) {
      OrderLists(pos);
      OrderLists(Swapped(pos, a, b));
      ExchangeCarriesOrder(pos, a, b, Order(pos), Order(Swapped(pos, a, b)));
      CarriesOrderIsClean(pos, a, b);
    }
  }

  ghost predicate DistinctPositions(pos: Positions) {
    forall x, y :: x in pos && y in pos && x != y ==> pos[x] != pos[y]
  }

  lemma DistinctSwapIsClean(pos: Positions, a: int, b: int)
    requires a in pos && b in pos && DistinctPositions(pos)
    ensures SwapIsClean(pos, a, b) && DistinctPositions(Swapped(pos, a, b))
  {
  }

  // ---------- MIN and MAX ----------

  lemma Greatest(s: set<int>) returns (m: int)
    requires s != {}
    ensures m in s && forall x :: x in s ==> x <= m
    decreases |s|
  {
    Inhabited(s);
    var k :| k in s;
    var rest := s - {k};
    m := k;
    if rest != {} {
      var g := Greatest(rest);
      m := if g < k then k else g;
    }
    forall x | x in s ensures x <= m {
      if x != k { assert x in rest; }
    }
  }

  lemma GreatestExists(s: set<int>)
    requires s != {}
    ensures exists m :: m in s && forall x :: x in s ==> x <= m
  {
    var m := Greatest(s);
  }

  /** COALESCE(MAX(...), 0). */
  function MaxOrZero(s: set<int>): (m: int)
    ensures forall x :: x in s ==> x <= m
    ensures s == {} ==> m == 0
    ensures s != {} ==> m in s
  {
    if s == {} then 0
    else
      GreatestExists(s);
      var m :| m in s && forall x :: x in s ==> x <= m;
      m
  }

  /** MIN over a non-empty set of positions. */
  function Min(s: set<int>): (m: int)
    requires s != {}
    ensures m in s && forall x :: x in s ==> m <= x
  {
    var negated := set x | x in s :: -x;
    assert negated != {} by { Inhabited(s); var x :| x in s; assert -x in negated; }
    var m := MaxOrZero(negated);
    assert forall x :: x in s ==> -x in negated;
    -m
  }

  // ---------- List operations, as one type ----------

  /** What one queue operation does to the list of queued jobs. */
  datatype ListOp =
    | Keep
    | Push(id: int)
    | PushAll(ids: seq<int>)
    | Pop
    | Front(id: int)
    | Swap(a: int, b: int)
    | Drop(id: int)
    | DropAll

  function ApplyList(q: seq<int>, op: ListOp): seq<int> {
    match op
    case Keep => q
    case Push(id) => q + [id]
    case PushAll(ids) => q + ids
    case Pop => if q == [] then [] else q[1..]
    case Front(id) => ToFront(q, id)
    case Swap(a, b) => Exchange(q, a, b)
    case Drop(id) => Reject(q, {id})
    case DropAll => []
  }

  function ApplyListAll(q: seq<int>, ops: seq<ListOp>): seq<int>
    decreases |ops|
  {
    if ops == [] then q else ApplyListAll(ApplyList(q, ops[0]), ops[1..])
  }
}
