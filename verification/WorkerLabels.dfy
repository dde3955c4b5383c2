/**
 The short worker labels of the job table (cli/list.go), and that a label typed back to the
 controller finds the worker it stands for. Ids are ASCII, so Go's byte order is the order
 of characters.
 */
module WorkerLabels {
  import opened Wrappers
  import opened WorkerLookup
  import SchedulerModel

  // ---------- Order and common prefixes ----------

  /** The order of sort.Strings. */
  predicate Less(a: string, b: string) {
    b != "" && (a == "" || a[0] < b[0] || (a[0] == b[0] && Less(a[1..], b[1..])))
  }

  ghost predicate Sorted(s: seq<string>) {
    forall i, j :: 0 <= i < j < |s| ==> Less(s[i], s[j])
  }

  lemma {:induction false} LessTotal(a: string, b: string)
    ensures a == b || Less(a, b) || Less(b, a)
    ensures Less(a, b) ==> !Less(b, a) && a != b
  {
    if a != "" && b != "" && a[0] == b[0] {
      LessTotal(a[1..], b[1..]);
      if a[1..] == b[1..] { assert a == [a[0]] + a[1..] && b == [b[0]] + b[1..]; }
    }
  }

  lemma {:induction false} LessTransitive(a: string, b: string, c: string)
    requires Less(a, b) && Less(b, c)
    ensures Less(a, c)
  {
    if a != "" && a[0] == b[0] == c[0] {
      LessTransitive(a[1..], b[1..], c[1..]);
    }
  }

  /** How many characters two ids share at the front. */
  function Common(a: string, b: string): (n: nat)
    ensures n <= |a| && n <= |b|
  {
    if a == "" || b == "" || a[0] != b[0] then 0 else 1 + Common(a[1..], b[1..])
  }

  lemma {:induction false} CommonSymmetric(a: string, b: string)
    ensures Common(a, b) == Common(b, a)
  {
    if a != "" && b != "" && a[0] == b[0] { CommonSymmetric(a[1..], b[1..]); }
  }

  /** The common prefix is the longest prefix that both have. */
  lemma {:induction false} CommonIsLongest(a: string, b: string, n: nat)
    requires n <= |a| && n <= |b|
    ensures a[..n] == b[..n] <==> n <= Common(a, b)
  {
    if n > 0 {
      if a[0] == b[0] {
        CommonIsLongest(a[1..], b[1..], n - 1);
        assert a[..n] == [a[0]] + a[1..][..n - 1] && b[..n] == [b[0]] + b[1..][..n - 1];
      } else {
        assert a[..n][0] == a[0] && b[..n][0] == b[0];
      }
    }
  }

  /** Of three ids in order, the outer two share no more than either shares with the middle one. */
  lemma {:induction false} NeighboursShareMost(a: string, b: string, c: string)
    requires Less(a, b) && Less(b, c)
    ensures Common(a, c) <= Common(a, b) && Common(a, c) <= Common(b, c)
  {
    if a != "" && a[0] == b[0] == c[0] {
      NeighboursShareMost(a[1..], b[1..], c[1..]);
    }
  }

  // ---------- Labels ----------

  function Min(a: int, b: int): int {
    if a < b then a else b
  }

  function Max(a: int, b: int): int {
    if a < b then b else a
  }

  /** The length at which a prefix of id differs from other, or all of id. */
  function Need(id: string, other: string): int {
    Min(Common(id, other) + 1, |id|)
  }

  /**
   A label is the shortest prefix of at least eight characters (or all of the id) that is long
   enough to tell its id from every other.
   */
  ghost predicate IsLabel(ids: set<string>, id: string, short: string) {
    && short <= id
    && Min(8, |id|) <= |short|
    && (forall other :: other in ids && other != id ==> Need(id, other) <= |short|)
    && (|short| == Min(8, |id|) || exists other :: other in ids && other != id && |short| == Need(id, other))
  }

  ghost predicate AreLabels(ids: set<string>, labels: map<string, string>) {
    labels.Keys == ids && forall id :: id in ids ==> IsLabel(ids, id, labels[id])
  }

  /** There is one right label for each id. */
  lemma LabelUnique(ids: set<string>, id: string, a: string, b: string)
    requires IsLabel(ids, id, a) && IsLabel(ids, id, b)
    ensures a == b
  {
    assert |a| == |b|;
  }

  /** A label is a prefix of no other id, unless it is a whole id itself. */
  lemma LabelSeparates(ids: set<string>, id: string, short: string, other: string)
    requires id in ids && other in ids && other != id && IsLabel(ids, id, short)
    ensures short == id || !(short <= other)
  {
    if short != id && short <= other {
      CommonIsLongest(id, other, |short|);
      assert false;
    }
  }

  /** Different workers have different labels. */
  lemma LabelsDistinct(ids: set<string>, labels: map<string, string>, a: string, b: string)
    requires AreLabels(ids, labels) && a in ids && b in ids && a != b
    ensures labels[a] != labels[b]
  {
    LabelSeparates(ids, a, labels[a], b);
    LabelSeparates(ids, b, labels[b], a);
  }

  /** Over the workers that were listed, or any of them, a label finds its worker. */
  lemma LabelFindsWorker(ids: set<string>, some: set<string>, id: string, short: string)
    requires some <= ids && id in some && IsLabel(ids, id, short)
    ensures Lookup(some, short) == Unique(id)
  {
    LookupFinds(some, short, id);
    if short != id {
      forall v | v in some && short <= v ensures v == id {
        if v != id { LabelSeparates(ids, id, short, v); }
      }
      assert short <= short;
      assert short !in some;
    }
  }

  /** So pausing by label pauses the worker it was shown for, while no worker is registered that was not listed. */
  lemma LabelPausesItsWorker(ids: set<string>, db: SchedulerModel.Db, id: string, short: string, paused: bool)
    requires db.workers.Keys <= ids && id in db.workers && IsLabel(ids, id, short)
    ensures SchedulerModel.SetPaused(db, short, paused) ==
            (db.(workers := db.workers[id := db.workers[id].(paused := paused)]), Ok(id))
  {
    LabelFindsWorker(ids, db.workers.Keys, id, short);
  }

  /**
   Over any larger set of workers a label finds its worker or is ambiguous, unless it is
   itself the full id of another worker; only then does it name that other worker.
   */
  lemma LabelAmongMore(ids: set<string>, more: set<string>, id: string, short: string)
    requires ids <= more && id in ids && IsLabel(ids, id, short)
    ensures Lookup(more, short) == Unique(id) || Lookup(more, short).Ambiguous? <==> short == id || short !in more
    ensures !(short == id || short !in more) ==> Lookup(more, short) == Unique(short)
  {
    var matches := set w | w in more && short <= w;
    assert id in matches;
    if short !in more && Lookup(more, short).Unique? {
      LookupFinds(more, short, Lookup(more, short).id);
    }
  }

  /** With ids of one length a label never names another worker. */
  lemma EqualLengthsNeverMislead(ids: set<string>, more: set<string>, id: string, short: string, n: nat)
    requires ids <= more && id in ids && IsLabel(ids, id, short) && forall w :: w in more ==> |w| == n
    ensures Lookup(more, short) == Unique(id) || Lookup(more, short).Ambiguous?
  {
    LabelAmongMore(ids, more, id, short);
    if short in more { assert short == id; }
  }

  /** With ids of different lengths it may: the label of the longer one is the whole of the shorter. */
  lemma LabelCanMislead() returns (id: string, other: string, short: string)
    ensures id != other && IsLabel({id}, id, short) && Lookup({id, other}, short) == Unique(other)
  {
    id, other := "worker-10", "worker-1";
    short := "worker-1";
    assert id[..8] == short;
  }

  // ---------- Building the labels ----------

  /** Comparing an id with its two sorted neighbours is enough. */
  lemma NeighboursSuffice(ids: seq<string>, i: nat, k: nat)
    requires Sorted(ids) && i < |ids| && k < |ids| && k != i
    ensures Need(ids[i], ids[k]) <= Need(ids[i], ids[if k < i then i - 1 else i + 1])
  {
    var a, b := ids[i], ids[k];
    if k < i - 1 {
      NeighboursShareMost(b, ids[i - 1], a);
      CommonSymmetric(a, b);
      CommonSymmetric(a, ids[i - 1]);
    } else if k > i + 1 {
      NeighboursShareMost(a, ids[i + 1], b);
    }
  }

  function NeedAt(ids: seq<string>, i: nat, k: int): int
    requires i < |ids|
  {
    if 0 <= k < |ids| then Need(ids[i], ids[k]) else 0
  }

  function LabelLength(ids: seq<string>, i: nat): int
    requires i < |ids|
  {
    Max(Max(Min(8, |ids[i]|), NeedAt(ids, i, i - 1)), NeedAt(ids, i, i + 1))
  }

  lemma LengthIsRight(ids: seq<string>, i: nat, all: set<string>)
    requires Sorted(ids) && i < |ids| && forall id :: id in all <==> id in ids
    ensures 0 <= LabelLength(ids, i) <= |ids[i]|
    ensures IsLabel(all, ids[i], ids[i][..LabelLength(ids, i)])
  {
    var id, n := ids[i], LabelLength(ids, i);
    forall other | other in all && other != id ensures Need(id, other) <= n {
      var k :| 0 <= k < |ids| && ids[k] == other;
      NeighboursSuffice(ids, i, k);
    }
    if i > 0 { LessTotal(ids[i - 1], id); assert ids[i - 1] in all; }
    if i + 1 < |ids| { LessTotal(id, ids[i + 1]); assert ids[i + 1] in all; }
  }

  method CommonPrefix(id: string, other: string) returns (common: nat)
    ensures common == Common(id, other)
  {
    common := 0;
    while common < |id| && common < |other| && id[common] == other[common]
      invariant common <= |id| && common <= |other|
      invariant common + Common(id[common..], other[common..]) == Common(id, other)
    {
      assert id[common..][1..] == id[common + 1..] && other[common..][1..] == other[common + 1..];
      common := common + 1;
    }
  }

  method InsertSorted(s: seq<string>, x: string) returns (r: seq<string>)
    requires Sorted(s) && x !in s
    ensures Sorted(r) && forall y :: y in r <==> y == x || y in s
  {
    var i := 0;
    while i < |s| && Less(s[i], x)
      invariant 0 <= i <= |s|
      invariant forall k :: 0 <= k < i ==> Less(s[k], x)
    {
      i := i + 1;
    }
    InsertedSorted(s, x, i);
    r := s[..i] + [x] + s[i..];
  }

  lemma InsertedSorted(s: seq<string>, x: string, i: nat)
    requires Sorted(s) && x !in s && i <= |s| && (forall k :: 0 <= k < i ==> Less(s[k], x)) && (i < |s| ==> !Less(s[i], x))
    ensures Sorted(s[..i] + [x] + s[i..])
    ensures forall y :: y in s[..i] + [x] + s[i..] <==> y == x || y in s
  {
    forall k | i <= k < |s| ensures Less(x, s[k]) {
      LessTotal(s[i], x);
      if k > i { LessTransitive(x, s[i], s[k]); }
    }
    assert s == s[..i] + s[i..];
  }

  method SortStrings(ids: set<string>) returns (s: seq<string>)
    ensures Sorted(s) && forall id :: id in ids <==> id in s
  {
    s := [];
    var left := ids;
    while left != {}
      invariant left <= ids && Sorted(s)
      invariant forall id :: id in s <==> id in ids - left
      decreases |left|
    {
      var id :| id in left;
      s := InsertSorted(s, id);
      left := left - {id};
    }
  }

  /** The id under which a job's worker is listed; a job that no worker holds shows a dash. */
  function Shown(worker: Option<string>): string {
    if worker.Some? then worker.value else "-"
  }

  ghost predicate ListsIds(listings: seq<seq<Option<string>>>, ids: set<string>) {
    forall id :: id in ids <==> exists a, b :: 0 <= a < |listings| && 0 <= b < |listings[a]| && Shown(listings[a][b]) == id
  }

  method ListedIds(listings: seq<seq<Option<string>>>) returns (labels: map<string, string>)
    ensures ListsIds(listings, labels.Keys)
  {
    labels := map[];
    var a := 0;
    while a < |listings|
      invariant 0 <= a <= |listings|
      invariant ListsIds(listings[..a], labels.Keys)
    {
      var b := 0;
      ghost var before := labels.Keys;
      while b < |listings[a]|
        invariant 0 <= b <= |listings[a]|
        invariant forall id :: id in labels.Keys <==> id in before || exists k :: 0 <= k < b && Shown(listings[a][k]) == id
      {
        labels := labels[Shown(listings[a][b]) := Shown(listings[a][b])];
        b := b + 1;
      }
      ListingAdded(listings, a, before, labels.Keys);
      a := a + 1;
    }
    assert listings[..a] == listings;
  }

  lemma ListingAdded(listings: seq<seq<Option<string>>>, a: nat, before: set<string>, after: set<string>)
    requires a < |listings| && ListsIds(listings[..a], before)
    requires forall id :: id in after <==> id in before || exists k :: 0 <= k < |listings[a]| && Shown(listings[a][k]) == id
    ensures ListsIds(listings[..a + 1], after)
  {
    var old_, new_ := listings[..a], listings[..a + 1];
    forall id ensures id in after <==> exists i, b :: 0 <= i < |new_| && 0 <= b < |new_[i]| && Shown(new_[i][b]) == id {
      if id in before {
        var i, b :| 0 <= i < |old_| && 0 <= b < |old_[i]| && Shown(old_[i][b]) == id;
        assert Shown(new_[i][b]) == id;
      } else if id in after {
        var k :| 0 <= k < |listings[a]| && Shown(listings[a][k]) == id;
        assert Shown(new_[a][k]) == id;
      }
      if i, b :| 0 <= i < |new_| && 0 <= b < |new_[i]| && Shown(new_[i][b]) == id {
        if i < a { assert Shown(old_[i][b]) == id; }
      }
    }
  }

  method WorkerLabels(listings: seq<seq<Option<string>>>) returns (labels: map<string, string>)
    ensures ListsIds(listings, labels.Keys) && AreLabels(labels.Keys, labels)
  {
    labels := ListedIds(listings);
    ghost var all := labels.Keys;
    var ids := SortStrings(labels.Keys);
    var i := 0;
    while i < |ids|
      invariant 0 <= i <= |ids| && labels.Keys == all
      invariant forall k :: 0 <= k < i ==> IsLabel(all, ids[k], labels[ids[k]])
    {
      var id := ids[i];
      var length := Min(8, |id|);
      var j := 0;
      while j < 2
        invariant 0 <= j <= 2
        invariant length == if j == 0 then Min(8, |id|)
                            else if j == 1 then Max(Min(8, |id|), NeedAt(ids, i, i - 1))
                            else LabelLength(ids, i)
      {
        var neighbor := if j == 0 then i - 1 else i + 1;
        if 0 <= neighbor < |ids| {
          var common := CommonPrefix(id, ids[neighbor]);
          length := Max(length, Min(common + 1, |id|));
        }
        j := j + 1;
      }
      LengthIsRight(ids, i, all);
      labels := labels[id := id[..length]];
      forall k | 0 <= k < i ensures ids[k] != id { LessTotal(ids[k], id); }
      i := i + 1;
    }
  }
}
