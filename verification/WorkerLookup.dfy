/** Resolving a worker id or id prefix against the registered workers. */
module WorkerLookup {
  datatype Match =
    | Unique(id: string)
    | Missing
    | Ambiguous(ids: set<string>)

  /** Exact ids win; otherwise the key must be a prefix of exactly one id. */
  function Lookup(ids: set<string>, key: string): Match {
    if key in ids then Unique(key)
    else
      var matches := set w | w in ids && key <= w;
      if matches == {} then Missing
      else if exists w :: w in matches && matches == {w} then
        var w :| w in matches && matches == {w};
        Unique(w)
      else Ambiguous(matches)
  }

  /** A worker is found exactly when the key is its id, or a prefix of its id alone and nobody's full id. */
  lemma LookupFinds(ids: set<string>, key: string, w: string)
    ensures Lookup(ids, key) == Unique(w) <==>
            w in ids && (key == w || (key !in ids && key <= w && forall v :: v in ids && key <= v ==> v == w))
  {
    var matches := set v | v in ids && key <= v;
    if key !in ids {
      if w in ids && key <= w && forall v :: v in ids && key <= v ==> v == w {
        assert w in matches && matches == {w};
      }
      if Lookup(ids, key) == Unique(w) {
        assert w in matches && matches == {w};
        forall v | v in ids && key <= v ensures v == w { assert v in matches; }
      }
    }
  }

  /** Nothing is found exactly if the key begins no id; otherwise all the ids it begins are named. */
  lemma LookupElse(ids: set<string>, key: string)
    ensures Lookup(ids, key).Missing? <==> forall w :: w in ids ==> !(key <= w)
    ensures Lookup(ids, key).Ambiguous? ==> Lookup(ids, key).ids == (set w | w in ids && key <= w)
    ensures Lookup(ids, key).Ambiguous? <==>
            key !in ids && exists v, w :: v in ids && w in ids && v != w && key <= v && key <= w
  {
    var matches := set w | w in ids && key <= w;
    if key in ids {
      assert key <= key;
    } else if matches != {} {
      var v :| v in matches;
      if matches == {v} {
        forall w | w in ids && key <= w ensures w == v { assert w in matches; }
      } else {
        assert matches - {v} != {};
        var w :| w in matches - {v};
        assert v in ids && w in ids && v != w && key <= v && key <= w;
        NotSingle(matches, v, w);
      }
    } else {
      forall w | w in ids ensures !(key <= w) { assert w !in matches; }
    }
  }

  lemma NotSingle(s: set<string>, v: string, w: string)
    requires v in s && w in s && v != w
    ensures !exists x :: x in s && s == {x}
  {
    forall x | x in s ensures s != {x} { assert x != v || x != w; }
  }
}
