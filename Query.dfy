/** The pieces of the read pipelines: a table's rows in ascending key order
    (OrderBy on the key), Where, Skip/Take, the count of matching rows, and the
    convention that an empty result is returned as null. */
module Query {
  import opened Wrappers
  import opened Storage

  /** Total order the paging relies on: strictly ascending ids. */
  predicate IdsIncreasing(xs: seq<Entity>) {
    forall i, j :: 0 <= i < j < |xs| ==> xs[i].id < xs[j].id
  }

  predicate Increasing(xs: seq<int>) {
    forall i, j :: 0 <= i < j < |xs| ==> xs[i] < xs[j]
  }

  ghost function SetMin(s: set<int>): (m: int)
    requires s != {}
    ensures m in s && forall x | x in s :: m <= x
  {
    assert exists y :: y in s by {
      if forall y :: y !in s {
        assert false;
      }
    }
    var y :| y in s;
    if s == {y} then
      assert forall x | x in s :: x == y;
      y
    else
      var r := SetMin(s - {y});
      assert forall x | x in s :: x == y || x in s - {y};
      if y < r then y else r
  }

  /** The keys of a table in ascending order. */
  ghost function SortedKeys(s: set<int>): (r: seq<int>)
    ensures Increasing(r)
    ensures forall k :: k in r <==> k in s
    ensures |r| == |s|
    decreases |s|
  {
    if s == {} then
      []
    else
      var m := SetMin(s);
      var rest := SortedKeys(s - {m});
      assert forall k :: k in rest ==> m < k;
      [m] + rest
  }

  /** Set<T>() ordered by key: every row of the kind, ascending by Id. */
  ghost function Rows(db: Db, kind: Kind): (r: seq<Entity>)
    ensures IdsIncreasing(r)
    ensures |r| == |Keys(db, kind)|
    ensures forall e :: e in r <==> e.kind == kind && FindRow(db, kind, e.id) == Some(e)
  {
    var t := TableOf(db, kind);
    var ks := SortedKeys(t.rows.Keys);
    var r := seq(|ks|, i requires 0 <= i < |ks| => Entity(kind, ks[i], t.rows[ks[i]]));
    assert forall e :: e in r <==> e.kind == kind && FindRow(db, kind, e.id) == Some(e) by {
      forall e ensures e in r <==> e.kind == kind && FindRow(db, kind, e.id) == Some(e) {
        if e.kind == kind && FindRow(db, kind, e.id) == Some(e) {
          assert e.id in ks;
          var i :| 0 <= i < |ks| && ks[i] == e.id;
          assert r[i] == e;
        }
      }
    }
    r
  }

  /** Where(predicate), order kept. */
  function Filter(xs: seq<Entity>, p: Entity -> bool): (r: seq<Entity>)
    ensures forall e :: e in r <==> e in xs && p(e)
    ensures |r| <= |xs|
  {
    if xs == [] then
      []
    else if p(xs[0]) then
      [xs[0]] + Filter(xs[1..], p)
    else
      Filter(xs[1..], p)
  }

  /** Filtering an ordered list leaves it ordered. */
  lemma {:induction false} FilterKeepsOrder(xs: seq<Entity>, p: Entity -> bool)
    requires IdsIncreasing(xs)
    ensures IdsIncreasing(Filter(xs, p))
  {
    if xs != [] {
      var rest := Filter(xs[1..], p);
      FilterKeepsOrder(xs[1..], p);
      if p(xs[0]) {
        forall j | 0 <= j < |rest| ensures xs[0].id < rest[j].id {
          assert rest[j] in xs[1..];
          var i :| 0 <= i < |xs[1..]| && xs[1..][i] == rest[j];
          assert xs[i + 1] == rest[j];
        }
        var r := [xs[0]] + rest;
        forall i, j | 0 <= i < j < |r| ensures r[i].id < r[j].id {
          if i > 0 {
            assert r[i] == rest[i - 1] && r[j] == rest[j - 1];
          }
        }
      }
    }
  }

  /** Skip(skip).Take(take): the elements at positions skip .. skip+take-1
      that exist. */
  function Page<T>(xs: seq<T>, skip: nat, take: nat): (r: seq<T>)
    ensures |r| == if skip >= |xs| then 0 else if take <= |xs| - skip then take else |xs| - skip
    ensures forall i :: 0 <= i < |r| ==> skip + i < |xs| && r[i] == xs[skip + i]
  {
    if skip >= |xs| then [] else if take <= |xs| - skip then xs[skip..skip + take] else xs[skip..]
  }

  /** Every GetItems overload turns an empty list into null. */
  function Nullable<T>(xs: seq<T>): (r: Option<seq<T>>)
    ensures r.None? <==> xs == []
    ensures r.Some? ==> r.value == xs && |r.value| > 0
  {
    if xs == [] then None else Some(xs)
  }

  /** Reference definition of a count: the keys whose row satisfies p. */
  ghost function MatchingKeys(db: Db, kind: Kind, p: Entity -> bool): set<int> {
    set k | k in Keys(db, kind) && p(Entity(kind, k, TableOf(db, kind).rows[k]))
  }

  function Ids(xs: seq<Entity>): (r: set<int>)
    ensures forall k :: k in r <==> exists i :: 0 <= i < |xs| && xs[i].id == k
  {
    if xs == [] then
      {}
    else
      var rest := Ids(xs[1..]);
      assert forall k :: k in rest <==> exists i :: 1 <= i < |xs| && xs[i].id == k by {
        forall k ensures k in rest <==> exists i :: 1 <= i < |xs| && xs[i].id == k {
          if k in rest {
            var i :| 0 <= i < |xs[1..]| && xs[1..][i].id == k;
            assert xs[i + 1].id == k;
          }
          if exists i :: 1 <= i < |xs| && xs[i].id == k {
            var i :| 1 <= i < |xs| && xs[i].id == k;
            assert xs[1..][i - 1].id == k;
          }
        }
      }
      {xs[0].id} + rest
  }

  /** Distinct ids: as many ids as elements. */
  lemma {:induction false} IdsCount(xs: seq<Entity>)
    requires IdsIncreasing(xs)
    ensures |Ids(xs)| == |xs|
  {
    if xs != [] {
      var rest := xs[1..];
      assert IdsIncreasing(rest) by {
        forall i, j | 0 <= i < j < |rest| ensures rest[i].id < rest[j].id {
          assert rest[i] == xs[i + 1] && rest[j] == xs[j + 1];
        }
      }
      IdsCount(rest);
      assert Ids(xs) == {xs[0].id} + Ids(rest);
      forall i | 0 <= i < |rest| ensures rest[i].id != xs[0].id {
        assert rest[i] == xs[i + 1];
      }
    }
  }

  /** Where(p).Count() counts exactly the rows satisfying p. */
  lemma CountIsMatchingKeys(db: Db, kind: Kind, p: Entity -> bool)
    ensures |Filter(Rows(db, kind), p)| == |MatchingKeys(db, kind, p)|
  {
    var xs := Filter(Rows(db, kind), p);
    FilterKeepsOrder(Rows(db, kind), p);
    IdsCount(xs);
    forall k ensures k in Ids(xs) <==> k in MatchingKeys(db, kind, p) {
      MatchingKeyIsListed(db, kind, p, k);
    }
    assert Ids(xs) == MatchingKeys(db, kind, p);
  }

  lemma MatchingKeyIsListed(db: Db, kind: Kind, p: Entity -> bool, k: int)
    ensures k in Ids(Filter(Rows(db, kind), p)) <==> k in MatchingKeys(db, kind, p)
  {
    var xs := Filter(Rows(db, kind), p);
    if k in Ids(xs) {
      var i :| 0 <= i < |xs| && xs[i].id == k;
      assert xs[i] in xs;
      assert xs[i] in Rows(db, kind);
    }
    if k in MatchingKeys(db, kind, p) {
      var e := Entity(kind, k, TableOf(db, kind).rows[k]);
      assert e in Rows(db, kind);
      assert e in xs;
      var i :| 0 <= i < |xs| && xs[i] == e;
    }
  }

  /** Where(_ => true) keeps everything. */
  lemma {:induction false} FilterAll(xs: seq<Entity>)
    ensures Filter(xs, (e: Entity) => true) == xs
  {
    if xs != [] {
      FilterAll(xs[1..]);
    }
  }

  /** A window of an ordered list is ordered. */
  lemma PageKeepsOrder(xs: seq<Entity>, skip: nat, take: nat)
    requires IdsIncreasing(xs)
    ensures IdsIncreasing(Page(xs, skip, take))
  {
    var r := Page(xs, skip, take);
    forall i, j | 0 <= i < j < |r| ensures r[i].id < r[j].id {
      assert r[i] == xs[skip + i] && r[j] == xs[skip + j];
    }
  }
}
