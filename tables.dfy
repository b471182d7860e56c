/** A table keyed by an INTEGER PRIMARY KEY, as a map from key to row. */
module Tables {
  import opened Basics

  /** Strictly ascending, hence without repetition. */
  predicate Increasing(s: seq<int>)
  {
    forall i, j :: 0 <= i < j < |s| ==> s[i] < s[j]
  }

  lemma {:induction false} MinExists(s: set<int>)
    requires s != {}
    ensures exists m :: m in s && forall k :: k in s ==> m <= k
  {
    if forall k :: k !in s { assert false; }
    var x :| x in s;
    var rest := s - {x};
    if rest == {} {
      forall k | k in s ensures x <= k {
        assert k !in rest;
      }
      assert x in s;
    } else {
      MinExists(rest);
      var m :| m in rest && forall k :: k in rest ==> m <= k;
      var least := if x < m then x else m;
      forall k | k in s ensures least <= k {
        if k != x { assert k in rest; }
      }
      assert least in s;
    }
  }

  /** The least key of a non-empty key set. */
  function MinKey(s: set<int>): (m: int)
    requires s != {}
    ensures m in s && forall k :: k in s ==> m <= k
  {
    MinExists(s);
    var m :| m in s && forall k :: k in s ==> m <= k;
    m
  }

  /** The keys of a table in ascending order: each key exactly once. */
  function KeysAscending(s: set<int>): (ks: seq<int>)
    ensures forall k :: k in ks <==> k in s
    ensures Increasing(ks)
    ensures |ks| == |s|
    decreases |s|
  {
    if s == {} then []
    else
      var m := MinKey(s);
      var rest := KeysAscending(s - {m});
      assert forall j :: 0 <= j < |rest| ==> m < rest[j] by {
        forall j | 0 <= j < |rest| ensures m < rest[j] {
          assert rest[j] in s - {m};
        }
      }
      [m] + rest
  }

  /** SQLite's usual choice of ROWID for a row inserted without one: one more
      than the largest key in the table, or 1 when the table is empty. */
  function NextRowId(keys: set<int>): (id: int)
    ensures forall k :: k in keys ==> k < id
    ensures keys == {} ==> id == 1
    ensures keys != {} ==> id - 1 in keys
  {
    if keys == {} then 1
    else
      var ks := KeysAscending(keys);
      var last := ks[|ks| - 1];
      assert forall k :: k in keys ==> k <= last by {
        forall k | k in keys ensures k <= last {
          assert k in ks;
          var i :| 0 <= i < |ks| && ks[i] == k;
          assert i == |ks| - 1 || ks[i] < last;
        }
      }
      last + 1
  }

  /** In a table whose keys are 1..n, as inserts without deletes leave it,
      the next ROWID is n + 1. */
  lemma NextRowIdAfterRun(keys: set<int>, n: nat)
    requires forall k :: k in keys <==> 1 <= k <= n
    ensures NextRowId(keys) == n + 1
  {
    if n > 0 {
      assert n in keys;
    }
  }

  /** The primary key a newly added row is stored under: the one the client
      supplied, which must be free, or the next ROWID. */
  function AssignRowId(supplied: Option<int>, keys: set<int>): (id: int)
    requires supplied.Some? ==> supplied.value !in keys
    ensures id !in keys
    ensures supplied.Some? ==> id == supplied.value
    ensures supplied.None? && keys == {} ==> id == 1
    ensures supplied.None? && keys != {} ==> id - 1 in keys && forall k :: k in keys ==> k < id
  {
    match supplied
    case Some(id) => id
    case None => NextRowId(keys)
  }

  /** The rows stored under the keys ks, in the order of ks. */
  function RowsOf<V>(t: map<int, V>, ks: seq<int>): (rows: seq<V>)
    requires forall i :: 0 <= i < |ks| ==> ks[i] in t
    ensures |rows| == |ks|
    ensures forall i :: 0 <= i < |ks| ==> rows[i] == t[ks[i]]
  {
    if ks == [] then [] else [t[ks[0]]] + RowsOf(t, ks[1..])
  }

  /** SELECT ... WHERE p: the rows satisfying p, in ascending key order. */
  function Select<V>(t: map<int, V>, p: V -> bool): (rows: seq<V>)
    ensures |rows| == |set k | k in t && p(t[k])|
  {
    var ks := KeysAscending(set k | k in t && p(t[k]));
    assert forall i :: 0 <= i < |ks| ==> ks[i] in t by {
      forall i | 0 <= i < |ks| ensures ks[i] in t {
        assert ks[i] in ks;
      }
    }
    RowsOf(t, ks)
  }

  /** Every row carries its own primary key in the field key picks out. */
  ghost predicate KeyedBy<V>(t: map<int, V>, key: V -> int)
  {
    forall k :: k in t ==> key(t[k]) == k
  }

  lemma {:induction false} RowsOfCount<V>(t: map<int, V>, key: V -> int, ks: seq<int>, v: V)
    requires KeyedBy(t, key)
    requires forall i :: 0 <= i < |ks| ==> ks[i] in t
    requires Increasing(ks)
    ensures multiset(RowsOf(t, ks))[v] == if key(v) in ks && t[key(v)] == v then 1 else 0
  {
    if ks != [] {
      assert Increasing(ks[1..]) by {
        forall i, j | 0 <= i < j < |ks[1..]| ensures ks[1..][i] < ks[1..][j] {
          assert ks[1..][i] == ks[i + 1] && ks[1..][j] == ks[j + 1];
        }
      }
      RowsOfCount(t, key, ks[1..], v);
      assert RowsOf(t, ks) == [t[ks[0]]] + RowsOf(t, ks[1..]);
      assert ks[0] !in ks[1..] by {
        forall j | 0 <= j < |ks[1..]| ensures ks[1..][j] != ks[0] {
          assert ks[1..][j] == ks[j + 1];
        }
      }
      assert key(v) in ks <==> key(v) == ks[0] || key(v) in ks[1..] by {
        assert ks == [ks[0]] + ks[1..];
      }
    }
  }

  /** A selection holds every stored row satisfying p exactly once, and nothing else. */
  lemma SelectCount<V>(t: map<int, V>, key: V -> int, p: V -> bool)
    requires KeyedBy(t, key)
    ensures forall v :: multiset(Select(t, p))[v] ==
                        if key(v) in t && t[key(v)] == v && p(v) then 1 else 0
  {
    var matching := set k | k in t && p(t[k]);
    var ks := KeysAscending(matching);
    forall i | 0 <= i < |ks| ensures ks[i] in t {
      assert ks[i] in ks;
    }
    forall v ensures multiset(Select(t, p))[v] ==
      if key(v) in t && t[key(v)] == v && p(v) then 1 else 0
    {
      RowsOfCount(t, key, ks, v);
    }
  }
}
