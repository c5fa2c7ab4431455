/** Tenant-scoped tables. Each of the four entity tables is a relation uniquely
    keyed by `(tenant_id, shopify_id)`; it is held as a list of entries so that
    aggregates over it are plain recursive functions. */
module Tables {
  import opened Values

  /** The composite unique key `(tenant_id, shopify_id)`. */
  datatype Key = Key(tenant: string, external: string)

  datatype Entry<R> = Entry(key: Key, row: R)

  type Table<R> = seq<Entry<R>>

  /** The unique constraint: no key names two rows. */
  ghost predicate UniqueKeys<R>(t: Table<R>) {
    forall i, j :: 0 <= i < j < |t| ==> t[i].key != t[j].key
  }

  ghost predicate HasKey<R>(t: Table<R>, k: Key) {
    exists i :: 0 <= i < |t| && t[i].key == k
  }

  /** `findUnique` on the composite key. */
  function Find<R>(t: Table<R>, k: Key): (r: Option<R>)
    ensures r.Some? <==> HasKey(t, k)
    ensures r.Some? ==> exists i :: 0 <= i < |t| && t[i] == Entry(k, r.value)
  {
    if |t| == 0 then None
    else if t[0].key == k then Some(t[0].row)
    else
      assert forall i :: 1 <= i < |t| ==> t[1..][i - 1] == t[i];
      Find(t[1..], k)
  }

  /** The write half of an upsert: the row stored under `k` becomes `v`,
      in place when the key exists and appended when it does not. */
  function Put<R>(t: Table<R>, k: Key, v: R): (r: Table<R>)
    ensures forall k' :: Find(r, k') == if k' == k then Some(v) else Find(t, k')
    ensures HasKey(t, k) ==> |r| == |t|
    ensures !HasKey(t, k) ==> r == t + [Entry(k, v)]
  {
    if |t| == 0 then [Entry(k, v)]
    else if t[0].key == k then [Entry(k, v)] + t[1..]
    else
      var rest := Put(t[1..], k, v);
      assert HasKey(t, k) <==> HasKey(t[1..], k) by {
        if HasKey(t, k) {
          var i :| 0 <= i < |t| && t[i].key == k;
          assert t[1..][i - 1].key == k;
        }
        if HasKey(t[1..], k) {
          var i :| 0 <= i < |t[1..]| && t[1..][i].key == k;
          assert t[i + 1].key == k;
        }
      }
      assert !HasKey(t, k) ==> [t[0]] + (t[1..] + [Entry(k, v)]) == t + [Entry(k, v)];
      [t[0]] + rest
  }

  /** Upserting under a key never breaks the unique constraint. */
  lemma {:induction false} PutKeepsUnique<R>(t: Table<R>, k: Key, v: R)
    requires UniqueKeys(t)
    ensures UniqueKeys(Put(t, k, v))
  {
    var r := Put(t, k, v);
    if HasKey(t, k) {
      PutKeepsKeys(t, k, v);
    } else {
      assert r == t + [Entry(k, v)];
      forall i, j | 0 <= i < j < |r|
        ensures r[i].key != r[j].key
      {
        if j == |t| {
          assert t[i].key != k;
        }
      }
    }
  }

  /** An in-place upsert writes row `v` under the key it replaces and nothing else. */
  lemma {:induction false} PutKeepsKeys<R>(t: Table<R>, k: Key, v: R)
    requires HasKey(t, k)
    ensures |Put(t, k, v)| == |t|
    ensures forall i :: 0 <= i < |t| ==> Put(t, k, v)[i].key == t[i].key
  {
    if t[0].key != k {
      assert HasKey(t[1..], k) by {
        var i :| 0 <= i < |t| && t[i].key == k;
        assert t[1..][i - 1].key == k;
      }
      PutKeepsKeys(t[1..], k, v);
      var r := Put(t, k, v);
      assert r == [t[0]] + Put(t[1..], k, v);
      forall i | 0 <= i < |t|
        ensures r[i].key == t[i].key
      {
        if i > 0 {
          assert r[i] == Put(t[1..], k, v)[i - 1];
        }
      }
    }
  }

  /** A second write under the same key replaces the first entirely. */
  lemma {:induction false} PutPut<R>(t: Table<R>, k: Key, v1: R, v2: R)
    ensures Put(Put(t, k, v1), k, v2) == Put(t, k, v2)
  {
    if |t| == 0 {
    } else if t[0].key == k {
      assert Put(t, k, v1)[1..] == t[1..];
    } else {
      PutPut(t[1..], k, v1, v2);
      assert Put(t, k, v1)[1..] == Put(t[1..], k, v1);
    }
  }

  /** Writing back the row a key already holds changes nothing. */
  lemma {:induction false} PutFound<R>(t: Table<R>, k: Key, v: R)
    requires Find(t, k) == Some(v)
    ensures Put(t, k, v) == t
  {
    if t[0].key != k {
      PutFound(t[1..], k, v);
    }
  }
}
