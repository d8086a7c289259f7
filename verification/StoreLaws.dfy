/** Facts about the value store: what the version tokens and the dirty set mean. */
module StoreLaws {
  import opened CacheModel

  lemma StoreSetValid(s: Store, k: Key, e: Entry)
    requires ValidStore(s)
    ensures ValidStore(StoreSet(s, k, e))
  {
    hide Distinct, KeySet;
    PutOrder(s, k, e);
  }

  lemma PutOrder(s: Store, k: Key, e: Entry)
    requires Distinct(s.order) && KeySet(s.order) == s.values.Keys
    ensures Distinct(Put(s, k, e).order) && KeySet(Put(s, k, e).order) == Put(s, k, e).values.Keys
  {
    if k !in s.values {
      assert k !in s.order by { assert k !in KeySet(s.order); }
      assert KeySet(s.order + [k]) == KeySet(s.order) + {k};
    }
  }

  lemma {:induction false} TouchAllKeys(s: Store, keys: seq<Key>)
    ensures var t := TouchAll(s, keys);
            && t.versions.Keys == s.versions.Keys + KeySet(keys)
            && t.order == s.order && t.values == s.values
            && t.versionSeq == s.versionSeq + |keys|
            && t.dirty == s.dirty + KeySet(keys)
  {
    if keys != [] {
      var n := |keys| - 1;
      TouchAllKeys(s, keys[..n]);
      assert keys == keys[..n] + [keys[n]];
      assert KeySet(keys) == KeySet(keys[..n]) + {keys[n]};
    }
  }

  /** Re-dirtying gives the i-th key the i-th fresh version. */
  lemma {:induction false} TouchAllVersions(s: Store, keys: seq<Key>, i: nat)
    requires Distinct(keys) && i < |keys|
    ensures keys[i] in TouchAll(s, keys).versions
    ensures TouchAll(s, keys).versions[keys[i]] == s.versionSeq + i + 1
  {
    var n := |keys| - 1;
    TouchAllKeys(s, keys[..n]);
    if i < n {
      TouchAllVersions(s, keys[..n], i);
    }
  }

  /** After `mark_all_dirty` exactly the known keys are dirty, each under a version the
      cache never issued before; the count returned is the number of known keys. */
  lemma MarkAllDirtyMeaning(s: Store)
    requires ValidStore(s)
    ensures var t := MarkAllDirty(s);
            && ValidStore(t)
            && t.dirty == s.values.Keys
            && t.values == s.values
            && (forall k :: k in t.versions ==> t.versions[k] > s.versionSeq)
            && |s.order| == |s.values|
  {
    TouchAllKeys(s, s.order);
    OrderCountsKeys(s.order);
    var t := MarkAllDirty(s);
    forall k | k in t.versions
      ensures s.versionSeq < t.versions[k] <= t.versionSeq
    {
      assert k in KeySet(s.order);
      var i :| 0 <= i < |s.order| && s.order[i] == k;
      TouchAllVersions(s, s.order, i);
    }
  }

  lemma {:induction false} OrderCountsKeys(keys: seq<Key>)
    requires Distinct(keys)
    ensures |KeySet(keys)| == |keys|
  {
    if keys == [] {
      assert KeySet(keys) == {};
    } else {
      var n := |keys| - 1;
      assert keys == keys[..n] + [keys[n]];
      OrderCountsKeys(keys[..n]);
      assert KeySet(keys) == KeySet(keys[..n]) + {keys[n]};
      assert keys[n] !in KeySet(keys[..n]);
    }
  }

  lemma AcknowledgedPrefix(s: Store, items: seq<Taken>, i: nat)
    requires i < |items|
    ensures forall k :: Acknowledged(s, items[..i + 1], k) <==>
              (Acknowledged(s, items[..i], k) || (items[i].key == k && items[i].version == VersionOf(s, k)))
  {
  }
}
