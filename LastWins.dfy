/** Building a map by writing a sequence of (key, value) pairs into it in
    order, as Go's `m[k] = v` does inside a loop: a key written twice keeps
    the value of its last write. Both the per-record-set table and the table
    of record sets are built this way. */
module LastWins {

  /** The map left by writing every entry, first to last, into an empty map. */
  function Overwrite<K, V>(entries: seq<(K, V)>): (m: map<K, V>)
    ensures forall k :: k in m ==> exists i :: 0 <= i < |entries| && entries[i] == (k, m[k])
  {
    if entries == [] then map[]
    else
      var last := entries[|entries| - 1];
      Overwrite(entries[..|entries| - 1])[last.0 := last.1]
  }

  /** Position of the last entry whose key is k, found by searching from the
      end; -1 when no entry has key k. */
  function LastIndex<K(==), V>(entries: seq<(K, V)>, k: K): (i: int)
    ensures -1 <= i < |entries|
    ensures i >= 0 ==> entries[i].0 == k
    ensures forall j :: i < j < |entries| ==> entries[j].0 != k
  {
    if entries == [] then -1
    else if entries[|entries| - 1].0 == k then |entries| - 1
    else LastIndex(entries[..|entries| - 1], k)
  }

  /** The fold and the search agree: a key is in the map exactly when some
      entry writes it, and its value is the one written by the last such
      entry. */
  lemma {:induction false} OverwriteIsLastWrite<K, V>(entries: seq<(K, V)>, k: K)
    ensures k in Overwrite(entries) <==> LastIndex(entries, k) >= 0
    ensures k in Overwrite(entries) ==> Overwrite(entries)[k] == entries[LastIndex(entries, k)].1
  {
    if entries != [] {
      OverwriteIsLastWrite(entries[..|entries| - 1], k);
    }
  }

  /** The keys of the map are exactly the keys written. */
  lemma OverwriteKeys<K, V>(entries: seq<(K, V)>, k: K)
    ensures k in Overwrite(entries) <==> exists i :: 0 <= i < |entries| && entries[i].0 == k
  {
    OverwriteIsLastWrite(entries, k);
  }

  /** An entry that no later entry overwrites is the one the map keeps. */
  lemma OverwriteLastWins<K, V>(entries: seq<(K, V)>, i: nat)
    requires i < |entries|
    requires forall j :: i < j < |entries| ==> entries[j].0 != entries[i].0
    ensures entries[i].0 in Overwrite(entries)
    ensures Overwrite(entries)[entries[i].0] == entries[i].1
  {
    OverwriteIsLastWrite(entries, entries[i].0);
  }

  /** Writing one more entry. */
  lemma OverwriteSnoc<K, V>(entries: seq<(K, V)>, k: K, v: V)
    ensures Overwrite(entries + [(k, v)]) == Overwrite(entries)[k := v]
  {
    assert (entries + [(k, v)])[..|entries|] == entries;
  }
}
