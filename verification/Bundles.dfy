/** Adding and removing a bundle of entries of a map, one entry a slot. */
module Bundles {
  ghost predicate Injective<S(!new), K>(key: S -> K) {
    forall s, t :: key(s) == key(t) ==> s == t
  }

  ghost function Image<S, K>(slots: set<S>, key: S -> K): set<K> {
    set s | s in slots :: key(s)
  }

  // The map m with the value of each slot under the key of the slot.
  ghost function Put<S(!new), K, V>(m: map<K, V>, slots: set<S>, key: S -> K, value: S -> V): (r: map<K, V>)
    requires Injective(key)
    ensures r.Keys == m.Keys + Image(slots, key)
    ensures forall s :: s in slots ==> r[key(s)] == value(s)
    ensures forall k :: k in m && k !in Image(slots, key) ==> r[k] == m[k]
  {
    m + map s | s in slots :: key(s) := value(s)
  }

  ghost function Cut<S, K, V>(m: map<K, V>, slots: set<S>, key: S -> K): map<K, V> {
    m - Image(slots, key)
  }

  lemma PutOneMore<S(!new), K, V>(m: map<K, V>, slots: set<S>, slot: S, key: S -> K, value: S -> V)
    requires Injective(key) && slot !in slots
    ensures Put(m, slots + {slot}, key, value) == Put(m, slots, key, value)[key(slot) := value(slot)]
    ensures key(slot) in Put(m, slots, key, value) <==> key(slot) in m
  {
    var few := Put(m, slots, key, value)[key(slot) := value(slot)];
    var more := Put(m, slots + {slot}, key, value);
    assert Image(slots + {slot}, key) == Image(slots, key) + {key(slot)};
    forall k | k in more
      ensures more[k] == few[k]
    {
      if k in Image(slots, key) {
        var s :| s in slots && key(s) == k;
        assert s in slots + {slot};
      }
    }
    assert few.Keys == more.Keys;
  }

  lemma CutOneMore<S(!new), K, V>(m: map<K, V>, slots: set<S>, slot: S, key: S -> K)
    requires Injective(key) && slot !in slots
    ensures Cut(m, slots + {slot}, key) == Cut(m, slots, key) - {key(slot)}
    ensures key(slot) in Cut(m, slots, key) <==> key(slot) in m
    ensures key(slot) in m ==> Cut(m, slots, key)[key(slot)] == m[key(slot)]
  {
    assert Image(slots + {slot}, key) == Image(slots, key) + {key(slot)};
  }

  // Cutting what was put under free keys restores the map.
  lemma CutUndoesPut<S(!new), K, V>(m: map<K, V>, slots: set<S>, key: S -> K, value: S -> V)
    requires Injective(key)
    requires forall s :: s in slots ==> key(s) !in m
    ensures Cut(Put(m, slots, key, value), slots, key) == m
  {
    assert forall k :: k in Image(slots, key) ==> k !in m;
  }
}
