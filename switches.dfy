/**
 * Settings screens keep their switches in one record of named booleans and
 * rebuild it with an object spread. The record is a map from the screen's key
 * type to `bool`.
 */
module Switches {

  /** `{...prev, [key]: !prev[key]}`: flips one switch. */
  function Toggle<K>(m: map<K, bool>, key: K): (r: map<K, bool>)
    requires key in m
    ensures r.Keys == m.Keys
    ensures r[key] == !m[key]
    ensures forall j :: j in m && j != key ==> r[j] == m[j]
  {
    m[key := !m[key]]
  }

  /** Flipping the same switch twice restores the settings. */
  lemma ToggleTwice<K>(m: map<K, bool>, key: K)
    requires key in m
    ensures Toggle(Toggle(m, key), key) == m
  {
  }

  /** Flipping two different switches can be done in either order. */
  lemma ToggleCommutes<K>(m: map<K, bool>, a: K, b: K)
    requires a in m && b in m
    ensures Toggle(Toggle(m, a), b) == Toggle(Toggle(m, b), a)
  {
  }

  /** `Object.values(m).every(v => v)`. */
  predicate AllOn<K>(m: map<K, bool>)
    ensures AllOn(m) <==> false !in m.Values
  {
    forall k :: k in m ==> m[k]
  }

  /**
   * `keys.reduce((acc, key) => ({...acc, [key]: v}), {})`: a fresh record with
   * every listed key set to `v`.
   */
  function SetAll<K>(keys: seq<K>, v: bool): (r: map<K, bool>)
    ensures forall i :: 0 <= i < |keys| ==> keys[i] in r
    ensures forall k :: k in r ==> k in keys && r[k] == v
    decreases |keys|
  {
    if keys == [] then map[]
    else SetAll(keys[..|keys| - 1], v)[keys[|keys| - 1] := v]
  }

  /**
   * `keys.forEach(key => { copy[key] = true })` on a copy of `m`: switches the
   * listed keys on and leaves every other switch as it was.
   */
  function Enable<K>(m: map<K, bool>, keys: seq<K>): (r: map<K, bool>)
    ensures forall k :: k in r ==> k in m || k in keys
    ensures forall k :: k in m ==> k in r
    ensures forall i :: 0 <= i < |keys| ==> keys[i] in r && r[keys[i]]
    ensures forall k :: k in m && k !in keys ==> r[k] == m[k]
    decreases |keys|
  {
    if keys == [] then m
    else Enable(m, keys[..|keys| - 1])[keys[|keys| - 1] := true]
  }

  /** Switching the same keys on a second time changes nothing. */
  lemma EnableIdempotent<K>(m: map<K, bool>, keys: seq<K>)
    ensures Enable(Enable(m, keys), keys) == Enable(m, keys)
  {
    var once := Enable(m, keys);
    var twice := Enable(once, keys);
    assert twice.Keys == once.Keys;
    forall k | k in once
      ensures twice[k] == once[k]
    {
      if k in keys {
        var i :| 0 <= i < |keys| && keys[i] == k;
      }
    }
  }
}
