/**
 * The raw configuration table: the key/value pairs a configuration was decoded from.
 * Its canonical form is sorted by key, in the byte-wise lexicographic order of keys,
 * with no key twice.
 */
module RawConfiguration {

  newtype byte = x: int | 0 <= x < 256

  type Key = seq<byte>
  type Value = seq<byte>

  datatype KeyValue = KeyValue(key: Key, value: Value)

  /** Byte-wise lexicographic order: a proper prefix comes before its extensions. */
  predicate KeyLess(a: Key, b: Key)
  {
    if |a| == 0 then |b| > 0
    else if |b| == 0 then false
    else a[0] < b[0] || (a[0] == b[0] && KeyLess(a[1..], b[1..]))
  }

  lemma {:induction false} KeyLessIrreflexive(a: Key)
    ensures !KeyLess(a, a)
  {
    if |a| > 0 {
      KeyLessIrreflexive(a[1..]);
    }
  }

  lemma {:induction false} KeyLessTransitive(a: Key, b: Key, c: Key)
    requires KeyLess(a, b) && KeyLess(b, c)
    ensures KeyLess(a, c)
  {
    if |a| > 0 && |b| > 0 && |c| > 0 && a[0] == b[0] && b[0] == c[0] {
      KeyLessTransitive(a[1..], b[1..], c[1..]);
    }
  }

  lemma {:induction false} KeyLessTotal(a: Key, b: Key)
    ensures a == b || KeyLess(a, b) || KeyLess(b, a)
  {
    if |a| > 0 && |b| > 0 && a[0] == b[0] {
      KeyLessTotal(a[1..], b[1..]);
      if a[1..] == b[1..] {
        assert a == [a[0]] + a[1..] && b == [b[0]] + b[1..];
      }
    }
  }

  /** Canonical form: every key strictly before every later key (sorted, keys unique). */
  predicate IsCanonical(raw: seq<KeyValue>)
  {
    forall i, j :: 0 <= i < j < |raw| ==> KeyLess(raw[i].key, raw[j].key)
  }

  /** Two raw tables hold the same entries, whatever their order. */
  ghost predicate SameEntries(r1: seq<KeyValue>, r2: seq<KeyValue>)
  {
    forall kv :: kv in r1 <==> kv in r2
  }

  /**
   * The canonical form of a set of entries is unique: two canonical tables
   * with the same entries are the same sequence.
   */
  lemma {:induction false} CanonicalIsUnique(r1: seq<KeyValue>, r2: seq<KeyValue>)
    requires IsCanonical(r1) && IsCanonical(r2)
    requires SameEntries(r1, r2)
    ensures r1 == r2
    decreases |r1|
  {
    // an empty table and a non-empty one cannot hold the same entries
    if r1 != [] {
      assert r1[0] in r2;
    }
    if r2 != [] {
      assert r2[0] in r1;
    }
    if r1 != [] && r2 != [] {
      // the first entries agree: each is the other's least key
      var j :| 0 <= j < |r2| && r2[j] == r1[0];
      var i :| 0 <= i < |r1| && r1[i] == r2[0];
      if j > 0 {
        // r2[0] comes strictly before r1[0] in r2, and r1[0] is not after r2[0] in r1
        if i > 0 {
          KeyLessTransitive(r1[0].key, r1[i].key, r1[0].key);
        }
        KeyLessIrreflexive(r1[0].key);
        assert false;
      }
      assert r1[0] == r2[0];
      // so the tails hold the same entries too
      forall kv
        ensures kv in r1[1..] <==> kv in r2[1..]
      {
        if kv in r1[1..] {
          var m :| 1 <= m < |r1| && r1[m] == kv;
          if kv == r2[0] {
            KeyLessIrreflexive(r1[0].key);
            assert false;
          }
          assert kv in r2;
        }
        if kv in r2[1..] {
          var m :| 1 <= m < |r2| && r2[m] == kv;
          if kv == r1[0] {
            KeyLessIrreflexive(r2[0].key);
            assert false;
          }
          assert kv in r1;
        }
      }
      CanonicalIsUnique(r1[1..], r2[1..]);
      assert r1 == [r1[0]] + r1[1..] && r2 == [r2[0]] + r2[1..];
    }
  }
}
