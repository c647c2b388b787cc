/** PHP values as they appear in a loader configuration, and the few array
    operations the loader relies on: reading a key, `isset`, `unset`,
    assignment `$a[$k] = $v`, `array_merge` and the `(array)` cast.

    A PHP array is an ordered map: it is modelled as the sequence of its
    entries in insertion order. A PHP array never holds the same key twice;
    the lemmas that depend on this say so with `UniqueKeys`. */
module Php {

  datatype Option<+T> = None | Some(value: T)

  datatype Result<+T, +E> = Ok(value: T) | Err(error: E)

  /** An array key: PHP keys are integers or strings. */
  datatype Key = IntKey(i: int) | StrKey(s: string)

  /** A configuration value. Objects (closures, service instances) are
      opaque: only their identity is kept. */
  datatype Value =
    | Null
    | Bool(b: bool)
    | Int(i: int)
    | Str(s: string)
    | Arr(entries: seq<(Key, Value)>)
    | Object(id: nat)

  type Entries = seq<(Key, Value)>

  predicate HasKey(a: Entries, k: Key)
  {
    a != [] && (a[0].0 == k || HasKey(a[1..], k))
  }

  /** No key occurs twice: the shape of every real PHP array. */
  predicate UniqueKeys(a: Entries)
  {
    a == [] || (!HasKey(a[1..], a[0].0) && UniqueKeys(a[1..]))
  }

  /** `$a[$k]` for a key that may be absent. */
  function Lookup(a: Entries, k: Key): (r: Option<Value>)
    ensures r.Some? <==> HasKey(a, k)
    ensures r.Some? ==> (k, r.value) in a
  {
    if a == [] then None
    else if a[0].0 == k then Some(a[0].1)
    else Lookup(a[1..], k)
  }

  /** Reading `$a['name']`: an undefined index reads as null. */
  function Field(a: Entries, name: string): Value
  {
    match Lookup(a, StrKey(name))
    case Some(v) => v
    case None => Null
  }

  /** `isset($a['name'])`: the key is present and its value is not null. */
  predicate IsSet(a: Entries, name: string)
  {
    Lookup(a, StrKey(name)).Some? && Lookup(a, StrKey(name)).value != Null
  }

  /** The entries a `foreach` visits: none when the value is not an array
      (PHP then only emits a warning). */
  function Iterate(v: Value): Entries
  {
    if v.Arr? then v.entries else []
  }

  /** The `(array) $v` cast: an array is kept, null gives an empty array,
      a scalar becomes the single element of a list. */
  function CastToArray(v: Value): (r: Entries)
    ensures v.Arr? ==> r == v.entries
    ensures v.Null? || v.Object? ==> r == []
    ensures v.Bool? || v.Int? || v.Str? ==> |r| == 1 && Lookup(r, IntKey(0)) == Some(v)
  {
    match v
    case Null => []
    case Arr(entries) => entries
    case Object(_) => []
    case _ => [(IntKey(0), v)]
  }

  /** `$a[$k] = $v`: an existing key keeps its position and takes the new
      value, a new key is appended at the end. */
  function Put(a: Entries, k: Key, v: Value): Entries
  {
    if a == [] then [(k, v)]
    else if a[0].0 == k then [(k, v)] + a[1..]
    else [a[0]] + Put(a[1..], k, v)
  }

  /** After `$a[$k] = $v`, `k` holds `v` and every other key what it held. */
  lemma {:induction false} PutLookup(a: Entries, k: Key, v: Value)
    ensures Lookup(Put(a, k, v), k) == Some(v)
    ensures forall k' :: k' != k ==> Lookup(Put(a, k, v), k') == Lookup(a, k')
  {
    if a != [] && a[0].0 != k {
      PutLookup(a[1..], k, v);
      assert Put(a, k, v)[1..] == Put(a[1..], k, v);
    }
  }

  /** An assignment to an existing key keeps the array's size and order; a
      new key is appended at the end. */
  lemma {:induction false} PutShape(a: Entries, k: Key, v: Value)
    ensures HasKey(a, k) ==> |Put(a, k, v)| == |a| && (forall i :: 0 <= i < |a| && a[i].0 != k ==> Put(a, k, v)[i] == a[i])
    ensures !HasKey(a, k) ==> Put(a, k, v) == a + [(k, v)]
  {
    if a != [] && a[0].0 != k {
      PutShape(a[1..], k, v);
      var r := Put(a, k, v);
      assert r[1..] == Put(a[1..], k, v);
      if HasKey(a, k) {
        forall i | 0 <= i < |a| && a[i].0 != k ensures r[i] == a[i] {
          if i > 0 {
            assert r[i] == r[1..][i - 1] && a[i] == a[1..][i - 1];
          }
        }
      }
    }
  }

  /** `unset($a[$k])`: the entry with key `k` is dropped, the others keep
      their order. */
  function Remove(a: Entries, k: Key): Entries
  {
    if a == [] then []
    else if a[0].0 == k then Remove(a[1..], k)
    else [a[0]] + Remove(a[1..], k)
  }

  /** After `unset($a[$k])` the key `k` is gone and every other key holds
      what it held; an absent key leaves the array as it was. */
  lemma {:induction false} RemoveLookup(a: Entries, k: Key)
    ensures !HasKey(Remove(a, k), k)
    ensures forall k' :: k' != k ==> Lookup(Remove(a, k), k') == Lookup(a, k')
    ensures !HasKey(a, k) ==> Remove(a, k) == a
  {
    if a != [] {
      RemoveLookup(a[1..], k);
      if a[0].0 != k {
        assert Remove(a, k)[1..] == Remove(a[1..], k);
      }
    }
  }

  /** The value left behind by the LAST entry with key `k`: what a run of
      assignments in the order of `a` leaves in the target. */
  function LastLookup(a: Entries, k: Key): (r: Option<Value>)
    ensures r.Some? <==> HasKey(a, k)
  {
    if a == [] then None
    else match LastLookup(a[1..], k)
      case Some(v) => Some(v)
      case None => if a[0].0 == k then Some(a[0].1) else None
  }

  /** The assignments `$base[$k] = $v` for every entry of `over`, in order. */
  function PutAll(base: Entries, over: Entries): Entries
    decreases |over|
  {
    if over == [] then base else PutAll(Put(base, over[0].0, over[0].1), over[1..])
  }

  /** The keys `array_merge` gives its entries: integer keys are renumbered
      from `next` on, string keys are kept. */
  function Renumber(a: Entries, next: int): Entries
  {
    if a == [] then []
    else match a[0].0
      case IntKey(_) => [(IntKey(next), a[0].1)] + Renumber(a[1..], next + 1)
      case StrKey(_) => [a[0]] + Renumber(a[1..], next)
  }

  /** `array_merge($a, $b)`: the entries of `a`, then those of `b`; a string
      key of `b` overrides the same key of `a` in place, integer keys are
      appended and renumbered from 0. */
  function ArrayMerge(a: Entries, b: Entries): (r: Entries)
    ensures UniqueKeys(r)
  {
    PutAllUnique([], Renumber(a + b, 0));
    PutAll([], Renumber(a + b, 0))
  }

  /** An assignment keeps an array free of repeated keys. */
  lemma {:induction false} PutUnique(a: Entries, k: Key, v: Value)
    requires UniqueKeys(a)
    ensures UniqueKeys(Put(a, k, v))
  {
    if a != [] && a[0].0 != k {
      PutUnique(a[1..], k, v);
      PutLookup(a[1..], k, v);
      assert Lookup(Put(a[1..], k, v), a[0].0) == Lookup(a[1..], a[0].0);
      assert Put(a, k, v)[1..] == Put(a[1..], k, v);
    }
  }

  lemma {:induction false} PutAllUnique(base: Entries, over: Entries)
    requires UniqueKeys(base)
    ensures UniqueKeys(PutAll(base, over))
    decreases |over|
  {
    if over != [] {
      PutUnique(base, over[0].0, over[0].1);
      PutAllUnique(Put(base, over[0].0, over[0].1), over[1..]);
    }
  }

  /** `array_merge` holds a string key exactly when one of its arguments
      does. */
  lemma ArrayMergeHasKey(a: Entries, b: Entries, s: string)
    ensures HasKey(ArrayMerge(a, b), StrKey(s)) <==> HasKey(a, StrKey(s)) || HasKey(b, StrKey(s))
  {
    var k := StrKey(s);
    PutAllLookup([], Renumber(a + b, 0), k);
    RenumberStringKey(a + b, 0, s);
    LastLookupAppend(a, b, k);
  }

  lemma {:induction false} LastLookupAppend(a: Entries, b: Entries, k: Key)
    ensures LastLookup(a + b, k) == if HasKey(b, k) then LastLookup(b, k) else LastLookup(a, k)
  {
    if a == [] {
      assert a + b == b;
    } else {
      assert (a + b)[1..] == a[1..] + b;
      LastLookupAppend(a[1..], b, k);
    }
  }

  /** Without repeated keys the first and the last entry for a key agree. */
  lemma {:induction false} LastLookupUnique(a: Entries, k: Key)
    requires UniqueKeys(a)
    ensures LastLookup(a, k) == Lookup(a, k)
  {
    if a != [] {
      LastLookupUnique(a[1..], k);
    }
  }

  /** After a run of assignments a key holds the last value assigned to it,
      or what it held before when it was not assigned. */
  lemma {:induction false} PutAllLookup(base: Entries, over: Entries, k: Key)
    ensures Lookup(PutAll(base, over), k) == if HasKey(over, k) then LastLookup(over, k) else Lookup(base, k)
    decreases |over|
  {
    if over != [] {
      PutLookup(base, over[0].0, over[0].1);
      PutAllLookup(Put(base, over[0].0, over[0].1), over[1..], k);
    }
  }

  /** Renumbering leaves string keys and their values alone. */
  lemma {:induction false} RenumberStringKey(a: Entries, next: int, s: string)
    ensures HasKey(Renumber(a, next), StrKey(s)) == HasKey(a, StrKey(s))
    ensures LastLookup(Renumber(a, next), StrKey(s)) == LastLookup(a, StrKey(s))
  {
    if a != [] {
      match a[0].0
      case IntKey(_) =>
        RenumberStringKey(a[1..], next + 1, s);
      case StrKey(_) =>
        RenumberStringKey(a[1..], next, s);
    }
  }

  /** What `array_merge` promises for a string key: the second array's
      value wins, otherwise the first array's value is kept. */
  lemma ArrayMergeStringKey(a: Entries, b: Entries, s: string)
    requires UniqueKeys(a) && UniqueKeys(b)
    ensures Lookup(ArrayMerge(a, b), StrKey(s))
         == if HasKey(b, StrKey(s)) then Lookup(b, StrKey(s)) else Lookup(a, StrKey(s))
  {
    var k := StrKey(s);
    PutAllLookup([], Renumber(a + b, 0), k);
    RenumberStringKey(a + b, 0, s);
    LastLookupAppend(a, b, k);
    LastLookupUnique(a, k);
    LastLookupUnique(b, k);
  }
}
