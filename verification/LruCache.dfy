/** The lookup store's least-recently-used cache, against the history of what was done to it. */
module LruCache {
  import opened Wrappers

  datatype Operation<K, V> = Get(key: K) | Put(key: K, value: V) | Clear

  /* ---- The reference: an unbounded recency list and the last value of every key. ---- */

  function Without<K(==)>(keys: seq<K>, key: K): seq<K> {
    if keys == [] then []
    else if keys[0] == key then keys[1..]
    else [keys[0]] + Without(keys[1..], key)
  }

  /** The `n` most recent entries of a list that ends with the newest. */
  function Newest<K>(keys: seq<K>, n: nat): seq<K> {
    if |keys| <= n then keys else keys[|keys| - n..]
  }

  function Touch<K(==)>(keys: seq<K>, key: K): seq<K> {
    Without(keys, key) + [key]
  }

  /** One operation on the recency list; a missed get touches nothing. */
  function Apply<K(==), V>(keys: seq<K>, operation: Operation<K, V>, capacity: nat): seq<K> {
    if operation.Clear? then []
    else if operation.Put? || operation.key in Newest(keys, capacity) then Touch(keys, operation.key)
    else keys
  }

  /** Keys put since the last clear, least recently touched first. */
  function Recency<K(==), V>(history: seq<Operation<K, V>>, capacity: nat): seq<K> {
    if history == [] then []
    else Apply(Recency(history[..|history| - 1], capacity), history[|history| - 1], capacity)
  }

  function Latest<K(==), V>(before: Option<V>, operation: Operation<K, V>, key: K): Option<V> {
    if operation.Clear? then None
    else if operation.Put? && operation.key == key then Some(operation.value)
    else before
  }

  /** The last value put for a key since the last clear. */
  function LastPut<K(==), V>(history: seq<Operation<K, V>>, key: K): Option<V> {
    if history == [] then None
    else Latest(LastPut(history[..|history| - 1], key), history[|history| - 1], key)
  }

  /** The other keys touched after the last touch of `key`. */
  function TouchedSince<K(==), V>(history: seq<Operation<K, V>>, capacity: nat, key: K): set<K> {
    if history == [] then {}
    else
      var front, last := history[..|history| - 1], history[|history| - 1];
      if last.Clear? then {}
      else if last.Get? && last.key !in Newest(Recency(front, capacity), capacity)
      then TouchedSince(front, capacity, key)
      else if last.key == key then {}
      else TouchedSince(front, capacity, key) + {last.key}
  }

  predicate Distinct<K(==)>(keys: seq<K>) {
    forall i, j :: 0 <= i < j < |keys| ==> keys[i] != keys[j]
  }

  lemma DistinctFirst<K(!new)>(first: K, keys: seq<K>)
    requires Distinct(keys) && first !in keys
    ensures Distinct([first] + keys)
  {
  }

  lemma {:induction false} WithoutMeans<K(!new)>(keys: seq<K>, key: K)
    requires Distinct(keys)
    ensures Distinct(Without(keys, key))
    ensures forall other :: other in Without(keys, key) <==> other in keys && other != key
    ensures |Without(keys, key)| == if key in keys then |keys| - 1 else |keys|
    ensures key !in keys ==> Without(keys, key) == keys
  {
    if keys != [] && keys[0] != key {
      WithoutMeans(keys[1..], key);
      assert keys == [keys[0]] + keys[1..];
      assert keys[0] !in keys[1..];
      assert keys[0] !in Without(keys[1..], key);
      DistinctFirst(keys[0], Without(keys[1..], key));
    } else if keys != [] {
      assert keys == [keys[0]] + keys[1..];
    }
  }

  lemma {:induction false} WithoutConcat<K(!new)>(left: seq<K>, right: seq<K>, key: K)
    ensures key in left ==> Without(left + right, key) == Without(left, key) + right
    ensures key !in left ==> Without(left + right, key) == left + Without(right, key)
  {
    if left == [] {
      assert left + right == right;
    } else {
      assert (left + right)[1..] == left[1..] + right;
      assert left == [left[0]] + left[1..];
      WithoutConcat(left[1..], right, key);
    }
  }

  lemma {:induction false} RecencyDistinct<K(!new), V>(history: seq<Operation<K, V>>, capacity: nat)
    ensures Distinct(Recency(history, capacity))
  {
    if history != [] {
      var front := history[..|history| - 1];
      RecencyDistinct(front, capacity);
      var last := history[|history| - 1];
      if last.Put? || last.Get? {
        WithoutMeans(Recency(front, capacity), last.key);
      }
    }
  }

  lemma NewestParts<K(!new)>(keys: seq<K>, n: nat) returns (gone: seq<K>)
    requires Distinct(keys)
    ensures keys == gone + Newest(keys, n) && |Newest(keys, n)| <= n
    ensures Distinct(gone) && Distinct(Newest(keys, n))
    ensures forall key :: key in gone ==> key !in Newest(keys, n)
    ensures gone != [] ==> |Newest(keys, n)| == n
  {
    gone := keys[..|keys| - |Newest(keys, n)|];
    assert keys == gone + Newest(keys, n);
    forall key | key in gone ensures key !in Newest(keys, n) {
      var i :| 0 <= i < |gone| && gone[i] == key;
      assert keys[i] == key;
      forall j | 0 <= j < |Newest(keys, n)| ensures Newest(keys, n)[j] != key {
        assert keys[|gone| + j] == Newest(keys, n)[j];
      }
    }
  }

  lemma NewestOfConcat<K(!new)>(left: seq<K>, right: seq<K>, n: nat)
    requires |right| >= n || left == []
    ensures Newest(left + right, n) == Newest(right, n)
  {
    if left == [] {
      assert left + right == right;
    }
  }

  /** Touching a key of a distinct list moves it to the end of what is retained. */
  lemma TouchNewest<K(!new)>(keys: seq<K>, key: K, capacity: nat)
    requires Distinct(keys) && capacity > 0
    ensures var touched := Touch(Newest(keys, capacity), key);
            Newest(Touch(keys, key), capacity) == if |touched| > capacity then touched[1..] else touched
    ensures Distinct(Touch(Newest(keys, capacity), key))
    ensures |Newest(keys, capacity)| <= capacity
  {
    hide Newest;
    var held := Newest(keys, capacity);
    var gone := NewestParts(keys, capacity);
    WithoutMeans(held, key);
    WithoutMeans(gone, key);
    WithoutConcat(gone, held, key);
    var touched := Touch(held, key);
    if key in gone {
      assert Touch(keys, key) == Without(gone, key) + touched;
      NewestOfConcat(Without(gone, key), touched, capacity);
    } else {
      assert Touch(keys, key) == gone + touched;
      NewestOfConcat(gone, touched, capacity);
    }
    NewestAtMostOneOver(touched, capacity);
  }

  lemma NewestAtMostOneOver<K(!new)>(keys: seq<K>, n: nat)
    requires |keys| <= n + 1
    ensures Newest(keys, n) == if |keys| > n then keys[1..] else keys
  {
  }

  lemma RecencyAppend<K(!new), V>(history: seq<Operation<K, V>>, operation: Operation<K, V>, capacity: nat)
    ensures Recency(history + [operation], capacity) == Apply(Recency(history, capacity), operation, capacity)
    ensures forall key :: LastPut(history + [operation], key) == Latest(LastPut(history, key), operation, key)
  {
    assert (history + [operation])[..|history|] == history;
  }

  /** `LruCache`; each method runs under the cache's lock. */
  class Cache<K(==, !new), V> {
    const capacity: nat
    /** The ordered dictionary: its keys, oldest first, and its values. */
    var order: seq<K>
    var values: map<K, V>
    /** Everything done to the cache. */
    ghost var history: seq<Operation<K, V>>

    /** The cache is the newest part of the recency list, with the last value of each key. */
    ghost predicate Valid()
      reads this
    {
      && order == Newest(Recency(history, capacity), capacity)
      && (forall key :: key in values ==> key in order)
      && (forall key :: key in order ==> key in values)
      && (forall key :: key in values ==> LastPut(history, key) == Some(values[key]))
    }

    constructor (capacity: int)
      ensures Valid() && history == [] && this.capacity == if capacity < 0 then 0 else capacity
    {
      this.capacity := if capacity < 0 then 0 else capacity;
      order, values, history := [], map[], [];
    }

    method Lookup(key: K) returns (found: bool, value: Option<V>)
      requires Valid()
      modifies this
      ensures Valid() && history == old(history) + [Get(key)]
      ensures found <==> key in old(values)
      ensures value == if found then LastPut(old(history), key) else None
    {
      hide Recency, LastPut, Newest, Without, Distinct;
      RecencyAppend(history, Get(key), capacity);
      RecencyDistinct(history, capacity);
      history := history + [Get(key)];
      if capacity == 0 {
        NothingHeld(Recency(old(history), capacity));
        NothingHeld(Recency(history, capacity));
        return false, None;
      }
      if key !in values {
        return false, None;
      }
      TouchNewest(Recency(old(history), capacity), key, capacity);
      TouchMeans(order, key);
      order := Touch(order, key);
      return true, Some(values[key]);
    }

    method Store(key: K, value: V)
      requires Valid()
      modifies this
      ensures Valid() && history == old(history) + [Put(key, value)]
      // At most one key goes, and it is the least recently touched one.
      ensures forall other :: other in old(values) && other !in values ==> |old(order)| > 0 && other == old(order)[0]
    {
      hide Recency, LastPut, Newest, Without, Distinct;
      RecencyAppend(history, Put(key, value), capacity);
      RecencyDistinct(history, capacity);
      history := history + [Put(key, value)];
      if capacity == 0 {
        NothingHeld(Recency(old(history), capacity));
        NothingHeld(Recency(history, capacity));
        return;
      }
      TouchNewest(Recency(old(history), capacity), key, capacity);
      TouchMeans(order, key);
      order := Touch(order, key);
      values := values[key := value];
      if |order| > capacity {
        var oldest := order[0];
        DropFirst(order);
        order := order[1..];
        values := values - {oldest};
      }
    }

    method Reset()
      requires Valid()
      modifies this
      ensures Valid() && history == old(history) + [Clear] && values == map[]
    {
      RecencyAppend(history, Clear, capacity);
      order, values := [], map[];
      history := history + [Clear];
    }
  }

  lemma NothingHeld<K(!new)>(keys: seq<K>)
    ensures Newest(keys, 0) == []
  {
  }

  lemma TouchMeans<K(!new)>(keys: seq<K>, key: K)
    requires Distinct(Touch(keys, key))
    ensures forall other :: other in Touch(keys, key) <==> other in keys || other == key
    ensures |Touch(keys, key)| == if key in keys then |keys| else |keys| + 1
    ensures key !in keys ==> Touch(keys, key) == keys + [key]
  {
    WithoutMembers(keys, key);
  }

  lemma {:induction false} WithoutMembers<K(!new)>(keys: seq<K>, key: K)
    ensures forall other :: other != key ==> (other in Without(keys, key) <==> other in keys)
    ensures |Without(keys, key)| == if key in keys then |keys| - 1 else |keys|
    ensures key !in keys ==> Without(keys, key) == keys
  {
    if keys != [] {
      assert keys == [keys[0]] + keys[1..];
      if keys[0] != key { WithoutMembers(keys[1..], key); }
    }
  }

  lemma DropFirst<K(!new)>(keys: seq<K>)
    requires keys != [] && Distinct(keys)
    ensures forall key :: key in keys[1..] <==> key in keys && key != keys[0]
  {
    assert keys == [keys[0]] + keys[1..];
  }

  /* ---- What being retained means. ---- */

  function AfterKey<K(==)>(keys: seq<K>, key: K): seq<K> {
    if keys == [] then []
    else if keys[0] == key then keys[1..]
    else AfterKey(keys[1..], key)
  }

  lemma {:induction false} AfterAppend<K(!new)>(keys: seq<K>, key: K, other: K)
    requires Distinct(keys) && key in keys && other != key
    ensures forall k :: k in AfterKey(Without(keys, other) + [other], key) <==> k in AfterKey(keys, key) || k == other
  {
    assert keys == [keys[0]] + keys[1..];
    if keys[0] == key {
      var rest := Without(keys[1..], other);
      assert Without(keys, other) + [other] == [key] + (rest + [other]);
      assert AfterKey(Without(keys, other) + [other], key) == rest + [other];
      WithoutMeans(keys[1..], other);
    } else {
      if keys[0] == other {
        assert Without(keys, other) == keys[1..];
        AfterKeyConcat(keys[1..], [other], key);
      } else {
        AfterAppend(keys[1..], key, other);
        assert (Without(keys, other) + [other])[1..] == Without(keys[1..], other) + [other];
      }
    }
  }

  lemma {:induction false} AfterKeyConcat<K(!new)>(left: seq<K>, right: seq<K>, key: K)
    requires key in left
    ensures AfterKey(left + right, key) == AfterKey(left, key) + right
  {
    assert (left + right)[1..] == left[1..] + right;
    assert left == [left[0]] + left[1..];
    if left[0] != key { AfterKeyConcat(left[1..], right, key); }
  }

  /** The keys that come after a held key are exactly those touched since it was. */
  lemma {:induction false} AfterIsTouchedSince<K(!new), V>(history: seq<Operation<K, V>>, capacity: nat, key: K)
    requires key in Recency(history, capacity)
    ensures forall k :: k in AfterKey(Recency(history, capacity), key) <==> k in TouchedSince(history, capacity, key)
  {
    var front, last := history[..|history| - 1], history[|history| - 1];
    var keys := Recency(front, capacity);
    RecencyDistinct(front, capacity);
    if last.Put? || (last.Get? && last.key in Newest(keys, capacity)) {
      WithoutMeans(keys, last.key);
      if last.key == key {
        AfterLast(Without(keys, key), key);
      } else {
        AfterIsTouchedSince(front, capacity, key);
        AfterAppend(keys, key, last.key);
      }
    } else {
      AfterIsTouchedSince(front, capacity, key);
    }
  }

  lemma {:induction false} AfterLast<K(!new)>(keys: seq<K>, key: K)
    requires key !in keys
    ensures AfterKey(keys + [key], key) == []
  {
    if keys != [] {
      assert (keys + [key])[1..] == keys[1..] + [key];
      AfterLast(keys[1..], key);
    }
  }

  /** Held means: among the newest exactly when few enough keys follow. */
  lemma {:induction false} NewestByFollowers<K(!new)>(keys: seq<K>, key: K, n: nat)
    requires Distinct(keys) && key in keys
    ensures Distinct(AfterKey(keys, key))
    ensures key in Newest(keys, n) <==> |AfterKey(keys, key)| < n
  {
    assert keys == [keys[0]] + keys[1..];
    if keys[0] == key {
      if |keys| > n {
        assert key !in keys[1..];
        assert keys[|keys| - n..] == keys[1..][|keys| - n - 1..];
      }
    } else {
      NewestByFollowers(keys[1..], key, n);
      if |keys| > n {
        assert keys[|keys| - n..] == keys[1..][|keys| - 1 - n..];
      }
    }
  }

  lemma {:induction false} DistinctSize<K(!new)>(keys: seq<K>, members: set<K>)
    requires Distinct(keys)
    requires forall k :: k in keys <==> k in members
    ensures |keys| == |members|
  {
    if keys == [] {
      assert members == {};
    } else {
      assert keys == [keys[0]] + keys[1..];
      DistinctSize(keys[1..], members - {keys[0]});
    }
  }

  lemma {:induction false} RecencyMeansPut<K(!new), V>(history: seq<Operation<K, V>>, capacity: nat, key: K)
    ensures key in Recency(history, capacity) <==> LastPut(history, key).Some?
  {
    if history != [] {
      var front, last := history[..|history| - 1], history[|history| - 1];
      RecencyMeansPut(front, capacity, key);
      RecencyDistinct(front, capacity);
      if last.Put? || last.Get? {
        WithoutMeans(Recency(front, capacity), last.key);
        RecencyMeansPut(front, capacity, last.key);
      }
    }
  }

  /**
   * A key is held exactly when it was put since the last clear and fewer than `capacity` other keys
   * were touched after its own last touch: eviction always takes the least recently touched key.
   */
  lemma HeldExactly<K(!new), V>(history: seq<Operation<K, V>>, capacity: nat, key: K)
    ensures key in Newest(Recency(history, capacity), capacity)
       <==> LastPut(history, key).Some? && |TouchedSince(history, capacity, key)| < capacity
    ensures |Newest(Recency(history, capacity), capacity)| <= capacity
  {
    var keys := Recency(history, capacity);
    RecencyMeansPut(history, capacity, key);
    RecencyDistinct(history, capacity);
    if key in keys {
      AfterIsTouchedSince(history, capacity, key);
      NewestByFollowers(keys, key, capacity);
      DistinctSize(AfterKey(keys, key), TouchedSince(history, capacity, key));
    }
  }
}
