/** Failure-compatible results used in place of Rust's `anyhow::Result` and Python's exceptions. */
module Wrappers {

  datatype Option<+T> = None | Some(value: T) {
    function GetOr(default: T): T {
      match this
      case Some(v) => v
      case None => default
    }
  }

  /** `Err` carries the message of the error the program raises. */
  datatype Result<+T> = Ok(value: T) | Err(message: string) {
    predicate IsFailure() {
      Err?
    }

    function PropagateFailure<U>(): Result<U>
      requires Err?
    {
      Err(message)
    }

    function GetOr(default: T): T {
      match this
      case Ok(v) => v
      case Err(_) => default
    }

    function Extract(): T
      requires Ok?
    {
      value
    }
  }

  /** Rust's `ensure!`: a check that aborts with a message. */
  function Ensure(condition: bool, message: string): Result<()> {
    if condition then Ok(()) else Err(message)
  }
}

/**
 * Text as UTF-8 bytes. SQLite's BINARY collation, Rust's `str` order and Python's code point order
 * all agree with the byte order defined here.
 */
module Text {
  import opened Wrappers

  type byte = b: int | 0 <= b < 256

  type Text = seq<byte>

  predicate Less(a: Text, b: Text) {
    if b == [] then false
    else if a == [] then true
    else a[0] < b[0] || (a[0] == b[0] && Less(a[1..], b[1..]))
  }

  lemma {:induction false} LessIrreflexive(a: Text)
    ensures !Less(a, a)
  {
    if a != [] { LessIrreflexive(a[1..]); }
  }

  lemma {:induction false} LessTransitive(a: Text, b: Text, c: Text)
    requires Less(a, b) && Less(b, c)
    ensures Less(a, c)
  {
    if a != [] && a[0] == b[0] && b[0] == c[0] {
      LessTransitive(a[1..], b[1..], c[1..]);
    }
  }

  lemma {:induction false} LessTotal(a: Text, b: Text)
    ensures a == b || Less(a, b) || Less(b, a)
  {
    if a != [] && b != [] && a[0] == b[0] {
      LessTotal(a[1..], b[1..]);
      if a[1..] == b[1..] {
        assert a == [a[0]] + a[1..] == [b[0]] + b[1..] == b;
      }
    }
  }

  /** NULL sorts before every text, in SQLite and in both comparators of the program. */
  predicate OptionLess(a: Option<Text>, b: Option<Text>) {
    match (a, b)
    case (_, None) => false
    case (None, Some(_)) => true
    case (Some(x), Some(y)) => Less(x, y)
  }

  /** The bytes a set of texts takes, each text once. */
  ghost function TextBytes(texts: set<Text>): nat {
    if texts == {} then 0
    else
      var text :| text in texts;
      |text| + TextBytes(texts - {text})
  }

  lemma {:induction false} TextBytesAdd(texts: set<Text>, value: Text)
    requires value !in texts
    ensures TextBytes(texts + {value}) == TextBytes(texts) + |value|
    decreases |texts|
  {
    var all := texts + {value};
    var text :| text in all && TextBytes(all) == |text| + TextBytes(all - {text});
    if text == value {
      assert all - {text} == texts;
    } else {
      var rest := texts - {text};
      assert all - {text} == rest + {value} && rest + {text} == texts;
      TextBytesAdd(rest, value);
      TextBytesAdd(rest, text);
    }
  }

  lemma {:induction false} TextBytesSubset(part: set<Text>, whole: set<Text>)
    requires part <= whole
    ensures TextBytes(part) <= TextBytes(whole)
    decreases |whole|
  {
    if text :| text in whole - part {
      TextBytesSubset(part, whole - {text});
      TextBytesAdd(whole - {text}, text);
      assert whole - {text} + {text} == whole;
    } else {
      assert forall text :: text in whole ==> text in part || text in whole - part;
      assert part == whole;
    }
  }
}

/**
 * Every ordering the program sorts by is a lexicographic key of this shape; unused components are
 * constant. Stable sorting by such a key is determined by the key whenever keys are distinct.
 */
module Sorting {
  import opened Wrappers
  import opened Text

  datatype RankKey = RankKey(major: int, minor: int, reading: Option<Text>, last: int)

  predicate KeyLess(a: RankKey, b: RankKey) {
    a.major < b.major
    || (a.major == b.major
        && (a.minor < b.minor
            || (a.minor == b.minor
                && (OptionLess(a.reading, b.reading)
                    || (a.reading == b.reading && a.last < b.last)))))
  }

  lemma KeyLessIrreflexive(a: RankKey)
    ensures !KeyLess(a, a)
  {
    if a.reading.Some? { LessIrreflexive(a.reading.value); }
  }

  lemma OptionLessTransitive(a: Option<Text>, b: Option<Text>, c: Option<Text>)
    requires OptionLess(a, b) && OptionLess(b, c)
    ensures OptionLess(a, c)
  {
    if a.Some? { LessTransitive(a.value, b.value, c.value); }
  }

  lemma KeyLessTransitive(a: RankKey, b: RankKey, c: RankKey)
    requires KeyLess(a, b) && KeyLess(b, c)
    ensures KeyLess(a, c)
  {
    if OptionLess(a.reading, b.reading) && OptionLess(b.reading, c.reading) {
      OptionLessTransitive(a.reading, b.reading, c.reading);
    }
  }

  lemma KeyLessTotal(a: RankKey, b: RankKey)
    ensures a == b || KeyLess(a, b) || KeyLess(b, a)
  {
    if a.reading.Some? && b.reading.Some? { LessTotal(a.reading.value, b.reading.value); }
  }

  lemma KeyLessAsymmetric(a: RankKey, b: RankKey)
    requires KeyLess(a, b)
    ensures !KeyLess(b, a)
  {
    if KeyLess(b, a) {
      KeyLessTransitive(a, b, a);
      KeyLessIrreflexive(a);
    }
  }

  /** No element is followed by a smaller one. */
  ghost predicate Sorted<T>(s: seq<T>, key: T -> RankKey) {
    forall i, j :: 0 <= i < j < |s| ==> !KeyLess(key(s[j]), key(s[i]))
  }

  ghost predicate DistinctKeys<T>(s: seq<T>, key: T -> RankKey) {
    forall i, j :: 0 <= i < j < |s| ==> key(s[i]) != key(s[j])
  }

  /** Stable insertion: `x` goes after every element that is not larger. */
  function Insert<T>(x: T, s: seq<T>, key: T -> RankKey): (r: seq<T>)
    ensures |r| == |s| + 1
  {
    if s == [] || KeyLess(key(x), key(s[|s| - 1])) == false then s + [x]
    else Insert(x, s[..|s| - 1], key) + [s[|s| - 1]]
  }

  /** The stable sort used by `sort_by`, `sort_unstable_by` and `list.sort`. */
  function SortByKey<T>(s: seq<T>, key: T -> RankKey): (r: seq<T>)
    ensures |r| == |s|
  {
    if s == [] then [] else Insert(s[|s| - 1], SortByKey(s[..|s| - 1], key), key)
  }

  lemma {:induction false} InsertMultiset<T>(x: T, s: seq<T>, key: T -> RankKey)
    ensures multiset(Insert(x, s, key)) == multiset(s) + multiset{x}
  {
    if s == [] || !KeyLess(key(x), key(s[|s| - 1])) {
    } else {
      InsertMultiset(x, s[..|s| - 1], key);
      assert s == s[..|s| - 1] + [s[|s| - 1]];
    }
  }

  lemma {:induction false} InsertSorted<T>(x: T, s: seq<T>, key: T -> RankKey)
    requires Sorted(s, key)
    ensures Sorted(Insert(x, s, key), key)
  {
    var r := Insert(x, s, key);
    if s == [] {
    } else if !KeyLess(key(x), key(s[|s| - 1])) {
      forall i | 0 <= i < |s| ensures !KeyLess(key(x), key(s[i])) {
        if KeyLess(key(x), key(s[i])) && i < |s| - 1 {
          KeyLessTotal(key(s[i]), key(s[|s| - 1]));
          if KeyLess(key(s[i]), key(s[|s| - 1])) {
            KeyLessTransitive(key(x), key(s[i]), key(s[|s| - 1]));
          }
        }
      }
    } else {
      var front, top := s[..|s| - 1], s[|s| - 1];
      InsertSorted(x, front, key);
      InsertMultiset(x, front, key);
      var inserted := Insert(x, front, key);
      forall i | 0 <= i < |inserted| ensures !KeyLess(key(top), key(inserted[i])) {
        assert inserted[i] in multiset(inserted);
        if inserted[i] == x {
          KeyLessAsymmetric(key(x), key(top));
        } else {
          assert inserted[i] in multiset(front);
          var j :| 0 <= j < |front| && front[j] == inserted[i];
        }
      }
    }
  }

  lemma {:induction false} SortMultiset<T>(s: seq<T>, key: T -> RankKey)
    ensures multiset(SortByKey(s, key)) == multiset(s)
  {
    if s != [] {
      SortMultiset(s[..|s| - 1], key);
      InsertMultiset(s[|s| - 1], SortByKey(s[..|s| - 1], key), key);
      assert s == s[..|s| - 1] + [s[|s| - 1]];
    }
  }

  lemma {:induction false} SortSorted<T>(s: seq<T>, key: T -> RankKey)
    ensures Sorted(SortByKey(s, key), key)
  {
    if s != [] {
      SortSorted(s[..|s| - 1], key);
      InsertSorted(s[|s| - 1], SortByKey(s[..|s| - 1], key), key);
    }
  }

  /** Membership is unchanged by sorting. */
  lemma SortMembers<T>(s: seq<T>, key: T -> RankKey, x: T)
    ensures x in SortByKey(s, key) <==> x in s
  {
    SortMultiset(s, key);
    assert x in SortByKey(s, key) <==> x in multiset(SortByKey(s, key));
    assert x in s <==> x in multiset(s);
  }

  /** The least element comes first, whichever way the elements were arranged before sorting. */
  lemma HeadUnique<T>(a: seq<T>, b: seq<T>, key: T -> RankKey)
    requires Sorted(a, key) && Sorted(b, key) && DistinctKeys(a, key)
    requires a != [] && b != [] && a[0] in b && b[0] in a
    ensures a[0] == b[0]
  {
    var i :| 0 <= i < |a| && a[i] == b[0];
    var j :| 0 <= j < |b| && b[j] == a[0];
    KeyLessIrreflexive(key(a[0]));
    KeyLessTotal(key(a[0]), key(b[0]));
    assert key(a[i]) == key(a[0]);
  }

  lemma TailMultiset<T>(s: seq<T>)
    requires s != []
    ensures s == [s[0]] + s[1..] && multiset(s[1..]) == multiset(s) - multiset{s[0]}
  {
    assert s == [s[0]] + s[1..];
  }

  lemma SortedTail<T>(s: seq<T>, key: T -> RankKey)
    requires s != []
    ensures Sorted(s, key) ==> Sorted(s[1..], key)
    ensures DistinctKeys(s, key) ==> DistinctKeys(s[1..], key)
  {
  }

  /** Two sorted arrangements of the same elements are equal when keys are distinct. */
  lemma {:induction false} SortedUnique<T>(a: seq<T>, b: seq<T>, key: T -> RankKey)
    requires Sorted(a, key) && Sorted(b, key) && DistinctKeys(a, key)
    requires multiset(a) == multiset(b)
    ensures a == b
  {
    hide KeyLess, Sorted, DistinctKeys;
    assert |a| == |multiset(a)| == |multiset(b)| == |b|;
    if a != [] {
      assert b[0] in multiset(a) && a[0] in multiset(b);
      HeadUnique(a, b, key);
      SortedTail(a, key);
      SortedTail(b, key);
      TailMultiset(a);
      TailMultiset(b);
      SortedUnique(a[1..], b[1..], key);
    }
  }

  lemma {:induction false} TwiceFound<T>(s: seq<T>, x: T)
    requires multiset(s)[x] >= 2
    ensures exists i, j :: 0 <= i < j < |s| && s[i] == x && s[j] == x
  {
    var front, last := s[..|s| - 1], s[|s| - 1];
    assert s == front + [last];
    if last == x {
      assert multiset(front)[x] >= 1;
      assert x in front;
      var i :| 0 <= i < |front| && front[i] == x;
      assert s[i] == x && s[|s| - 1] == x;
    } else {
      TwiceFound(front, x);
      var i, j :| 0 <= i < j < |front| && front[i] == x && front[j] == x;
      assert s[i] == x && s[j] == x;
    }
  }

  lemma CountedTwice<T>(s: seq<T>, i: nat, j: nat)
    requires i < j < |s|
    ensures s[i] == s[j] ==> multiset(s)[s[i]] >= 2
  {
    assert s == s[..j] + s[j..];
    assert s[..j][i] == s[i] && s[j..][0] == s[j];
    assert multiset(s) == multiset(s[..j]) + multiset(s[j..]);
  }

  /** Reordering keeps keys apart. */
  lemma PermutedDistinct<T>(a: seq<T>, b: seq<T>, key: T -> RankKey)
    requires multiset(a) == multiset(b) && DistinctKeys(a, key)
    ensures DistinctKeys(b, key)
  {
    forall i, j | 0 <= i < j < |b| ensures key(b[i]) != key(b[j]) {
      if b[i] == b[j] {
        CountedTwice(b, i, j);
        TwiceFound(a, b[i]);
      } else {
        assert b[i] in multiset(a) && b[j] in multiset(a);
        var k :| 0 <= k < |a| && a[k] == b[i];
        var l :| 0 <= l < |a| && a[l] == b[j];
        assert k != l;
      }
    }
  }

  /** Sorting forgets the order it was given when keys are distinct. */
  lemma SortOrderFree<T>(a: seq<T>, b: seq<T>, key: T -> RankKey)
    requires multiset(a) == multiset(b) && DistinctKeys(a, key)
    ensures SortByKey(a, key) == SortByKey(b, key)
  {
    SortSorted(a, key);
    SortSorted(b, key);
    SortMultiset(a, key);
    SortMultiset(b, key);
    PermutedDistinct(a, SortByKey(a, key), key);
    SortedUnique(SortByKey(a, key), SortByKey(b, key), key);
  }

  /** Two keys order the elements of `s` alike. */
  ghost predicate OrderAlike<T>(s: seq<T>, key: T -> RankKey, other: T -> RankKey) {
    forall x, y :: x in s && y in s ==> (KeyLess(key(x), key(y)) <==> KeyLess(other(x), other(y)))
  }

  lemma {:induction false} InsertAlike<T>(x: T, s: seq<T>, key: T -> RankKey, other: T -> RankKey)
    requires OrderAlike(s + [x], key, other)
    ensures Insert(x, s, key) == Insert(x, s, other)
  {
    hide KeyLess;
    if s != [] {
      var front, last := s[..|s| - 1], s[|s| - 1];
      assert s == front + [last];
      assert x in s + [x] && last in s + [x];
      forall y | y in front + [x] ensures y in s + [x] {
      }
      InsertAlike(x, front, key, other);
    }
  }

  /** Keys that order the elements alike sort them alike. */
  lemma {:induction false} SortAlike<T>(s: seq<T>, key: T -> RankKey, other: T -> RankKey)
    requires OrderAlike(s, key, other)
    ensures SortByKey(s, key) == SortByKey(s, other)
  {
    hide KeyLess;
    if s != [] {
      var front, last := s[..|s| - 1], s[|s| - 1];
      assert s == front + [last];
      SortAlike(front, key, other);
      var sorted := SortByKey(front, key);
      forall y | y in sorted + [last] ensures y in s {
        SortMembers(front, key, y);
      }
      InsertAlike(last, sorted, key, other);
    }
  }

  function Map<S, T>(f: S -> T, s: seq<S>): (r: seq<T>)
    ensures |r| == |s|
    ensures forall i :: 0 <= i < |s| ==> r[i] == f(s[i])
  {
    seq(|s|, i requires 0 <= i < |s| => f(s[i]))
  }

  lemma MapAppend<S, T>(f: S -> T, s: seq<S>, x: S)
    ensures Map(f, s + [x]) == Map(f, s) + [f(x)]
  {
  }

  lemma {:induction false} InsertMap<S, T>(x: S, s: seq<S>, inner: S -> RankKey, f: S -> T, key: T -> RankKey)
    requires forall y :: y in s + [x] ==> inner(y) == key(f(y))
    ensures Map(f, Insert(x, s, inner)) == Insert(f(x), Map(f, s), key)
  {
    hide KeyLess, Map;
    assert x in s + [x];
    if s == [] {
      MapAppend(f, [], x);
      assert [] + [x] == [x];
    } else {
      var front, last := s[..|s| - 1], s[|s| - 1];
      assert s == front + [last] && last in s + [x];
      MapAppend(f, front, last);
      MapAppend(f, s, x);
      assert Map(f, s)[..|s| - 1] == Map(f, front);
      if KeyLess(inner(x), inner(last)) {
        InsertMap(x, front, inner, f, key);
        MapAppend(f, Insert(x, front, inner), last);
      }
    }
  }

  /** Sorting by a key of the image is sorting the image. */
  lemma {:induction false} SortMap<S, T>(s: seq<S>, inner: S -> RankKey, f: S -> T, key: T -> RankKey)
    requires forall y :: y in s ==> inner(y) == key(f(y))
    ensures Map(f, SortByKey(s, inner)) == SortByKey(Map(f, s), key)
  {
    if s != [] {
      var front, last := s[..|s| - 1], s[|s| - 1];
      assert s == front + [last];
      SortMap(front, inner, f, key);
      forall y | y in SortByKey(front, inner) ensures y in front {
        SortMembers(front, inner, y);
      }
      InsertMap(last, SortByKey(front, inner), inner, f, key);
      assert Map(f, s)[..|s| - 1] == Map(f, front);
    }
  }

  /** The head of a stable insertion is the earliest least element. */
  lemma {:induction false} InsertHead<T>(x: T, s: seq<T>, key: T -> RankKey)
    requires Sorted(s, key)
    ensures Insert(x, s, key)[0] == if s == [] || KeyLess(key(x), key(s[0])) then x else s[0]
  {
    if s != [] {
      var top := s[|s| - 1];
      if KeyLess(key(x), key(s[0])) && !KeyLess(key(x), key(top)) {
        KeyLessTotal(key(s[0]), key(top));
        if KeyLess(key(s[0]), key(top)) {
          KeyLessTransitive(key(x), key(s[0]), key(top));
        }
      }
      if KeyLess(key(x), key(top)) {
        InsertHead(x, s[..|s| - 1], key);
      }
    }
  }

  function Head<T>(s: seq<T>): Option<T> {
    if s == [] then None else Some(s[0])
  }

  /** Nothing sorts before the head. */
  lemma HeadLeast<T>(s: seq<T>, key: T -> RankKey, x: T)
    requires x in s
    ensures SortByKey(s, key)[0] in s
    ensures !KeyLess(key(x), key(SortByKey(s, key)[0]))
  {
    var sorted := SortByKey(s, key);
    SortSorted(s, key);
    SortMembers(s, key, x);
    SortMembers(s, key, sorted[0]);
    var j :| 0 <= j < |sorted| && sorted[j] == x;
    if j == 0 { KeyLessIrreflexive(key(x)); }
  }

  /** Scanning for the least element, replacing only on strictly less, computes the sorted head. */
  lemma ScanHead<T>(s: seq<T>, x: T, key: T -> RankKey)
    ensures var best := Head(SortByKey(s, key));
            Head(SortByKey(s + [x], key))
            == if best.None? || KeyLess(key(x), key(best.value)) then Some(x) else best
  {
    SortSorted(s, key);
    InsertHead(x, SortByKey(s, key), key);
    assert (s + [x])[..|s|] == s;
  }

  /** The elements that pass, in order. */
  function Keep<T>(s: seq<T>, p: T -> bool): seq<T> {
    if s == [] then []
    else
      var last := s[|s| - 1];
      Keep(s[..|s| - 1], p) + (if p(last) then [last] else [])
  }

  lemma {:induction false} KeepMembers<T>(s: seq<T>, p: T -> bool, x: T)
    ensures x in Keep(s, p) <==> x in s && p(x)
  {
    if s != [] {
      var front, last := s[..|s| - 1], s[|s| - 1];
      KeepMembers(front, p, x);
      assert s == front + [last];
    }
  }

  lemma {:induction false} KeepCounts<T>(s: seq<T>, p: T -> bool, x: T)
    ensures multiset(Keep(s, p))[x] == if p(x) then multiset(s)[x] else 0
  {
    if s != [] {
      var front, last := s[..|s| - 1], s[|s| - 1];
      KeepCounts(front, p, x);
      assert s == front + [last];
      assert multiset(s) == multiset(front) + multiset{last};
      assert multiset(Keep(s, p)) == multiset(Keep(front, p)) + (if p(last) then multiset{last} else multiset{});
    }
  }

  lemma KeepAppend<T>(s: seq<T>, x: T, p: T -> bool)
    ensures Keep(s + [x], p) == if p(x) then Keep(s, p) + [x] else Keep(s, p)
  {
    assert (s + [x])[..|s|] == s;
  }

  lemma {:induction false} KeepAll<T>(s: seq<T>, p: T -> bool)
    requires forall x :: x in s ==> p(x)
    ensures Keep(s, p) == s
  {
    if s != [] {
      assert s == s[..|s| - 1] + [s[|s| - 1]];
      KeepAll(s[..|s| - 1], p);
    }
  }

  lemma KeepNone<T>(s: seq<T>, p: T -> bool)
    requires forall x :: x in s ==> !p(x)
    ensures Keep(s, p) == []
  {
    if Keep(s, p) != [] {
      KeepMembers(s, p, Keep(s, p)[0]);
    }
  }

  lemma {:induction false} KeepConcat<T>(a: seq<T>, b: seq<T>, p: T -> bool)
    ensures Keep(a + b, p) == Keep(a, p) + Keep(b, p)
  {
    if b == [] {
      assert a + b == a;
    } else {
      var front, last := b[..|b| - 1], b[|b| - 1];
      KeepConcat(a, front, p);
      assert a + b == (a + front) + [last];
      KeepAppend(a + front, last, p);
    }
  }

  lemma KeepRemoved<T>(left: seq<T>, x: T, right: seq<T>, p: T -> bool)
    ensures multiset(Keep(left + [x] + right, p))
         == multiset(Keep(left + right, p)) + (if p(x) then multiset{x} else multiset{})
  {
    KeepConcat(left + [x], right, p);
    KeepAppend(left, x, p);
    KeepConcat(left, right, p);
  }

  lemma TakeOut<T>(s: seq<T>, x: T) returns (left: seq<T>, right: seq<T>)
    requires x in s
    ensures s == left + [x] + right
    ensures multiset(left + right) == multiset(s) - multiset{x}
  {
    var j :| 0 <= j < |s| && s[j] == x;
    left, right := s[..j], s[j + 1..];
    assert s == left + [x] + right;
  }

  lemma {:induction false} KeepPermuted<T>(a: seq<T>, b: seq<T>, p: T -> bool)
    requires multiset(a) == multiset(b)
    ensures multiset(Keep(a, p)) == multiset(Keep(b, p))
  {
    hide Keep;
    if a == [] {
      assert |b| == |multiset(b)| == 0;
      assert b == a;
    } else {
      var front, last := a[..|a| - 1], a[|a| - 1];
      assert a == front + [last];
      assert last in multiset(b);
      var left, right := TakeOut(b, last);
      KeepPermuted(front, left + right, p);
      KeepRemoved(left, last, right, p);
      KeepAppend(front, last, p);
    }
  }

  lemma {:induction false} KeepDistinct<T>(s: seq<T>, p: T -> bool, key: T -> RankKey)
    requires DistinctKeys(s, key)
    ensures DistinctKeys(Keep(s, p), key)
  {
    if s != [] {
      var front, last := s[..|s| - 1], s[|s| - 1];
      KeepDistinct(front, p, key);
      assert s == front + [last];
      KeepAppend(front, last, p);
      forall x | x in Keep(front, p) ensures key(x) != key(last) {
        KeepMembers(front, p, x);
        var k :| 0 <= k < |front| && front[k] == x;
        assert key(s[k]) != key(s[|s| - 1]);
      }
    }
  }

  lemma {:induction false} KeepSorted<T>(s: seq<T>, p: T -> bool, key: T -> RankKey)
    requires Sorted(s, key)
    ensures Sorted(Keep(s, p), key)
  {
    hide KeyLess;
    if s != [] {
      var front, last := s[..|s| - 1], s[|s| - 1];
      KeepSorted(front, p, key);
      assert s == front + [last];
      KeepAppend(front, last, p);
      forall x | x in Keep(front, p) ensures !KeyLess(key(last), key(x)) {
        KeepMembers(front, p, x);
        var k :| 0 <= k < |front| && front[k] == x;
        assert !KeyLess(key(s[|s| - 1]), key(s[k]));
      }
    }
  }
}
