/**
 * The OrderedDict cache of RoutePlanner (analytics/app/routing.py) as a list of keys from
 * least to most recently used, and what it refines: the most recently touched keys.
 */
module RouteCache {
  import opened Common

  /** Origin latitude and longitude, destination latitude and longitude. */
  type Key = (real, real, real, real)

  datatype Route = Route(id: int)

  datatype Slot = Slot(key: Key, expires: real, route: Route)

  const CAPACITY: nat := 1024

  function Keys(cache: seq<Slot>): (ks: seq<Key>)
    ensures |ks| == |cache|
  {
    if cache == [] then [] else Keys(cache[..|cache| - 1]) + [cache[|cache| - 1].key]
  }

  /** The cache without a key. */
  function Remove(cache: seq<Slot>, key: Key): seq<Slot> {
    if cache == [] then []
    else if cache[|cache| - 1].key == key then Remove(cache[..|cache| - 1], key)
    else Remove(cache[..|cache| - 1], key) + [cache[|cache| - 1]]
  }

  /** popitem(last=False) while the cache is over capacity. */
  function Trim(cache: seq<Slot>): (r: seq<Slot>)
    ensures |r| <= CAPACITY
    decreases |cache|
  {
    if |cache| > CAPACITY then Trim(cache[1..]) else cache
  }

  /** Assigning a key and moving it to the end, then evicting. */
  function Write(cache: seq<Slot>, slot: Slot): seq<Slot> {
    Trim(Remove(cache, slot.key) + [slot])
  }

  function Lookup(cache: seq<Slot>, key: Key): Option<Slot> {
    if cache == [] then None
    else if cache[|cache| - 1].key == key then Some(cache[|cache| - 1])
    else Lookup(cache[..|cache| - 1], key)
  }

  /** Move a key that is present to the end. */
  function MoveToEnd(cache: seq<Slot>, slot: Slot): seq<Slot> {
    Remove(cache, slot.key) + [slot]
  }

  // ---------------------------------------------------------------- the reference: recency

  function Without(s: seq<Key>, k: Key): seq<Key> {
    if s == [] then []
    else if s[|s| - 1] == k then Without(s[..|s| - 1], k)
    else Without(s[..|s| - 1], k) + [s[|s| - 1]]
  }

  /** The distinct keys of a touch history, ordered by their last touch. */
  function Recent(touches: seq<Key>): seq<Key> {
    if touches == [] then []
    else Without(Recent(touches[..|touches| - 1]), touches[|touches| - 1]) + [touches[|touches| - 1]]
  }

  /** The last n elements. */
  function Last<T>(s: seq<T>, n: nat): seq<T> {
    if |s| <= n then s else s[|s| - n..]
  }

  /** The keys touched after the last touch of k. */
  function After(touches: seq<Key>, k: Key): set<Key> {
    if touches == [] || touches[|touches| - 1] == k then {}
    else After(touches[..|touches| - 1], k) + {touches[|touches| - 1]}
  }

  predicate NoDuplicates(s: seq<Key>) {
    s == [] || (NoDuplicates(s[..|s| - 1]) && s[|s| - 1] !in Elements(s[..|s| - 1]))
  }

  // ---------------------------------------------------------------- list facts

  lemma Snoc<T>(s: seq<T>, x: T)
    ensures (s + [x])[..|s|] == s && (s + [x])[|s|] == x
  {
  }

  lemma AppendSnoc<T>(a: seq<T>, b: seq<T>)
    requires b != []
    ensures a + b == a + b[..|b| - 1] + [b[|b| - 1]]
    ensures (a + b)[..|a + b| - 1] == a + b[..|b| - 1]
  {
  }

  lemma {:induction false} WithoutAppend(a: seq<Key>, b: seq<Key>, k: Key)
    ensures Without(a + b, k) == Without(a, k) + Without(b, k)
  {
    if b == [] {
      assert a + b == a;
    } else {
      AppendSnoc(a, b);
      WithoutAppend(a, b[..|b| - 1], k);
    }
  }

  lemma {:induction false} ElementsAppend(a: seq<Key>, b: seq<Key>)
    ensures Elements(a + b) == Elements(a) + Elements(b)
  {
    if b == [] {
      assert a + b == a;
    } else {
      AppendSnoc(a, b);
      ElementsAppend(a, b[..|b| - 1]);
    }
  }

  lemma {:induction false} WithoutAbsent(s: seq<Key>, k: Key)
    requires k !in Elements(s)
    ensures Without(s, k) == s
  {
    if s != [] { WithoutAbsent(s[..|s| - 1], k); }
  }

  lemma {:induction false} WithoutElements(s: seq<Key>, k: Key)
    ensures Elements(Without(s, k)) == Elements(s) - {k}
  {
    if s != [] {
      WithoutElements(s[..|s| - 1], k);
      if s[|s| - 1] != k { Snoc(Without(s[..|s| - 1], k), s[|s| - 1]); }
    }
  }

  lemma {:induction false} WithoutNoDuplicates(s: seq<Key>, k: Key)
    requires NoDuplicates(s)
    ensures NoDuplicates(Without(s, k))
    ensures |Without(s, k)| == if k in Elements(s) then |s| - 1 else |s|
  {
    if s != [] {
      WithoutNoDuplicates(s[..|s| - 1], k);
      WithoutElements(s[..|s| - 1], k);
      if s[|s| - 1] != k { Snoc(Without(s[..|s| - 1], k), s[|s| - 1]); }
    }
  }

  lemma {:induction false} SplitNoDuplicates(a: seq<Key>, b: seq<Key>)
    requires NoDuplicates(a + b)
    ensures NoDuplicates(a) && NoDuplicates(b) && Elements(a) !! Elements(b)
  {
    if b == [] {
      assert a + b == a;
    } else {
      AppendSnoc(a, b);
      SplitNoDuplicates(a, b[..|b| - 1]);
      ElementsAppend(a, b[..|b| - 1]);
    }
  }

  lemma {:induction false} NoDuplicatesCount(s: seq<Key>)
    requires NoDuplicates(s)
    ensures |Elements(s)| == |s|
  {
    if s != [] { NoDuplicatesCount(s[..|s| - 1]); }
  }

  lemma {:induction false} RecentNoDuplicates(touches: seq<Key>)
    ensures NoDuplicates(Recent(touches)) && Elements(Recent(touches)) == Elements(touches)
  {
    if touches != [] {
      var before, k := touches[..|touches| - 1], touches[|touches| - 1];
      RecentNoDuplicates(before);
      WithoutNoDuplicates(Recent(before), k);
      WithoutElements(Recent(before), k);
      Snoc(Without(Recent(before), k), k);
    }
  }

  // ---------------------------------------------------------------- the cache refines recency

  lemma {:induction false} KeysOfRemove(cache: seq<Slot>, key: Key)
    ensures Keys(Remove(cache, key)) == Without(Keys(cache), key)
  {
    if cache != [] {
      KeysOfRemove(cache[..|cache| - 1], key);
      Snoc(Keys(cache[..|cache| - 1]), cache[|cache| - 1].key);
      if cache[|cache| - 1].key != key { Snoc(Remove(cache[..|cache| - 1], key), cache[|cache| - 1]); }
    }
  }

  lemma KeysSnoc(cache: seq<Slot>, slot: Slot)
    ensures Keys(cache + [slot]) == Keys(cache) + [slot.key]
  {
    Snoc(cache, slot);
  }

  lemma {:induction false} KeysIndex(cache: seq<Slot>, i: nat)
    requires i < |cache|
    ensures Keys(cache)[i] == cache[i].key
  {
    if i < |cache| - 1 { KeysIndex(cache[..|cache| - 1], i); }
  }

  lemma KeysTail(cache: seq<Slot>)
    requires cache != []
    ensures Keys(cache[1..]) == Keys(cache)[1..]
  {
    forall i | 0 <= i < |cache| - 1 ensures Keys(cache[1..])[i] == Keys(cache)[1..][i] {
      KeysIndex(cache[1..], i);
      KeysIndex(cache, i + 1);
    }
  }

  lemma {:induction false} KeysOfTrim(cache: seq<Slot>)
    ensures Keys(Trim(cache)) == Last(Keys(cache), CAPACITY)
    decreases |cache|
  {
    if |cache| > CAPACITY {
      KeysTail(cache);
      KeysOfTrim(cache[1..]);
    }
  }

  lemma LastOfAppend<T>(a: seq<T>, b: seq<T>, n: nat)
    ensures |b| >= n ==> Last(a + b, n) == Last(b, n)
  {
  }

  /** Moving k to the end of the full recency list moves it to the end of the window too. */
  lemma WindowMoves(recent: seq<Key>, k: Key, n: nat)
    requires NoDuplicates(recent) && n > 0
    ensures Last(Without(Last(recent, n), k) + [k], n) == Last(Without(recent, k) + [k], n)
  {
    hide Without, Elements, NoDuplicates;
    if |recent| > n {
      var a, b := recent[..|recent| - n], recent[|recent| - n..];
      assert recent == a + b;
      SplitNoDuplicates(a, b);
      WithoutAppend(a, b, k);
      WithoutNoDuplicates(b, k);
      assert Without(recent, k) + [k] == Without(a, k) + (Without(b, k) + [k]);
      if k in Elements(b) {
        LastOfAppend(Without(a, k), Without(b, k) + [k], n);
      } else {
        WithoutAbsent(b, k);
        LastOfAppend(Without(a, k), b + [k], n);
      }
    }
  }

  /** A write keeps the cache the window of most recently touched keys. */
  lemma {:induction false} WriteKeepsWindow(cache: seq<Slot>, slot: Slot, touches: seq<Key>)
    requires Keys(cache) == Last(Recent(touches), CAPACITY)
    ensures Keys(Write(cache, slot)) == Last(Recent(touches + [slot.key]), CAPACITY)
  {
    RecentNoDuplicates(touches);
    Snoc(touches, slot.key);
    KeysOfRemove(cache, slot.key);
    KeysSnoc(Remove(cache, slot.key), slot);
    KeysOfTrim(Remove(cache, slot.key) + [slot]);
    WindowMoves(Recent(touches), slot.key, CAPACITY);
  }

  /** So does a fresh hit, which only moves a key that is present. */
  lemma {:induction false} HitKeepsWindow(cache: seq<Slot>, slot: Slot, touches: seq<Key>)
    requires Keys(cache) == Last(Recent(touches), CAPACITY) && slot.key in Elements(Keys(cache))
    ensures Keys(MoveToEnd(cache, slot)) == Last(Recent(touches + [slot.key]), CAPACITY)
  {
    WriteKeepsWindow(cache, slot, touches);
    RecentNoDuplicates(touches);
    WindowNoDuplicates(Recent(touches), CAPACITY);
    KeysOfRemove(cache, slot.key);
    WithoutNoDuplicates(Keys(cache), slot.key);
    assert Write(cache, slot) == MoveToEnd(cache, slot);
  }

  lemma WindowNoDuplicates(s: seq<Key>, n: nat)
    requires NoDuplicates(s)
    ensures NoDuplicates(Last(s, n))
  {
    if |s| > n {
      assert s == s[..|s| - n] + s[|s| - n..];
      SplitNoDuplicates(s[..|s| - n], s[|s| - n..]);
    }
  }

  /** In recency order, a touched key is followed by exactly the keys touched after it. */
  lemma {:induction false} RecentSplits(touches: seq<Key>, k: Key) returns (a: seq<Key>, b: seq<Key>)
    requires k in Elements(touches)
    ensures Recent(touches) == a + [k] + b && Elements(b) == After(touches, k)
  {
    var before, x := touches[..|touches| - 1], touches[|touches| - 1];
    if x == k {
      a, b := Without(Recent(before), k), [];
    } else {
      a, b := RecentSplits(before, k);
      WithoutAppend(a + [k], b, x);
      WithoutAppend(a, [k], x);
      assert Without([k], x) == [k] by { assert [k][..0] == []; }
      WithoutElements(b, x);
      Snoc(Without(b, x), x);
      a, b := Without(a, x), Without(b, x) + [x];
    }
  }

  /**
   * LRU survival: a key is in the window exactly when it was touched and fewer than n other
   * keys have been touched since.
   */
  lemma {:induction false} InWindowIff(touches: seq<Key>, k: Key, n: nat)
    requires n > 0
    ensures k in Elements(Last(Recent(touches), n)) <==> k in Elements(touches) && |After(touches, k)| < n
  {
    var r := Recent(touches);
    RecentNoDuplicates(touches);
    if k in Elements(touches) {
      var a, b := RecentSplits(touches, k);
      SplitNoDuplicates(a + [k], b);
      NoDuplicatesCount(b);
      Snoc(a, k);
      assert k in Elements(a + [k]);
      PositionInWindow(r, a, b, k, n);
    } else if |r| > n {
      assert r == r[..|r| - n] + r[|r| - n..];
      ElementsAppend(r[..|r| - n], r[|r| - n..]);
    }
  }

  lemma InsideWindow(r: seq<Key>, a: seq<Key>, b: seq<Key>, k: Key, n: nat)
    requires r == a + [k] + b && |b| < n
    ensures k in Last(r, n)
  {
    if |r| > n { assert Last(r, n)[n - |b| - 1] == k; } else { assert r[|a|] == k; }
  }

  lemma OutsideWindow(r: seq<Key>, a: seq<Key>, b: seq<Key>, k: Key, n: nat)
    requires r == a + [k] + b && k !in b && n <= |b|
    ensures k !in Last(r, n)
  {
    assert |r| > n;
    forall i | 0 <= i < n ensures Last(r, n)[i] != k { assert Last(r, n)[i] == b[|b| - n + i]; }
  }

  lemma PositionInWindow(r: seq<Key>, a: seq<Key>, b: seq<Key>, k: Key, n: nat)
    requires r == a + [k] + b && k !in Elements(b) && n > 0
    ensures k in Elements(Last(r, n)) <==> |b| < n
  {
    hide Elements, Last;
    ElementsMembers(Last(r, n), k);
    ElementsMembers(b, k);
    if |b| < n { InsideWindow(r, a, b, k, n); } else { OutsideWindow(r, a, b, k, n); }
  }
}
