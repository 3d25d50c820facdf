/** Ordering of chat messages by timestamp.

    The hook sorts a copy of its history with `Array.prototype.sort`, comparing the
    parsed timestamps numerically. Since ES2019 that sort is required to be stable.
    Timestamp parsing (`new Date(t).getTime()`) is abstracted as a caller-supplied
    function `timeKey` from the timestamp string to an integer. */
module TimestampOrder {
  import opened Types

  /** The parsed time of a message. */
  function Key(timeKey: string -> int, m: ChatMessage): int {
    timeKey(m.timestamp)
  }

  /** Non-decreasing by parsed time, for every pair of positions. */
  predicate Sorted(timeKey: string -> int, s: seq<ChatMessage>) {
    forall i, j :: 0 <= i < j < |s| ==> Key(timeKey, s[i]) <= Key(timeKey, s[j])
  }

  /** Every message of `s` has parsed time at least `b`. */
  predicate AtLeast(timeKey: string -> int, b: int, s: seq<ChatMessage>) {
    forall i :: 0 <= i < |s| ==> b <= Key(timeKey, s[i])
  }

  /** The messages of `s` whose parsed time is `k`, in their order in `s`. */
  function WithKey(timeKey: string -> int, s: seq<ChatMessage>, k: int): seq<ChatMessage> {
    if s == [] then []
    else (if Key(timeKey, s[0]) == k then [s[0]] else []) + WithKey(timeKey, s[1..], k)
  }

  /** A stable reordering: for every time value, the messages carrying it keep
      their relative order. */
  ghost predicate StableTo(timeKey: string -> int, t: seq<ChatMessage>, s: seq<ChatMessage>) {
    forall k :: WithKey(timeKey, t, k) == WithKey(timeKey, s, k)
  }

  /** Inserts `x` before the first message whose time is not earlier than its own. */
  function Insert(timeKey: string -> int, x: ChatMessage, s: seq<ChatMessage>): seq<ChatMessage> {
    if s == [] || Key(timeKey, x) <= Key(timeKey, s[0]) then [x] + s
    else [s[0]] + Insert(timeKey, x, s[1..])
  }

  /** Insertion sort, inserting the earliest-arrived message last so that it ends
      up in front of any later arrival with the same time. */
  function Sort(timeKey: string -> int, s: seq<ChatMessage>): seq<ChatMessage> {
    if s == [] then [] else Insert(timeKey, s[0], Sort(timeKey, s[1..]))
  }

  lemma {:induction false} InsertPermutes(timeKey: string -> int, x: ChatMessage, s: seq<ChatMessage>)
    ensures multiset(Insert(timeKey, x, s)) == multiset(s) + multiset{x}
    decreases |s|
  {
    if s == [] || Key(timeKey, x) <= Key(timeKey, s[0]) {
    } else {
      InsertPermutes(timeKey, x, s[1..]);
      assert s == [s[0]] + s[1..];
    }
  }

  lemma {:induction false} InsertAtLeast(timeKey: string -> int, b: int, x: ChatMessage, s: seq<ChatMessage>)
    requires AtLeast(timeKey, b, s) && b <= Key(timeKey, x)
    ensures AtLeast(timeKey, b, Insert(timeKey, x, s))
    decreases |s|
  {
    if s == [] || Key(timeKey, x) <= Key(timeKey, s[0]) {
    } else {
      InsertAtLeast(timeKey, b, x, s[1..]);
    }
  }

  lemma {:induction false} InsertSorted(timeKey: string -> int, x: ChatMessage, s: seq<ChatMessage>)
    requires Sorted(timeKey, s)
    ensures Sorted(timeKey, Insert(timeKey, x, s))
    decreases |s|
  {
    if s == [] || Key(timeKey, x) <= Key(timeKey, s[0]) {
      assert AtLeast(timeKey, Key(timeKey, x), s);
    } else {
      var tail := Insert(timeKey, x, s[1..]);
      InsertSorted(timeKey, x, s[1..]);
      InsertAtLeast(timeKey, Key(timeKey, s[0]), x, s[1..]);
      assert Insert(timeKey, x, s) == [s[0]] + tail;
      forall i, j | 0 <= i < j < |[s[0]] + tail|
        ensures Key(timeKey, ([s[0]] + tail)[i]) <= Key(timeKey, ([s[0]] + tail)[j])
      {
        if i > 0 {
          assert ([s[0]] + tail)[i] == tail[i - 1];
        }
        assert ([s[0]] + tail)[j] == tail[j - 1];
      }
    }
  }

  lemma {:induction false} WithKeyConcat(timeKey: string -> int, a: seq<ChatMessage>, b: seq<ChatMessage>, k: int)
    ensures WithKey(timeKey, a + b, k) == WithKey(timeKey, a, k) + WithKey(timeKey, b, k)
    decreases |a|
  {
    if a == [] {
      assert a + b == b;
    } else {
      assert (a + b)[0] == a[0];
      assert (a + b)[1..] == a[1..] + b;
      WithKeyConcat(timeKey, a[1..], b, k);
      var h := if Key(timeKey, a[0]) == k then [a[0]] else [];
      calc {
        WithKey(timeKey, a + b, k);
        h + WithKey(timeKey, a[1..] + b, k);
        h + (WithKey(timeKey, a[1..], k) + WithKey(timeKey, b, k));
        (h + WithKey(timeKey, a[1..], k)) + WithKey(timeKey, b, k);
      }
    }
  }

  /** Inserting `x` adds it to the front of its own time class and leaves every
      other time class as it was. */
  lemma {:induction false} InsertWithKey(timeKey: string -> int, x: ChatMessage, s: seq<ChatMessage>, k: int)
    ensures WithKey(timeKey, Insert(timeKey, x, s), k)
         == (if Key(timeKey, x) == k then [x] else []) + WithKey(timeKey, s, k)
    decreases |s|
  {
    if s == [] || Key(timeKey, x) <= Key(timeKey, s[0]) {
      WithKeyConcat(timeKey, [x], s, k);
    } else {
      InsertWithKey(timeKey, x, s[1..], k);
      WithKeyConcat(timeKey, [s[0]], Insert(timeKey, x, s[1..]), k);
      WithKeyConcat(timeKey, [s[0]], s[1..], k);
      assert s == [s[0]] + s[1..];
    }
  }

  /** The sort only reorders: the result holds exactly the input's messages. */
  lemma {:induction false} SortPermutes(timeKey: string -> int, s: seq<ChatMessage>)
    ensures multiset(Sort(timeKey, s)) == multiset(s)
    decreases |s|
  {
    if s != [] {
      calc {
        multiset(Sort(timeKey, s));
        multiset(Insert(timeKey, s[0], Sort(timeKey, s[1..])));
        { InsertPermutes(timeKey, s[0], Sort(timeKey, s[1..])); }
        multiset(Sort(timeKey, s[1..])) + multiset{s[0]};
        { SortPermutes(timeKey, s[1..]); }
        multiset(s[1..]) + multiset{s[0]};
        { assert s == [s[0]] + s[1..]; }
        multiset(s);
      }
    }
  }

  /** The result is non-decreasing by parsed time. */
  lemma {:induction false} SortSorted(timeKey: string -> int, s: seq<ChatMessage>)
    ensures Sorted(timeKey, Sort(timeKey, s))
    decreases |s|
  {
    if s != [] {
      SortSorted(timeKey, s[1..]);
      InsertSorted(timeKey, s[0], Sort(timeKey, s[1..]));
    }
  }

  /** Messages with equal parsed times keep their arrival order. */
  lemma {:induction false} SortStable(timeKey: string -> int, s: seq<ChatMessage>)
    ensures StableTo(timeKey, Sort(timeKey, s), s)
    decreases |s|
  {
    if s != [] {
      SortStable(timeKey, s[1..]);
      forall k ensures WithKey(timeKey, Sort(timeKey, s), k) == WithKey(timeKey, s, k) {
        InsertWithKey(timeKey, s[0], Sort(timeKey, s[1..]), k);
      }
    }
  }

  lemma {:induction false} WithKeyWitness(timeKey: string -> int, s: seq<ChatMessage>, k: int)
    requires WithKey(timeKey, s, k) != []
    ensures exists i :: 0 <= i < |s| && Key(timeKey, s[i]) == k
    decreases |s|
  {
    if Key(timeKey, s[0]) != k {
      WithKeyWitness(timeKey, s[1..], k);
      var i :| 0 <= i < |s[1..]| && Key(timeKey, s[1..][i]) == k;
      assert s[i + 1] == s[1..][i];
    }
  }

  /** Sortedness and stability together pin the result down: two sorted stable
      reorderings of the same messages are equal. */
  lemma {:induction false} SortedStableUnique(timeKey: string -> int, a: seq<ChatMessage>, b: seq<ChatMessage>)
    requires Sorted(timeKey, a) && Sorted(timeKey, b) && StableTo(timeKey, a, b)
    ensures a == b
    decreases |a|
  {
    if a == [] && b != [] {
      assert false;
    } else if a != [] {
      WithKeyWitness(timeKey, b, Key(timeKey, a[0]));
      var ka, kb := Key(timeKey, a[0]), Key(timeKey, b[0]);
      assert WithKey(timeKey, a, ka)[0] == a[0];
      WithKeyWitness(timeKey, b, ka);
      assert kb <= ka;
      assert WithKey(timeKey, b, kb)[0] == b[0];
      WithKeyWitness(timeKey, a, kb);
      assert ka <= kb;
      assert WithKey(timeKey, b, ka)[0] == b[0];
      assert a[0] == b[0];
      forall k ensures WithKey(timeKey, a[1..], k) == WithKey(timeKey, b[1..], k) {
        var head := if ka == k then [a[0]] else [];
        assert WithKey(timeKey, a, k) == head + WithKey(timeKey, a[1..], k);
        assert WithKey(timeKey, b, k) == head + WithKey(timeKey, b[1..], k);
        assert WithKey(timeKey, a[1..], k) == (head + WithKey(timeKey, a[1..], k))[|head|..];
        assert WithKey(timeKey, b[1..], k) == (head + WithKey(timeKey, b[1..], k))[|head|..];
      }
      SortedStableUnique(timeKey, a[1..], b[1..]);
      assert a == [a[0]] + a[1..];
      assert b == [b[0]] + b[1..];
    }
  }

  /** Any sorted, stable reordering of `s` is the one `Sort` computes, so `Sort`
      agrees with every conforming implementation of a stable sort. */
  lemma SortIsTheStableSort(timeKey: string -> int, s: seq<ChatMessage>, t: seq<ChatMessage>)
    requires Sorted(timeKey, t) && StableTo(timeKey, t, s)
    ensures t == Sort(timeKey, s)
  {
    SortSorted(timeKey, s);
    SortStable(timeKey, s);
    SortedStableUnique(timeKey, t, Sort(timeKey, s));
  }

  /** The last message of a sorted, stable reordering of `s` is one of `s` with the
      greatest time, and the last to arrive among those with that time. */
  lemma LastIsLatest(timeKey: string -> int, v: seq<ChatMessage>, s: seq<ChatMessage>)
    requires |v| > 0 && Sorted(timeKey, v) && multiset(v) == multiset(s) && StableTo(timeKey, v, s)
    ensures v[|v| - 1] in s
    ensures forall e :: e in s ==> Key(timeKey, e) <= Key(timeKey, v[|v| - 1])
    ensures var same := WithKey(timeKey, s, Key(timeKey, v[|v| - 1]));
      |same| > 0 && same[|same| - 1] == v[|v| - 1]
  {
    var m := v[|v| - 1];
    assert m in multiset(v);
    forall e | e in s ensures Key(timeKey, e) <= Key(timeKey, m) {
      assert e in multiset(v);
      var i :| 0 <= i < |v| && v[i] == e;
    }
    var k := Key(timeKey, m);
    var init := v[..|v| - 1];
    assert v == init + [m];
    WithKeyConcat(timeKey, init, [m], k);
    assert WithKey(timeKey, [m], k) == [m];
    assert WithKey(timeKey, s, k) == WithKey(timeKey, v, k);
  }
}
