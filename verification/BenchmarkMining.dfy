/** Picking benchmark threads round-robin over topic/channel buckets, and reserving holdouts. */
module BenchmarkMining {
  import opened Options
  import opened Ordering

  /** A Slack question: its root, its replies, and the texts of the replies that people wrote. */
  datatype Thread = Thread(
    rootId: string, rootText: string, replyIds: seq<string>, humanReplies: seq<string>, topic: string, channel: string)

  datatype Rejection = Rejection(sourceId: string, reason: string)

  /** Why a thread is no substantive question, if it is not one. */
  type Judge = Thread -> Option<string>

  function Key(t: Thread): (k: string) { t.topic + ['\0'] + t.channel }

  /** Threads share a bucket exactly when they share topic and channel, as long as no topic has a NUL in it. */
  lemma KeyTells(a: Thread, b: Thread)
    requires '\0' !in a.topic && '\0' !in b.topic
    ensures Key(a) == Key(b) <==> a.topic == b.topic && a.channel == b.channel
  {
    if Key(a) == Key(b) {
      var k, m, n := Key(a), |a.topic|, |b.topic|;
      assert k[m] == '\0' && k[n] == '\0';
      assert forall i :: 0 <= i < m ==> k[i] == a.topic[i] != '\0';
      assert forall i :: 0 <= i < n ==> k[i] == b.topic[i] != '\0';
      assert m == n;
      assert k[..m] == a.topic && k[..n] == b.topic && k[m + 1..] == a.channel && k[n + 1..] == b.channel;
    }
  }

  function Valid(threads: seq<Thread>, judge: Judge): (r: seq<Thread>) {
    if threads == [] then []
    else
      var last := threads[|threads| - 1];
      Valid(threads[..|threads| - 1], judge) + if judge(last).None? then [last] else []
  }

  function Rejected(threads: seq<Thread>, judge: Judge): (r: seq<Rejection>) {
    if threads == [] then []
    else
      var last := threads[|threads| - 1];
      Rejected(threads[..|threads| - 1], judge)
      + if judge(last).Some? then [Rejection(last.rootId, judge(last).value)] else []
  }

  lemma {:induction false} ValidKeeps(threads: seq<Thread>, judge: Judge, t: Thread)
    ensures multiset(Valid(threads, judge))[t] == if judge(t).None? then multiset(threads)[t] else 0
  {
    if threads != [] {
      var n := |threads| - 1;
      ValidKeeps(threads[..n], judge, t);
      assert threads == threads[..n] + [threads[n]];
    }
  }

  lemma {:induction false} RejectedHas(threads: seq<Thread>, judge: Judge)
    ensures |Valid(threads, judge)| + |Rejected(threads, judge)| == |threads|
    ensures forall t :: t in threads && judge(t).Some? ==>
      Rejection(t.rootId, judge(t).value) in Rejected(threads, judge)
  {
    if threads != [] {
      var n := |threads| - 1;
      RejectedHas(threads[..n], judge);
      assert forall t :: t in threads <==> t in threads[..n] || t == threads[n];
    }
  }

  /** Every thread is either valid or rejected. */
  lemma ValidAndRejectedPartition(threads: seq<Thread>, judge: Judge)
    ensures |Valid(threads, judge)| + |Rejected(threads, judge)| == |threads|
    ensures forall t :: multiset(Valid(threads, judge))[t] == if judge(t).None? then multiset(threads)[t] else 0
    ensures forall t :: t in threads && judge(t).Some? ==>
      Rejection(t.rootId, judge(t).value) in Rejected(threads, judge)
  {
    hide *;
    RejectedHas(threads, judge);
    forall t: Thread ensures multiset(Valid(threads, judge))[t] == if judge(t).None? then multiset(threads)[t] else 0 {
      ValidKeeps(threads, judge, t);
    }
  }

  /** The threads of `s` in the bucket of `k`, in order. */
  function OfKey(s: seq<Thread>, k: string): (r: seq<Thread>) {
    if s == [] then []
    else OfKey(s[..|s| - 1], k) + if Key(s[|s| - 1]) == k then [s[|s| - 1]] else []
  }

  function Count(s: seq<Thread>, k: string): (n: nat) { |OfKey(s, k)| }

  function Reversed(s: seq<Thread>): (r: seq<Thread>) {
    if s == [] then [] else [s[|s| - 1]] + Reversed(s[..|s| - 1])
  }

  lemma OfKeyAppend(s: seq<Thread>, t: Thread, k: string)
    ensures OfKey(s + [t], k) == OfKey(s, k) + if Key(t) == k then [t] else []
    ensures Count(s + [t], k) == Count(s, k) + if Key(t) == k then 1 else 0
  {
    assert (s + [t])[..|s|] == s;
  }

  lemma ReversedAppend(s: seq<Thread>, t: Thread)
    ensures Reversed(s + [t]) == [t] + Reversed(s)
  {
    assert (s + [t])[..|s|] == s;
  }

  lemma {:induction false} OfKeyKeys(s: seq<Thread>, k: string, t: Thread)
    requires t in OfKey(s, k)
    ensures Key(t) == k && t in s
  {
    var n := |s| - 1;
    if Key(s[n]) != k || t != s[n] {
      OfKeyKeys(s[..n], k, t);
    }
  }

  lemma {:induction false} OfKeyHolds(s: seq<Thread>, t: Thread)
    ensures multiset(OfKey(s, Key(t)))[t] == multiset(s)[t]
  {
    if s != [] {
      var n := |s| - 1;
      OfKeyHolds(s[..n], t);
      assert s == s[..n] + [s[n]];
    }
  }

  lemma {:induction false} ReversedMultiset(s: seq<Thread>)
    ensures multiset(Reversed(s)) == multiset(s) && |Reversed(s)| == |s|
  {
    if s != [] {
      var n := |s| - 1;
      ReversedMultiset(s[..n]);
      assert s == s[..n] + [s[n]];
    }
  }

  /** No bucket is two picks ahead of another one that still has threads. */
  ghost predicate Fair(picks: seq<Thread>, all: seq<Thread>) {
    forall a, b :: Count(picks, a) <= Count(picks, b) + 1 || Count(picks, b) == Count(all, b)
  }

  ghost predicate AlwaysFair(picks: seq<Thread>, all: seq<Thread>) {
    forall n :: 0 <= n <= |picks| ==> Fair(picks[..n], all)
  }

  lemma AlwaysFairAppend(picks: seq<Thread>, t: Thread, all: seq<Thread>)
    requires AlwaysFair(picks, all) && Fair(picks + [t], all)
    ensures AlwaysFair(picks + [t], all)
  {
    hide Fair;
    var longer := picks + [t];
    forall n | 0 <= n <= |longer| ensures Fair(longer[..n], all) {
      if n <= |picks| { assert longer[..n] == picks[..n]; } else { assert longer[..n] == longer; }
    }
  }

  // ----- the buckets -----

  function Bucket(buckets: map<string, seq<Thread>>, k: string): (b: seq<Thread>) {
    if k in buckets then buckets[k] else []
  }

  /** What is left in each bucket, followed by what was popped from it, last pop first, is the bucket's
      original content. */
  ghost predicate Conserved(picks: seq<Thread>, buckets: map<string, seq<Thread>>, all: seq<Thread>) {
    forall k :: Bucket(buckets, k) + Reversed(OfKey(picks, k)) == OfKey(all, k)
  }

  lemma ConservedAt(picks: seq<Thread>, buckets: map<string, seq<Thread>>, all: seq<Thread>, k: string)
    requires Conserved(picks, buckets, all)
    ensures Bucket(buckets, k) + Reversed(OfKey(picks, k)) == OfKey(all, k)
    ensures |Bucket(buckets, k)| + Count(picks, k) == Count(all, k)
  {
    hide OfKey;
    ReversedMultiset(OfKey(picks, k));
  }

  lemma BucketAdd(buckets: map<string, seq<Thread>>, s: seq<Thread>, t: Thread)
    requires Conserved([], buckets, s)
    ensures Conserved([], buckets[Key(t) := Bucket(buckets, Key(t)) + [t]], s + [t])
  {
    hide Key;
    var grown := buckets[Key(t) := Bucket(buckets, Key(t)) + [t]];
    forall k ensures Bucket(grown, k) + Reversed(OfKey([], k)) == OfKey(s + [t], k) {
      OfKeyAppend(s, t, k);
      hide OfKey;
      assert Bucket(buckets, k) + Reversed(OfKey([], k)) == OfKey(s, k);
      NothingPicked(k);
    }
  }

  lemma NothingPicked(k: string)
    ensures OfKey([], k) == [] && Reversed(OfKey([], k)) == [] && Count([], k) == 0
  {
  }

  lemma NoBuckets()
    ensures Conserved([], map[], [])
  {
  }

  /** The grouping loop, with the keys in the order they first come up. */
  method FillBuckets(s: seq<Thread>) returns (buckets: map<string, seq<Thread>>, keys: seq<string>)
    ensures Conserved([], buckets, s)
    ensures forall k :: k in buckets ==> buckets[k] != []
    ensures forall k :: k in keys <==> k in buckets
  {
    hide *;
    buckets, keys := map[], [];
    assert s[..0] == [];
    NoBuckets();
    for i := 0 to |s|
      invariant Conserved([], buckets, s[..i])
      invariant forall k :: k in buckets ==> buckets[k] != []
      invariant forall k :: k in keys <==> k in buckets
    {
      if Key(s[i]) !in buckets { keys := keys + [Key(s[i])]; }
      BucketAdd(buckets, s[..i], s[i]);
      assert s[..i + 1] == s[..i] + [s[i]];
      buckets := buckets[Key(s[i]) := Bucket(buckets, Key(s[i])) + [s[i]]];
    }
    assert s[..|s|] == s;
  }

  // ----- the round-robin -----

  lemma Pop(picks: seq<Thread>, buckets: map<string, seq<Thread>>, all: seq<Thread>, k: string)
    requires Conserved(picks, buckets, all) && k in buckets && buckets[k] != []
    ensures var last := |buckets[k]| - 1; var t := buckets[k][last];
      Key(t) == k && Conserved(picks + [t], buckets[k := buckets[k][..last]], all)
  {
    hide Key, OfKey, Reversed;
    var last := |buckets[k]| - 1;
    PoppedKey(picks, buckets, all, k);
    forall a ensures Bucket(buckets[k := buckets[k][..last]], a) + Reversed(OfKey(picks + [buckets[k][last]], a)) ==
      OfKey(all, a) {
      PopAt(picks, buckets, all, k, a);
    }
  }

  lemma PopAt(picks: seq<Thread>, buckets: map<string, seq<Thread>>, all: seq<Thread>, k: string, a: string)
    requires Conserved(picks, buckets, all) && k in buckets && buckets[k] != []
      && Key(buckets[k][|buckets[k]| - 1]) == k
    ensures var last := |buckets[k]| - 1; var t := buckets[k][last];
      Bucket(buckets[k := buckets[k][..last]], a) + Reversed(OfKey(picks + [t], a)) == OfKey(all, a)
  {
    hide *;
    var last := |buckets[k]| - 1;
    var t := buckets[k][last];
    ConservedAt(picks, buckets, all, a);
    OfKeyAppend(picks, t, a);
    BucketPopped(buckets, k, a);
    var p := Reversed(OfKey(picks, a));
    if a == k {
      ReversedAppend(OfKey(picks, a), t);
      assert Bucket(buckets, k) == buckets[k][..last] + [t];
      assert buckets[k][..last] + ([t] + p) == (buckets[k][..last] + [t]) + p;
    } else {
      assert OfKey(picks, a) + [] == OfKey(picks, a);
    }
  }

  lemma BucketPopped(buckets: map<string, seq<Thread>>, k: string, a: string)
    requires k in buckets && buckets[k] != []
    ensures var last := |buckets[k]| - 1;
      Bucket(buckets[k := buckets[k][..last]], a) == if a == k then buckets[k][..last] else Bucket(buckets, a)
    ensures Bucket(buckets, k) == buckets[k] == buckets[k][..|buckets[k]| - 1] + [buckets[k][|buckets[k]| - 1]]
  {
  }

  lemma PoppedKey(picks: seq<Thread>, buckets: map<string, seq<Thread>>, all: seq<Thread>, k: string)
    requires Conserved(picks, buckets, all) && k in buckets && buckets[k] != []
    ensures Key(buckets[k][|buckets[k]| - 1]) == k
  {
    hide Key, OfKey, Reversed;
    var t := buckets[k][|buckets[k]| - 1];
    ConservedAt(picks, buckets, all, k);
    assert t in Bucket(buckets, k) + Reversed(OfKey(picks, k));
    OfKeyKeys(all, k, t);
  }

  /** In a round, waiting keys have `round` picks, served ones one more; any other key is used up. */
  ghost predicate InRound(
    picks: seq<Thread>, buckets: map<string, seq<Thread>>, served: seq<string>, waiting: seq<string>, round: nat)
  {
    && (forall k :: k in waiting ==> Bucket(buckets, k) != [] && Count(picks, k) == round)
    && (forall k :: k in served ==> Count(picks, k) == round + 1)
    && (forall k :: Bucket(buckets, k) != [] ==> k in served || k in waiting)
    && (forall k :: k !in served ==> Count(picks, k) <= round)
  }

  /** How often the bucket of pick `i` was picked from before it. */
  ghost function Turn(picks: seq<Thread>, i: nat): (turn: nat)
    requires i < |picks|
  {
    Count(picks[..i], Key(picks[i]))
  }

  /** Pick `i` comes before pick `j`: in an earlier round, or in the same one from a bucket with a smaller key. */
  ghost predicate Before(picks: seq<Thread>, i: nat, j: nat)
    requires i < |picks| && j < |picks|
  {
    || Turn(picks, i) < Turn(picks, j)
    || (&& Turn(picks, i) == Turn(picks, j)
        && StrLe(Key(picks[i]), Key(picks[j])) && Key(picks[i]) != Key(picks[j]))
  }

  /** The picks go round the buckets, in the order of their keys. */
  ghost predicate InTurn(picks: seq<Thread>) {
    forall i: nat, j: nat :: i < j < |picks| ==> Before(picks, i, j)
  }

  /** The picks from each bucket are its last threads, the last one first. */
  ghost predicate FromTheEnd(picks: seq<Thread>, all: seq<Thread>) {
    forall k :: Count(picks, k) <= Count(all, k)
      && OfKey(all, k)[Count(all, k) - Count(picks, k)..] == Reversed(OfKey(picks, k))
  }

  lemma ConservedIsFromTheEnd(picks: seq<Thread>, buckets: map<string, seq<Thread>>, all: seq<Thread>)
    requires Conserved(picks, buckets, all)
    ensures FromTheEnd(picks, all)
  {
    forall k ensures Count(picks, k) <= Count(all, k)
      && OfKey(all, k)[Count(all, k) - Count(picks, k)..] == Reversed(OfKey(picks, k))
    {
      ConservedAt(picks, buckets, all, k);
      ReversedMultiset(OfKey(picks, k));
      hide Reversed, OfKey, Conserved;
    }
  }

  lemma {:induction false} CountPrefix(picks: seq<Thread>, i: nat, k: string)
    requires i <= |picks|
    ensures Count(picks[..i], k) <= Count(picks, k)
    decreases |picks|
  {
    if i < |picks| {
      var n := |picks| - 1;
      assert picks[..n][..i] == picks[..i];
      CountPrefix(picks[..n], i, k);
      OfKeyAppend(picks[..n], picks[n], k);
      assert picks[..n] + [picks[n]] == picks;
    } else {
      assert picks[..i] == picks;
    }
  }

  lemma TurnBelow(picks: seq<Thread>, i: nat)
    requires i < |picks|
    ensures Turn(picks, i) < Count(picks, Key(picks[i]))
  {
    hide OfKey, Count, Key;
    OfKeyAppend(picks[..i], picks[i], Key(picks[i]));
    assert picks[..i] + [picks[i]] == picks[..i + 1];
    CountPrefix(picks, i + 1, Key(picks[i]));
  }

  lemma SameTurn(picks: seq<Thread>, t: Thread, i: nat)
    requires i < |picks|
    ensures Turn(picks + [t], i) == Turn(picks, i) && Turn(picks + [t], |picks|) == Count(picks, Key(t))
  {
    hide Count, Key;
    assert (picks + [t])[..i] == picks[..i] && (picks + [t])[..|picks|] == picks;
  }

  lemma NextInTurn(
    picks: seq<Thread>, buckets: map<string, seq<Thread>>, t: Thread, served: seq<string>, waiting: seq<string>,
    round: nat)
    requires InTurn(picks) && InRound(picks, buckets, served, waiting, round) && waiting != [] && Key(t) == waiting[0]
    requires forall a :: a in served ==> StrLe(a, waiting[0]) && a != waiting[0]
    ensures InTurn(picks + [t])
  {
    hide Count, Key, Bucket, Turn, StrLe;
    var more, n := picks + [t], |picks|;
    assert waiting[0] in waiting;
    forall i: nat, j: nat | i < j < |more| ensures Before(more, i, j) {
      SameTurn(picks, t, i);
      if j < n {
        SameTurn(picks, t, j);
        assert Before(picks, i, j);
      } else {
        TurnBelow(picks, i);
      }
    }
  }

  lemma RoundIsFair(
    picks: seq<Thread>, buckets: map<string, seq<Thread>>, all: seq<Thread>, served: seq<string>, waiting: seq<string>,
    round: nat)
    requires Conserved(picks, buckets, all) && InRound(picks, buckets, served, waiting, round)
    ensures Fair(picks, all)
  {
    forall a, b ensures Count(picks, a) <= Count(picks, b) + 1 || Count(picks, b) == Count(all, b) {
      ConservedAt(picks, buckets, all, b);
      hide Count, Conserved, Bucket;
    }
  }

  lemma ServeOne(
    picks: seq<Thread>, buckets: map<string, seq<Thread>>, t: Thread, served: seq<string>, waiting: seq<string>,
    round: nat)
    requires waiting != [] && Distinct(waiting) && waiting[0] in buckets && buckets[waiting[0]] != []
      && Key(t) == waiting[0]
    requires InRound(picks, buckets, served, waiting, round)
    ensures var k := waiting[0];
      InRound(picks + [t], buckets[k := buckets[k][..|buckets[k]| - 1]], served + [k], waiting[1..], round)
  {
    var k := waiting[0];
    forall a ensures Count(picks + [t], a) == Count(picks, a) + if a == k then 1 else 0 { OfKeyAppend(picks, t, a); }
    var shrunk := buckets[k := buckets[k][..|buckets[k]| - 1]];
    forall a ensures a != k ==> Bucket(shrunk, a) == Bucket(buckets, a) { BucketPopped(buckets, k, a); }
    hide Count, Key, Bucket;
    assert k in waiting;
    assert forall x :: x in waiting[1..] ==> x in waiting && x != k;
    assert forall x :: x in waiting ==> x == k || x in waiting[1..];
  }

  lemma NextRound(
    picks: seq<Thread>, buckets: map<string, seq<Thread>>, served: seq<string>, next: seq<string>, round: nat)
    requires InRound(picks, buckets, served, [], round)
    requires forall k :: k in next <==> k in served && Bucket(buckets, k) != []
    ensures InRound(picks, buckets, [], next, round + 1)
  {
    hide Count, Bucket;
  }

  lemma FirstRound(buckets: map<string, seq<Thread>>, topics: seq<string>)
    requires forall k :: k in topics <==> k in buckets
    requires forall k :: k in buckets ==> buckets[k] != []
    ensures InRound([], buckets, [], topics, 0)
  {
    forall k ensures Count([], k) == 0 { NothingPicked(k); }
    hide Count;
  }

  /** Every pick is one of the threads, each at most as often as it occurs. */
  lemma PicksAreThreads(picks: seq<Thread>, buckets: map<string, seq<Thread>>, all: seq<Thread>)
    requires Conserved(picks, buckets, all)
    ensures multiset(picks) <= multiset(all) && |picks| <= |all|
    ensures (forall k :: Bucket(buckets, k) == []) ==> multiset(picks) == multiset(all) && |picks| == |all|
  {
    forall t ensures multiset(picks)[t] + multiset(Bucket(buckets, Key(t)))[t] == multiset(all)[t] {
      ConservedFor(picks, buckets, all, t);
    }
    hide Conserved, Key, Bucket;
    assert multiset(picks) <= multiset(all);
    SubMultisetSize(picks, all);
    if forall k :: Bucket(buckets, k) == [] {
      assert multiset(picks) == multiset(all);
      MultisetMembers(picks, all);
    }
  }

  lemma ConservedFor(picks: seq<Thread>, buckets: map<string, seq<Thread>>, all: seq<Thread>, t: Thread)
    requires Conserved(picks, buckets, all)
    ensures multiset(picks)[t] + multiset(Bucket(buckets, Key(t)))[t] == multiset(all)[t]
  {
    var k := Key(t);
    ConservedAt(picks, buckets, all, k);
    OfKeyHolds(picks, t);
    OfKeyHolds(all, t);
    ReversedMultiset(OfKey(picks, k));
    hide *;
    var b, p := Bucket(buckets, k), Reversed(OfKey(picks, k));
    assert multiset(b + p) == multiset(b) + multiset(p);
  }

  lemma SubMultisetSize(a: seq<Thread>, b: seq<Thread>)
    requires multiset(a) <= multiset(b)
    ensures |a| <= |b|
  {
    var rest := multiset(b) - multiset(a);
    assert multiset(b) == multiset(a) + rest;
    assert |multiset(b)| == |multiset(a)| + |rest|;
    assert |multiset(a)| == |a| && |multiset(b)| == |b|;
  }

  lemma {:induction false} CountPermutation(a: seq<Thread>, b: seq<Thread>, k: string)
    requires multiset(a) == multiset(b)
    ensures Count(a, k) == Count(b, k)
  {
    forall t ensures multiset(OfKey(a, k))[t] == multiset(OfKey(b, k))[t] {
      if Key(t) == k {
        OfKeyHolds(a, t);
        OfKeyHolds(b, t);
      } else {
        if t in OfKey(a, k) { OfKeyKeys(a, k, t); }
        if t in OfKey(b, k) { OfKeyKeys(b, k, t); }
      }
    }
    hide OfKey, Key;
    assert multiset(OfKey(a, k)) == multiset(OfKey(b, k));
    MultisetMembers(OfKey(a, k), OfKey(b, k));
  }

  lemma FairPermutation(picks: seq<Thread>, a: seq<Thread>, b: seq<Thread>)
    requires AlwaysFair(picks, a) && multiset(a) == multiset(b)
    ensures AlwaysFair(picks, b)
  {
    forall k ensures Count(a, k) == Count(b, k) { CountPermutation(a, b, k); }
    hide Count;
  }

  lemma NothingFair(all: seq<Thread>)
    ensures AlwaysFair([], all)
  {
    forall a ensures Count([], a) == 0 { NothingPicked(a); }
    hide Count;
  }

  /** The mining loop's state between two picks. */
  ghost predicate Mining(
    picks: seq<Thread>, buckets: map<string, seq<Thread>>, all: seq<Thread>, served: seq<string>, waiting: seq<string>,
    round: nat)
  {
    && Conserved(picks, buckets, all) && AlwaysFair(picks, all)
    && InRound(picks, buckets, served, waiting, round) && Distinct(waiting)
    && InTurn(picks) && Ascending(served + waiting)
  }

  /** The keys come in order. */
  ghost predicate Ascending(keys: seq<string>) {
    forall i, j :: 0 <= i < j < |keys| ==> StrLe(keys[i], keys[j]) && keys[i] != keys[j]
  }

  lemma ServedAreSmaller(served: seq<string>, waiting: seq<string>)
    requires Ascending(served + waiting) && waiting != []
    ensures forall a :: a in served ==> StrLe(a, waiting[0]) && a != waiting[0]
    ensures served + waiting == (served + [waiting[0]]) + waiting[1..]
  {
    hide StrLe;
    var keys := served + waiting;
    assert keys[|served|] == waiting[0];
    forall a | a in served ensures StrLe(a, waiting[0]) && a != waiting[0] {
      var i :| 0 <= i < |served| && served[i] == a;
      assert keys[i] == a;
    }
  }

  lemma PickOne(
    picks: seq<Thread>, buckets: map<string, seq<Thread>>, all: seq<Thread>, served: seq<string>, waiting: seq<string>,
    round: nat)
    requires waiting != [] && Mining(picks, buckets, all, served, waiting, round)
    ensures waiting[0] in buckets && buckets[waiting[0]] != []
    ensures var k := waiting[0]; var last := |buckets[k]| - 1;
      Mining(picks + [buckets[k][last]], buckets[k := buckets[k][..last]], all, served + [k], waiting[1..], round)
  {
    var k := waiting[0];
    WaitingHas(picks, buckets, served, waiting, round);
    ServedAreSmaller(served, waiting);
    hide InRound, Conserved, AlwaysFair, Key, InTurn, Ascending;
    var last := |buckets[k]| - 1;
    Pop(picks, buckets, all, k);
    NextInTurn(picks, buckets, buckets[k][last], served, waiting, round);
    ServeOne(picks, buckets, buckets[k][last], served, waiting, round);
    RoundIsFair(picks + [buckets[k][last]], buckets[k := buckets[k][..last]], all, served + [k], waiting[1..], round);
    AlwaysFairAppend(picks, buckets[k][last], all);
  }

  lemma WaitingHas(
    picks: seq<Thread>, buckets: map<string, seq<Thread>>, served: seq<string>, waiting: seq<string>, round: nat)
    requires waiting != [] && InRound(picks, buckets, served, waiting, round)
    ensures waiting[0] in buckets && buckets[waiting[0]] != []
  {
    hide Count;
    assert waiting[0] in waiting;
  }

  /** One pass over the keys, one pick each, until the limit. */
  method OneRound(
    picks0: seq<Thread>, buckets0: map<string, seq<Thread>>, ghost all: seq<Thread>, topics: seq<string>, limit: nat,
    ghost round: nat)
    returns (picks: seq<Thread>, buckets: map<string, seq<Thread>>, next: seq<string>)
    requires Mining(picks0, buckets0, all, [], topics, round) && |picks0| < limit && topics != []
    ensures |picks0| < |picks| <= limit
    ensures Conserved(picks, buckets, all) && AlwaysFair(picks, all) && InTurn(picks)
    ensures |picks| < limit ==> Mining(picks, buckets, all, [], next, round + 1)
  {
    hide *;
    picks, buckets, next := picks0, buckets0, [];
    NothingDistinct();
    assert topics[0..] == topics && topics[..0] == [];
    for i := 0 to |topics|
      invariant |picks| == |picks0| + i < limit
      invariant Mining(picks, buckets, all, topics[..i], topics[i..], round)
      invariant Distinct(next) && forall k :: k in next <==> k in topics[..i] && Bucket(buckets, k) != []
      invariant Ascending(next)
    {
      PickOne(picks, buckets, all, topics[..i], topics[i..], round);
      var k := topics[i];
      var last := |buckets[k]| - 1;
      TopicsSplit(topics, i, picks, buckets, all, round);
      forall a ensures a != k ==>
        Bucket(buckets[k := buckets[k][..last]], a) == Bucket(buckets, a) { BucketPopped(buckets, k, a); }
      BucketPopped(buckets, k, k);
      picks := picks + [buckets[k][last]];
      buckets := buckets[k := buckets[k][..last]];
      MiningParts(picks, buckets, all, topics[..i + 1], topics[i + 1..], round);
      if |picks| == limit { return; }
      if buckets[k] != [] {
        DistinctAppend(next, k);
        AscendingAppend(topics, i, next);
        next := next + [k];
      }
    }
    assert topics[..|topics|] == topics && topics[|topics|..] == [];
    RoundOver(picks, buckets, all, topics, next, round);
    MiningParts(picks, buckets, all, [], next, round + 1);
  }

  lemma TopicsSplit(
    topics: seq<string>, i: nat, picks: seq<Thread>, buckets: map<string, seq<Thread>>, all: seq<Thread>, round: nat)
    requires i < |topics| && Mining(picks, buckets, all, topics[..i], topics[i..], round)
    ensures topics[..i + 1] == topics[..i] + [topics[i]] && topics[i..][1..] == topics[i + 1..]
    ensures topics[i] !in topics[..i] && Ascending(topics)
  {
    hide Conserved, AlwaysFair, Bucket, InTurn, Ascending;
    assert topics[i] in topics[i..];
    assert topics[..i] + topics[i..] == topics;
  }

  lemma AscendingAppend(topics: seq<string>, i: nat, next: seq<string>)
    requires Ascending(topics) && i < |topics| && Ascending(next) && forall k :: k in next ==> k in topics[..i]
    ensures Ascending(next + [topics[i]])
  {
    hide StrLe;
    var more := next + [topics[i]];
    forall a, b | 0 <= a < b < |more| ensures StrLe(more[a], more[b]) && more[a] != more[b] {
      if b == |next| {
        assert next[a] in next;
        var j :| 0 <= j < i && topics[..i][j] == next[a];
      }
    }
  }

  lemma MiningParts(
    picks: seq<Thread>, buckets: map<string, seq<Thread>>, all: seq<Thread>, served: seq<string>, waiting: seq<string>,
    round: nat)
    requires Mining(picks, buckets, all, served, waiting, round)
    ensures Conserved(picks, buckets, all) && AlwaysFair(picks, all) && InTurn(picks)
  {
    hide Conserved, AlwaysFair, InRound, InTurn, Ascending;
  }

  lemma NothingDistinct()
    ensures Distinct<string>([]) && Ascending([])
  {
  }

  lemma DistinctAppend(s: seq<string>, k: string)
    requires Distinct(s) && k !in s
    ensures Distinct(s + [k])
  {
  }

  lemma RoundOver(
    picks: seq<Thread>, buckets: map<string, seq<Thread>>, all: seq<Thread>, served: seq<string>, next: seq<string>,
    round: nat)
    requires Mining(picks, buckets, all, served, [], round) && Distinct(next) && Ascending(next)
    requires forall k :: k in next <==> k in served && Bucket(buckets, k) != []
    ensures Mining(picks, buckets, all, [], next, round + 1)
  {
    hide Conserved, AlwaysFair, InRound, Bucket, InTurn, Ascending;
    assert [] + next == next;
    NextRound(picks, buckets, served, next, round);
  }

  ghost predicate Shuffles(shuffle: seq<Thread> -> seq<Thread>) {
    forall s :: multiset(shuffle(s)) == multiset(s)
  }

  predicate ByRoot(a: Thread, b: Thread) { StrLe(a.rootId, b.rootId) }

  function Limit(maxCases: int, n: nat): (limit: nat) {
    if maxCases < 0 then 0 else if maxCases < n then maxCases else n
  }

  lemma LimitFits(maxCases: int, n: nat)
    ensures Limit(maxCases, n) <= n
  {
  }

  /** Exactly as many distinct picks as asked for and available; every prefix of the picks is fair. */
  method MineRealCases(threads: seq<Thread>, judge: Judge, shuffle: seq<Thread> -> seq<Thread>, maxCases: int)
    returns (selected: seq<Thread>, rejections: seq<Rejection>)
    requires Shuffles(shuffle)
    ensures rejections == Rejected(threads, judge)
    ensures |selected| == Limit(maxCases, |Valid(threads, judge)|)
    ensures multiset(selected) <= multiset(Valid(threads, judge))
    ensures AlwaysFair(selected, Valid(threads, judge)) && InTurn(selected)
    ensures FromTheEnd(selected, shuffle(Sort(Valid(threads, judge), ByRoot)))
  {
    hide *;
    ghost var wanted := Valid(threads, judge);
    var valid;
    valid, rejections := SortOut(threads, judge);
    var all := shuffle(Sort(valid, ByRoot));
    SortMultiset(valid, ByRoot);
    ShufflesOne(shuffle, Sort(valid, ByRoot));
    MultisetMembers(all, valid);
    LimitFits(maxCases, |valid|);
    selected := RoundRobin(all, Limit(maxCases, |valid|));
    FairPermutation(selected, all, valid);
  }

  lemma ShufflesOne(shuffle: seq<Thread> -> seq<Thread>, s: seq<Thread>)
    requires Shuffles(shuffle)
    ensures multiset(shuffle(s)) == multiset(s)
  {
  }

  /** The filtering loop. */
  method SortOut(threads: seq<Thread>, judge: Judge) returns (valid: seq<Thread>, rejections: seq<Rejection>)
    ensures valid == Valid(threads, judge) && rejections == Rejected(threads, judge)
  {
    valid, rejections := [], [];
    for i := 0 to |threads|
      invariant valid == Valid(threads[..i], judge) && rejections == Rejected(threads[..i], judge)
    {
      assert threads[..i + 1][..i] == threads[..i];
      var reason := judge(threads[i]);
      if reason.Some? { rejections := rejections + [Rejection(threads[i].rootId, reason.value)]; }
      else { valid := valid + [threads[i]]; }
    }
    assert threads[..|threads|] == threads;
  }

  method RoundRobin(all: seq<Thread>, limit: nat) returns (selected: seq<Thread>)
    requires limit <= |all|
    ensures |selected| == limit && multiset(selected) <= multiset(all) && AlwaysFair(selected, all)
    ensures InTurn(selected) && FromTheEnd(selected, all)
  {
    hide *;
    var buckets, keys := FillBuckets(all);
    var topics := SortedSet(keys);
    SortedSetMembers(keys);
    SortedIsAscending(topics);
    NoTurns();
    FirstRound(buckets, topics);
    selected := [];
    NothingFair(all);
    ghost var round := 0;
    StartMining(buckets, all, topics);
    while |selected| < limit && topics != []
      invariant |selected| <= limit
      invariant Conserved(selected, buckets, all) && AlwaysFair(selected, all) && InTurn(selected)
      invariant |selected| < limit ==> Mining(selected, buckets, all, [], topics, round)
      decreases limit - |selected|
    {
      selected, buckets, topics := OneRound(selected, buckets, all, topics, limit, round);
      round := round + 1;
    }
    PicksAreThreads(selected, buckets, all);
    ConservedIsFromTheEnd(selected, buckets, all);
    if |selected| < limit {
      NothingWaits(selected, buckets, all, round);
    }
  }

  lemma StartMining(buckets: map<string, seq<Thread>>, all: seq<Thread>, topics: seq<string>)
    requires Conserved([], buckets, all) && AlwaysFair([], all) && InRound([], buckets, [], topics, 0)
      && Distinct(topics) && Ascending(topics) && InTurn([])
    ensures Mining([], buckets, all, [], topics, 0)
  {
    hide Conserved, AlwaysFair, InRound, InTurn, Ascending;
    assert [] + topics == topics;
  }

  lemma SortedIsAscending(keys: seq<string>)
    requires Sorted(keys, StrLe) && Distinct(keys)
    ensures Ascending(keys)
  {
    hide StrLe;
  }

  lemma NoTurns()
    ensures InTurn([])
  {
  }

  lemma NothingWaits(picks: seq<Thread>, buckets: map<string, seq<Thread>>, all: seq<Thread>, round: nat)
    requires Mining(picks, buckets, all, [], [], round)
    ensures forall k :: Bucket(buckets, k) == []
  {
    hide Conserved, AlwaysFair, Bucket, Count;
  }

  // ----- the holdout split -----

  lemma NotNegative(x: real, y: real)
    requires x >= 0.0 && y >= 0.0
    ensures x * y >= 0.0
  {
  }

  /** `int(n * fraction)` for a fraction that is not negative. */
  function Share(n: nat, fraction: real): (k: int)
    requires fraction >= 0.0
    ensures 0 <= k && (fraction <= 1.0 ==> k <= n)
  {
    NotNegative(n as real, fraction);
    assert fraction <= 1.0 ==> n as real * fraction <= n as real by {
      if fraction <= 1.0 { NotNegative(n as real, 1.0 - fraction); }
      assert n as real * (1.0 - fraction) == n as real - n as real * fraction;
    }
    (n as real * fraction).Floor
  }

  function Target(n: nat, fraction: real, minCases: nat): (k: int)
    requires fraction >= 0.0
  {
    var share := Share(n, fraction);
    if share < n - minCases then share else n - minCases
  }

  /** Source ids compared with their digit runs padded. */
  type NaturalOrder = (string, string) -> bool

  function Descending(natural: NaturalOrder): (le: (Thread, Thread) -> bool) {
    (a: Thread, b: Thread) => natural(b.rootId, a.rootId)
  }

  function Roots(threads: seq<Thread>): (ids: set<string>) { set t | t in threads :: t.rootId }

  function Outside(threads: seq<Thread>, held: set<string>): (r: seq<Thread>) {
    if threads == [] then []
    else
      var n := |threads| - 1;
      Outside(threads[..n], held) + if threads[n].rootId in held then [] else [threads[n]]
  }

  lemma {:induction false} OutsideCount(threads: seq<Thread>, held: set<string>, t: Thread)
    ensures multiset(Outside(threads, held))[t] == if t.rootId in held then 0 else multiset(threads)[t]
  {
    if threads != [] {
      var n := |threads| - 1;
      OutsideCount(threads[..n], held, t);
      assert threads == threads[..n] + [threads[n]];
    }
  }

  /** The threads by natural key, greatest first. */
  function Ranking(threads: seq<Thread>, natural: NaturalOrder): (r: seq<Thread>)
    ensures |r| == |threads|
  {
    SortMultiset(threads, Descending(natural));
    Sort(threads, Descending(natural))
  }

  function HoldoutSplit(threads: seq<Thread>, natural: NaturalOrder, fraction: real,
    minCases: nat): (r: (seq<Thread>, seq<Thread>))
    requires 0.0 <= fraction < 1.0
  {
    if threads == [] || fraction <= 0.0 then (threads, [])
    else
      var target := Target(|threads|, fraction, minCases);
      if target <= 0 then (threads, [])
      else
        var held := Ranking(threads, natural)[..target];
        (Outside(threads, Roots(held)), Sort(held, ByRoot))
  }

  ghost predicate DistinctRoots(threads: seq<Thread>) {
    forall i, j :: 0 <= i < j < |threads| ==> threads[i].rootId != threads[j].rootId
  }

  lemma DistinctRootsMeans(threads: seq<Thread>, t: Thread)
    requires DistinctRoots(threads)
    ensures multiset(threads)[t] <= 1
    ensures forall s :: s in threads && t in threads && s.rootId == t.rootId ==> s == t
  {
    assert Distinct(threads);
    DistinctMultiset(threads);
  }

  lemma DescendingOrder(natural: NaturalOrder)
    requires TotalPreorder(natural)
    ensures TotalPreorder(Descending(natural))
  {
    var le := Descending(natural);
    forall x, y ensures le(x, y) || le(y, x) { assert natural(x.rootId, y.rootId) || natural(y.rootId, x.rootId); }
    forall x, y, z | le(x, y) && le(y, z) ensures le(x, z) {
      assert natural(z.rootId, y.rootId) && natural(y.rootId, x.rootId);
    }
  }

  lemma RankingOrder(threads: seq<Thread>, natural: NaturalOrder)
    requires TotalPreorder(natural)
    ensures multiset(Ranking(threads, natural)) == multiset(threads)
    ensures forall i, j :: 0 <= i < j < |threads| ==>
      natural(Ranking(threads, natural)[j].rootId, Ranking(threads, natural)[i].rootId)
  {
    var le := Descending(natural);
    DescendingOrder(natural);
    SortMultiset(threads, le);
    SortSorted(threads, le);
    var ranked := Ranking(threads, natural);
    hide Sort, TotalPreorder;
    forall i, j | 0 <= i < j < |threads| ensures natural(ranked[j].rootId, ranked[i].rootId) {
      assert le(ranked[i], ranked[j]);
    }
  }

  lemma RootsAre(held: seq<Thread>, t: Thread)
    ensures t in held ==> t.rootId in Roots(held)
    ensures t.rootId in Roots(held) ==> exists h :: h in held && h.rootId == t.rootId
  {
  }

  /** Dropping the held roots leaves exactly the rest of the ranking. */
  lemma OutsideIsTheRest(threads: seq<Thread>, ranked: seq<Thread>, target: nat)
    requires DistinctRoots(threads) && multiset(ranked) == multiset(threads) && target <= |ranked|
    ensures multiset(Outside(threads, Roots(ranked[..target]))) == multiset(ranked[target..])
  {
    hide *;
    forall t: Thread ensures multiset(Outside(threads, Roots(ranked[..target])))[t] == multiset(ranked[target..])[t] {
      OutsideIsTheRestAt(threads, ranked, target, t);
    }
  }

  lemma OutsideIsTheRestAt(threads: seq<Thread>, ranked: seq<Thread>, target: nat, t: Thread)
    requires DistinctRoots(threads) && multiset(ranked) == multiset(threads) && target <= |ranked|
    ensures multiset(Outside(threads, Roots(ranked[..target])))[t] == multiset(ranked[target..])[t]
  {
    hide *;
    var held, rest := ranked[..target], ranked[target..];
    OutsideCount(threads, Roots(held), t);
    DistinctRootsMeans(threads, t);
    RootsAre(held, t);
    assert ranked == held + rest;
    assert multiset(threads)[t] == multiset(held)[t] + multiset(rest)[t];
    if t in held {
      assert multiset(held)[t] >= 1;
    } else if t.rootId in Roots(held) {
      var h :| h in held && h.rootId == t.rootId;
      assert h in ranked && h in multiset(threads);
    }
  }

  /** The split partitions the threads; it holds out as many as asked for, but never so many that fewer
      than `minCases` stay, and every thread held out has a greater natural key than every case. */
  lemma HoldoutsAreTheGreatest(threads: seq<Thread>, natural: NaturalOrder, fraction: real, minCases: nat)
    requires 0.0 <= fraction < 1.0 && DistinctRoots(threads) && TotalPreorder(natural)
    ensures var (cases, held) := HoldoutSplit(threads, natural, fraction, minCases);
      && multiset(cases) + multiset(held) == multiset(threads) && |cases| + |held| == |threads|
      && |held| == (if Target(|threads|, fraction, minCases) > 0 then Target(|threads|, fraction, minCases) else 0)
      && (|threads| >= minCases ==> |cases| >= minCases)
      && (forall c, h :: c in cases && h in held ==> natural(c.rootId, h.rootId))
  {
    hide Ranking, Outside, Sort, DistinctRoots, TotalPreorder, Roots, Share;
    var target := Target(|threads|, fraction, minCases);
    var (cases, holdouts) := HoldoutSplit(threads, natural, fraction, minCases);
    if threads != [] && fraction > 0.0 && target > 0 {
      var ranked := Ranking(threads, natural);
      var held := ranked[..target];
      RankingOrder(threads, natural);
      OutsideIsTheRest(threads, ranked, target);
      SortMultiset(held, ByRoot);
      SortMembers(held, ByRoot);
      CutRanking(threads, ranked, target, cases, holdouts, natural);
    } else {
      NoShare(threads, fraction, minCases);
    }
  }

  lemma CutRanking(
    threads: seq<Thread>, ranked: seq<Thread>, target: nat, cases: seq<Thread>, holdouts: seq<Thread>,
    natural: NaturalOrder)
    requires target <= |ranked| && multiset(ranked) == multiset(threads)
    requires forall i, j :: 0 <= i < j < |ranked| ==> natural(ranked[j].rootId, ranked[i].rootId)
    requires multiset(cases) == multiset(ranked[target..]) && multiset(holdouts) == multiset(ranked[..target])
    ensures multiset(cases) + multiset(holdouts) == multiset(threads)
    ensures |holdouts| == target && |cases| == |threads| - target
    ensures forall c, h :: c in cases && h in holdouts ==> natural(c.rootId, h.rootId)
  {
    var held, rest := ranked[..target], ranked[target..];
    assert ranked == held + rest;
    SameSize(cases, rest);
    SameSize(holdouts, held);
    SameSize(ranked, threads);
    forall c, h | c in cases && h in holdouts ensures natural(c.rootId, h.rootId) {
      var i :| 0 <= i < target && held[i] == h;
      var j :| 0 <= j < |ranked| - target && rest[j] == c;
      assert ranked[target + j] == c && ranked[i] == h;
    }
  }

  lemma SameSize(a: seq<Thread>, b: seq<Thread>)
    requires multiset(a) == multiset(b)
    ensures |a| == |b| && forall t :: t in a ==> t in b
  {
    MultisetMembers(a, b);
  }

  // Without threads or with no fraction there is nothing to hold out.
  lemma NoShare(threads: seq<Thread>, fraction: real, minCases: nat)
    requires fraction >= 0.0 && (threads == [] || fraction <= 0.0 || Target(|threads|, fraction, minCases) <= 0)
    ensures Target(|threads|, fraction, minCases) <= 0
  {
  }
}
