/**
 * The chat screen's message list: the messages satisfying the chat's
 * predicate, newest first (sorted on the timestamp, descending).
 */
module MessageOrder {
  import opened ChatModel

  /** Newest first: timestamps never increase along the list. */
  predicate Descending(ms: seq<Message>) {
    forall i, j :: 0 <= i < j < |ms| ==> ms[i].timestamp >= ms[j].timestamp
  }

  /** No two messages of the list share a timestamp. */
  predicate DistinctTimestamps(ms: seq<Message>) {
    forall i, j :: 0 <= i < j < |ms| ==> ms[i].timestamp != ms[j].timestamp
  }

  /** The messages of the store that belong to the chat, in store order. */
  function ChatMessages(store: seq<Message>, chat: Chat): (r: seq<Message>)
    ensures forall m :: m in r <==> m in store && BelongsTo(m, chat)
    ensures |r| <= |store|
    decreases |store|
  {
    if store == [] then []
    else
      var init := ChatMessages(store[..|store| - 1], chat);
      var last := store[|store| - 1];
      assert store == store[..|store| - 1] + [last];
      if BelongsTo(last, chat) then init + [last] else init
  }

  /** Putting a message in front of a newest-first list whose head is not newer keeps it newest first. */
  lemma DescendingCons(x: Message, s: seq<Message>)
    requires Descending(s)
    requires s != [] ==> x.timestamp >= s[0].timestamp
    ensures Descending([x] + s)
  {
    var r := [x] + s;
    forall i, j | 0 <= i < j < |r|
      ensures r[i].timestamp >= r[j].timestamp
    {
      if i == 0 {
        assert r[j] == s[j - 1];
        assert s[0].timestamp >= s[j - 1].timestamp;
      } else {
        assert r[i] == s[i - 1] && r[j] == s[j - 1];
      }
    }
  }

  /** Puts a message into a newest-first list at a position that keeps it newest first. */
  function Insert(m: Message, sorted: seq<Message>): (r: seq<Message>)
    requires Descending(sorted)
    ensures Descending(r)
    ensures multiset(r) == multiset(sorted) + multiset{m}
    ensures r != [] && (r[0] == m || (sorted != [] && r[0] == sorted[0]))
    decreases |sorted|
  {
    if sorted == [] || m.timestamp >= sorted[0].timestamp then
      DescendingCons(m, sorted);
      [m] + sorted
    else
      var rest := sorted[1..];
      assert Descending(rest) by {
        forall i, j | 0 <= i < j < |rest| ensures rest[i].timestamp >= rest[j].timestamp {
          assert rest[i] == sorted[i + 1] && rest[j] == sorted[j + 1];
        }
      }
      var tail := Insert(m, rest);
      assert rest != [] ==> rest[0] == sorted[1];
      DescendingCons(sorted[0], tail);
      assert sorted == [sorted[0]] + rest;
      [sorted[0]] + tail
  }

  /**
   * The fetch behind the chat screen: exactly the chat's messages, each as
   * often as it is stored, newest first.
   */
  method Fetch(store: seq<Message>, chat: Chat) returns (r: seq<Message>)
    ensures Descending(r)
    ensures multiset(r) == multiset(ChatMessages(store, chat))
    ensures forall m :: m in r <==> m in store && BelongsTo(m, chat)
  {
    r := [];
    var i := 0;
    while i < |store|
      invariant 0 <= i <= |store|
      invariant Descending(r)
      invariant multiset(r) == multiset(ChatMessages(store[..i], chat))
    {
      assert store[..i + 1][..i] == store[..i];
      if BelongsTo(store[i], chat) {
        r := Insert(store[i], r);
      }
      i := i + 1;
    }
    assert store[..|store|] == store;
    forall m
      ensures m in r <==> m in store && BelongsTo(m, chat)
    {
      assert m in r <==> m in multiset(r);
      assert m in ChatMessages(store, chat) <==> m in multiset(ChatMessages(store, chat));
    }
  }

  /** The head of a newest-first list is at least as new as any of its messages. */
  lemma HeadIsNewest(s: seq<Message>, x: Message)
    requires Descending(s)
    requires x in multiset(s)
    ensures s != [] && s[0].timestamp >= x.timestamp
  {
    var k :| 0 <= k < |s| && s[k] == x;
  }

  /** With distinct timestamps, the only message as new as the head is the head itself. */
  lemma HeadUnique(s: seq<Message>, x: Message)
    requires DistinctTimestamps(s)
    requires x in multiset(s) && s != [] && x.timestamp == s[0].timestamp
    ensures x == s[0]
  {
    var k :| 0 <= k < |s| && s[k] == x;
  }

  /** Two lists that start with the same message and hold the same messages hold the same rest. */
  lemma SameTail(a: seq<Message>, b: seq<Message>)
    requires a != [] && b != [] && a[0] == b[0]
    requires multiset(a) == multiset(b)
    ensures multiset(a[1..]) == multiset(b[1..])
  {
    assert a == [a[0]] + a[1..];
    assert b == [b[0]] + b[1..];
    assert multiset(a[1..]) == multiset(a) - multiset{a[0]};
    assert multiset(b[1..]) == multiset(b) - multiset{b[0]};
  }

  /** The tail of a list keeps the list's order and distinctness. */
  lemma TailKeeps(s: seq<Message>)
    requires s != []
    ensures Descending(s) ==> Descending(s[1..])
    ensures DistinctTimestamps(s) ==> DistinctTimestamps(s[1..])
  {
    var t := s[1..];
    forall i, j | 0 <= i < j < |t| ensures t[i] == s[i + 1] && t[j] == s[j + 1] { }
  }

  /**
   * When no two messages share a timestamp, the newest-first order is unique:
   * two newest-first lists holding the same messages are the same list.
   */
  lemma {:induction false} OrderDetermined(a: seq<Message>, b: seq<Message>)
    requires Descending(a) && Descending(b)
    requires multiset(a) == multiset(b)
    requires DistinctTimestamps(a)
    ensures a == b
    decreases |a|
  {
    assert |a| == |multiset(a)| == |b|;
    if a != [] {
      HeadIsNewest(a, b[0]);
      HeadIsNewest(b, a[0]);
      HeadUnique(a, b[0]);
      SameTail(a, b);
      TailKeeps(a);
      TailKeeps(b);
      OrderDetermined(a[1..], b[1..]);
      assert a == [a[0]] + a[1..];
      assert b == [b[0]] + b[1..];
    }
  }

  /** With distinct timestamps, whatever fetch returns is the one newest-first list of the chat's messages. */
  lemma FetchDetermined(r1: seq<Message>, r2: seq<Message>, store: seq<Message>, chat: Chat)
    requires Descending(r1) && multiset(r1) == multiset(ChatMessages(store, chat))
    requires Descending(r2) && multiset(r2) == multiset(ChatMessages(store, chat))
    requires DistinctTimestamps(r1)
    ensures r1 == r2
  {
    OrderDetermined(r1, r2);
  }
}
