/** The page query of the message store: the messages of one chat strictly
    older than a cursor (all of them when there is no cursor), newest first,
    at most `limit` of them. This is the SQL query of getMessagesStartingFrom
    read as a filter, a sort by descending identifier and a take. */
module PageQuery {
  import opened Shared

  /** Whether a message lies strictly before the cursor. */
  predicate OlderThan(m: StoredMessage, cursor: Option<int>)
  {
    cursor.None? || m.id < cursor.value
  }

  /** The filter `id < cursor` (no filter when there is no cursor). */
  function Below(chat: seq<StoredMessage>, cursor: Option<int>): (r: seq<StoredMessage>)
    ensures |r| <= |chat|
    ensures forall m :: m in r <==> m in chat && OlderThan(m, cursor)
  {
    if chat == [] then []
    else if OlderThan(chat[0], cursor) then [chat[0]] + Below(chat[1..], cursor)
    else Below(chat[1..], cursor)
  }

  /** Non-strictly decreasing identifiers. */
  predicate NonIncreasing(s: seq<StoredMessage>)
  {
    forall i, j :: 0 <= i < j < |s| ==> s[i].id >= s[j].id
  }

  /** Inserts `m` before the first message whose identifier is not larger. */
  function Insert(m: StoredMessage, s: seq<StoredMessage>): seq<StoredMessage>
  {
    if s == [] || s[0].id <= m.id then [m] + s
    else [s[0]] + Insert(m, s[1..])
  }

  /** `ORDER BY id desc`. */
  function SortDesc(s: seq<StoredMessage>): seq<StoredMessage>
  {
    if s == [] then [] else Insert(s[0], SortDesc(s[1..]))
  }

  /** `LIMIT n`. */
  function Take(s: seq<StoredMessage>, n: nat): (r: seq<StoredMessage>)
    ensures |r| <= n && |r| <= |s|
    ensures |r| == n || r == s
    ensures r == s[..|r|]
  {
    if n <= |s| then s[..n] else s
  }

  /** The page getMessagesStartingFrom returns. */
  function Page(chat: seq<StoredMessage>, limit: nat, cursor: Option<int>): seq<StoredMessage>
  {
    Take(SortDesc(Below(chat, cursor)), limit)
  }

  /** The cursor after the `k` newest messages of a newest-first run were
      accepted: none while nothing was accepted, else the last accepted id. */
  function CursorAfter(d: seq<StoredMessage>, k: nat): Option<int>
    requires k <= |d|
  {
    if k == 0 then None else Some(d[k - 1].id)
  }

  lemma {:induction false} InsertPermutes(m: StoredMessage, s: seq<StoredMessage>)
    ensures multiset(Insert(m, s)) == multiset(s) + multiset{m}
  {
    if s != [] && s[0].id > m.id {
      InsertPermutes(m, s[1..]);
      assert s == [s[0]] + s[1..];
    }
  }

  lemma {:induction false} InsertNonIncreasing(m: StoredMessage, s: seq<StoredMessage>)
    requires NonIncreasing(s)
    ensures NonIncreasing(Insert(m, s))
  {
    if s != [] && s[0].id > m.id {
      InsertNonIncreasing(m, s[1..]);
      InsertPermutes(m, s[1..]);
      var t := Insert(m, s[1..]);
      forall x | x in t ensures x.id <= s[0].id {
        assert x in multiset(t);
      }
    }
  }

  lemma {:induction false} SortPermutes(s: seq<StoredMessage>)
    ensures multiset(SortDesc(s)) == multiset(s)
    ensures NonIncreasing(SortDesc(s))
  {
    if s != [] {
      SortPermutes(s[1..]);
      InsertPermutes(s[0], SortDesc(s[1..]));
      InsertNonIncreasing(s[0], SortDesc(s[1..]));
      assert s == [s[0]] + s[1..];
    }
  }

  /** Inserting a message whose identifier is new keeps a run strictly
      descending. */
  lemma {:induction false} InsertDescending(m: StoredMessage, s: seq<StoredMessage>)
    requires Descending(s)
    requires forall x :: x in s ==> x.id != m.id
    ensures Descending(Insert(m, s))
  {
    if s != [] && s[0].id > m.id {
      InsertDescending(m, s[1..]);
      InsertPermutes(m, s[1..]);
      var t := Insert(m, s[1..]);
      forall x | x in t ensures x.id < s[0].id {
        assert x in multiset(t);
      }
    }
  }

  /** Sorting a chat's messages yields them all, strictly newest first. */
  lemma {:induction false} SortDescending(s: seq<StoredMessage>)
    requires DistinctIds(s)
    ensures Descending(SortDesc(s))
    ensures |SortDesc(s)| == |s|
    ensures forall m :: m in SortDesc(s) <==> m in s
  {
    SortPermutes(s);
    var d := SortDesc(s);
    assert |multiset(d)| == |multiset(s)|;
    forall m ensures m in d <==> m in s {
      assert m in d <==> m in multiset(d);
    }
    if s != [] {
      var t := SortDesc(s[1..]);
      SortDescending(s[1..]);
      forall x | x in t ensures x.id != s[0].id {
        var i :| 0 <= i < |s[1..]| && s[1..][i] == x;
        assert s[i + 1] == x;
      }
      InsertDescending(s[0], t);
    }
  }

  lemma {:induction false} BelowOfAllOlder(s: seq<StoredMessage>, cursor: Option<int>)
    requires forall m :: m in s ==> OlderThan(m, cursor)
    ensures Below(s, cursor) == s
  {
    if s != [] {
      BelowOfAllOlder(s[1..], cursor);
    }
  }

  /** Filtering commutes with inserting into a sorted list. */
  lemma {:induction false} BelowInsert(m: StoredMessage, s: seq<StoredMessage>, cursor: Option<int>)
    requires NonIncreasing(s)
    ensures Below(Insert(m, s), cursor)
         == if OlderThan(m, cursor) then Insert(m, Below(s, cursor)) else Below(s, cursor)
  {
    if s == [] {
    } else if s[0].id <= m.id {
      var b := Below(s, cursor);
      assert Below([m] + s, cursor)
          == (if OlderThan(m, cursor) then [m] else []) + Below(s, cursor) by {
        assert ([m] + s)[1..] == s;
      }
      if b != [] {
        assert b[0] in s;
      }
    } else {
      BelowInsert(m, s[1..], cursor);
      assert ([s[0]] + Insert(m, s[1..]))[1..] == Insert(m, s[1..]);
    }
  }

  /** Filtering commutes with sorting. */
  lemma {:induction false} BelowSort(s: seq<StoredMessage>, cursor: Option<int>)
    ensures SortDesc(Below(s, cursor)) == Below(SortDesc(s), cursor)
  {
    if s != [] {
      BelowSort(s[1..], cursor);
      SortPermutes(s[1..]);
      BelowInsert(s[0], SortDesc(s[1..]), cursor);
      if OlderThan(s[0], cursor) {
        assert ([s[0]] + Below(s[1..], cursor))[1..] == Below(s[1..], cursor);
      }
    }
  }

  /** In a newest-first run, the messages older than the id of its k-th
      message are exactly the ones after it. */
  lemma {:induction false} BelowCursorAfter(d: seq<StoredMessage>, k: nat)
    requires Descending(d) && k <= |d|
    ensures Below(d, CursorAfter(d, k)) == d[k..]
  {
    if k == 0 {
      BelowOfAllOlder(d, None);
    } else if k == 1 {
      BelowOfAllOlder(d[1..], CursorAfter(d, k));
    } else {
      BelowCursorAfter(d[1..], k - 1);
      assert CursorAfter(d[1..], k - 1) == CursorAfter(d, k);
    }
  }

  /** The page fetched from the cursor left by accepting the k newest
      messages is the next run of at most `limit` messages, newest first. */
  lemma PageFromCursor(chat: seq<StoredMessage>, limit: nat, k: nat)
    requires DistinctIds(chat) && k <= |chat|
    ensures |SortDesc(chat)| == |chat|
    ensures Page(chat, limit, CursorAfter(SortDesc(chat), k))
         == SortDesc(chat)[k..if k + limit <= |chat| then k + limit else |chat|]
  {
    SortedChat(chat);
    PageIsTakeOfRest(chat, limit, k);
    TakeOfSuffix(SortDesc(chat), k, limit);
  }

  lemma SortedChat(chat: seq<StoredMessage>)
    requires DistinctIds(chat)
    ensures Descending(SortDesc(chat)) && |SortDesc(chat)| == |chat|
  {
    SortDescending(chat);
  }

  lemma PageIsTakeOfRest(chat: seq<StoredMessage>, limit: nat, k: nat)
    requires Descending(SortDesc(chat)) && k <= |SortDesc(chat)|
    ensures Page(chat, limit, CursorAfter(SortDesc(chat), k)) == Take(SortDesc(chat)[k..], limit)
  {
    var d := SortDesc(chat);
    BelowSort(chat, CursorAfter(d, k));
    BelowCursorAfter(d, k);
  }

  lemma TakeOfSuffix(d: seq<StoredMessage>, k: nat, limit: nat)
    requires k <= |d|
    ensures Take(d[k..], limit) == d[k..if k + limit <= |d| then k + limit else |d|]
  {
    if k + limit <= |d| {
      assert d[k..][..limit] == d[k..k + limit];
    }
  }

  /** What the query promises: at most `limit` messages of the chat, all
      older than the cursor, newest first, and no eligible message skipped:
      any eligible message left out is older than every one returned, and
      when fewer than `limit` come back every eligible message is there. */
  lemma PageShape(chat: seq<StoredMessage>, limit: nat, cursor: Option<int>)
    requires DistinctIds(chat)
    ensures |Page(chat, limit, cursor)| <= limit
    ensures forall m :: m in Page(chat, limit, cursor) ==> m in chat && OlderThan(m, cursor)
    ensures Descending(Page(chat, limit, cursor))
    ensures forall m :: m in chat && OlderThan(m, cursor) && m !in Page(chat, limit, cursor) ==>
      |Page(chat, limit, cursor)| == limit && forall q :: q in Page(chat, limit, cursor) ==> m.id < q.id
  {
    var d := SortDesc(chat);
    SortDescending(chat);
    BelowSort(chat, cursor);
    var sb := Below(d, cursor);
    DescendingBelow(d, cursor);
    TakeOfDescending(sb, limit);
  }

  lemma TakeOfDescending(sb: seq<StoredMessage>, limit: nat)
    requires Descending(sb)
    ensures Descending(Take(sb, limit))
    ensures forall m :: m in sb && m !in Take(sb, limit) ==>
      |Take(sb, limit)| == limit && forall q :: q in Take(sb, limit) ==> m.id < q.id
  {
    var p := Take(sb, limit);
    forall m | m in sb && m !in p
      ensures |p| == limit && forall q :: q in p ==> m.id < q.id
    {
      var i :| 0 <= i < |sb| && sb[i] == m;
      assert i >= |p|;
      forall q | q in p ensures m.id < q.id {
        var j :| 0 <= j < |p| && p[j] == q;
        assert sb[j] == q;
      }
    }
  }

  lemma {:induction false} DescendingBelow(d: seq<StoredMessage>, cursor: Option<int>)
    requires Descending(d)
    ensures Descending(Below(d, cursor))
  {
    if d != [] {
      DescendingBelow(d[1..], cursor);
      var t := Below(d[1..], cursor);
      forall x | x in t ensures x.id < d[0].id {
        var i :| 0 <= i < |d[1..]| && d[1..][i] == x;
        assert d[i + 1] == x;
      }
    }
  }
}
