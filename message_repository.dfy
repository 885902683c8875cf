/** The message table and the two queries the chat turn relies on
    (Back/app/Repositories/MessageRepository.php). The table is a sequence
    of rows in insertion order; `created_at` is stamped from a counter that
    grows with every insert, so rows are chronological. The database's
    `ORDER BY created_at` is modelled by a stable insertion sort. */
module MessageRepository {
  import opened Wrappers

  const User: string := "user"
  const Assistant: string := "assistant"

  type Metadata = map<string, string>

  /** CreateMessageDTO: what a caller asks the repository to store. */
  datatype CreateMessageDto = CreateMessageDto(
    conversationId: int,
    content: string,
    senderType: string,
    metadata: Option<Metadata>)

  /** A stored row of the `messages` table. */
  datatype Message = Message(
    id: nat,
    conversationId: int,
    content: string,
    senderType: string,
    metadata: Option<Metadata>,
    createdAt: nat)

  datatype Direction = Ascending | Descending

  /** `a` may come before `b` in an `ORDER BY created_at` in direction `dir`. */
  predicate Precedes(a: Message, b: Message, dir: Direction) {
    if dir == Ascending then a.createdAt <= b.createdAt else a.createdAt >= b.createdAt
  }

  predicate SortedBy(s: seq<Message>, dir: Direction) {
    forall i, j :: 0 <= i < j < |s| ==> Precedes(s[i], s[j], dir)
  }

  /** Rows in strictly increasing `created_at` and `id` order. */
  predicate Chronological(s: seq<Message>) {
    forall i, j :: 0 <= i < j < |s| ==> s[i].createdAt < s[j].createdAt && s[i].id < s[j].id
  }

  function Insert(m: Message, s: seq<Message>, dir: Direction): (r: seq<Message>)
    ensures multiset(r) == multiset(s) + multiset{m}
  {
    if s == [] || Precedes(m, s[0], dir) then
      [m] + s
    else
      assert s == [s[0]] + s[1..];
      [s[0]] + Insert(m, s[1..], dir)
  }

  lemma {:induction false} InsertSorted(m: Message, s: seq<Message>, dir: Direction)
    requires SortedBy(s, dir)
    ensures SortedBy(Insert(m, s, dir), dir)
  {
    if s == [] || Precedes(m, s[0], dir) {
      var r := [m] + s;
      forall i, j | 0 <= i < j < |r| ensures Precedes(r[i], r[j], dir) {
        if i == 0 {
          if j > 1 {
            assert Precedes(s[0], s[j - 1], dir);
          }
        } else {
          assert r[i] == s[i - 1] && r[j] == s[j - 1];
        }
      }
    } else {
      var t := s[1..];
      InsertSorted(m, t, dir);
      var ins := Insert(m, t, dir);
      forall x | x in ins ensures Precedes(s[0], x, dir) {
        InsertMember(m, t, dir, x);
        if x != m {
          var k :| 0 <= k < |t| && t[k] == x;
          assert s[k + 1] == x;
        }
      }
      var r := [s[0]] + ins;
      forall i, j | 0 <= i < j < |r| ensures Precedes(r[i], r[j], dir) {
        if i == 0 {
          assert r[j] in ins;
        } else {
          assert r[i] == ins[i - 1] && r[j] == ins[j - 1];
        }
      }
    }
  }

  lemma InsertMember(m: Message, s: seq<Message>, dir: Direction, x: Message)
    requires x in Insert(m, s, dir)
    ensures x == m || x in s
  {
    assert x in multiset(Insert(m, s, dir));
  }

  /** The order the database returns rows in for `orderBy('created_at', dir)`. */
  function SortBy(s: seq<Message>, dir: Direction): (r: seq<Message>)
    ensures multiset(r) == multiset(s)
    ensures |r| == |s|
    ensures SortedBy(r, dir)
  {
    if s == [] then []
    else
      assert s == [s[0]] + s[1..];
      InsertSorted(s[0], SortBy(s[1..], dir), dir);
      Insert(s[0], SortBy(s[1..], dir), dir)
  }

  /** `where('conversation_id', cid)`: the rows of one conversation, in table order. */
  function OfConversation(rows: seq<Message>, cid: int): (r: seq<Message>)
    ensures |r| <= |rows|
    ensures forall m :: m in r ==> m in rows && m.conversationId == cid
    ensures forall m :: m in rows && m.conversationId == cid ==> m in r
  {
    if rows == [] then []
    else
      var last := rows[|rows| - 1];
      assert rows == rows[..|rows| - 1] + [last];
      OfConversation(rows[..|rows| - 1], cid) + (if last.conversationId == cid then [last] else [])
  }

  /** Appending a row extends the conversation view exactly by that row. */
  lemma OfConversationAppend(rows: seq<Message>, m: Message, cid: int)
    ensures OfConversation(rows + [m], cid)
         == OfConversation(rows, cid) + (if m.conversationId == cid then [m] else [])
  {
    assert (rows + [m])[..|rows|] == rows;
  }

  /** A row of the conversation adds one to its count. */
  lemma OfConversationAppendCount(rows: seq<Message>, m: Message, cid: int)
    requires m.conversationId == cid
    ensures |OfConversation(rows + [m], cid)| == |OfConversation(rows, cid)| + 1
  {
    OfConversationAppend(rows, m, cid);
  }

  /** Appending two rows of a conversation adds two to its count. */
  lemma OfConversationAppendTwoCount(rows: seq<Message>, a: Message, b: Message, cid: int)
    requires a.conversationId == cid && b.conversationId == cid
    ensures |OfConversation(rows + [a, b], cid)| == |OfConversation(rows, cid)| + 2
  {
    assert rows + [a, b] == (rows + [a]) + [b];
    OfConversationAppendCount(rows, a, cid);
    OfConversationAppendCount(rows + [a], b, cid);
  }

  /** A subsequence of a chronological table is chronological. */
  lemma {:induction false} OfConversationChronological(rows: seq<Message>, cid: int)
    requires Chronological(rows)
    ensures Chronological(OfConversation(rows, cid))
  {
    if rows != [] {
      var init := rows[..|rows| - 1];
      var last := rows[|rows| - 1];
      OfConversationChronological(init, cid);
      var f := OfConversation(init, cid);
      forall x | x in f ensures x.createdAt < last.createdAt && x.id < last.id {
        var k :| 0 <= k < |init| && init[k] == x;
      }
    }
  }

  /** Laravel's `limit($n)`: a negative limit is ignored, otherwise at most `n` rows. */
  function Capped(count: nat, limit: int): (c: nat)
    ensures c <= count
    ensures limit >= 0 ==> c == if limit < count then limit else count
    ensures limit < 0 ==> c == count
  {
    if limit < 0 || count <= limit then count else limit
  }

  function Reverse(s: seq<Message>): (r: seq<Message>)
    ensures |r| == |s|
    ensures forall k :: 0 <= k < |s| ==> r[k] == s[|s| - 1 - k]
  {
    seq(|s|, k requires 0 <= k < |s| => s[|s| - 1 - k])
  }

  /** The reverse of a non-empty sequence ends with its first element. */
  lemma ReverseCons(s: seq<Message>)
    requires s != []
    ensures Reverse(s) == Reverse(s[1..]) + [s[0]]
  {
    var a := Reverse(s);
    var b := Reverse(s[1..]) + [s[0]];
    assert |a| == |b|;
    forall k | 0 <= k < |a| ensures a[k] == b[k] {
      if k < |s| - 1 {
        assert b[k] == s[1..][|s| - 2 - k];
      }
    }
  }

  lemma {:induction false} ReverseMultiset(s: seq<Message>)
    ensures multiset(Reverse(s)) == multiset(s)
  {
    if s != [] {
      assert s == [s[0]] + s[1..];
      ReverseCons(s);
      ReverseMultiset(s[1..]);
    }
  }

  lemma ReverseSorted(s: seq<Message>, dir: Direction)
    requires SortedBy(s, dir)
    ensures SortedBy(Reverse(s), if dir == Ascending then Descending else Ascending)
  {
    var r := Reverse(s);
    forall i, j | 0 <= i < j < |r|
      ensures Precedes(r[i], r[j], if dir == Ascending then Descending else Ascending)
    {
    }
  }

  /** MessageRepository::getByConversationId: every message of the
      conversation, ordered by `created_at`. */
  function ByConversation(rows: seq<Message>, cid: int): (r: seq<Message>)
    ensures multiset(r) == multiset(OfConversation(rows, cid))
    ensures forall m :: m in r <==> m in rows && m.conversationId == cid
    ensures SortedBy(r, Ascending)
  {
    var r := SortBy(OfConversation(rows, cid), Ascending);
    assert forall m :: m in r <==> m in multiset(r);
    r
  }

  /** MessageRepository::getLatestByConversationId: newest first, at most
      `limit` rows, then reversed back to chronological order. */
  function Latest(rows: seq<Message>, cid: int, limit: int): (r: seq<Message>)
    ensures |r| == Capped(|OfConversation(rows, cid)|, limit)
    ensures forall m :: m in r ==> m in rows && m.conversationId == cid
    ensures multiset(r) <= multiset(OfConversation(rows, cid))
    ensures SortedBy(r, Ascending)
  {
    var all := OfConversation(rows, cid);
    var newest := SortBy(all, Descending);
    var c := Capped(|all|, limit);
    PrefixProperties(newest, c, Descending);
    ReverseSorted(newest[..c], Descending);
    ReverseMultiset(newest[..c]);
    var r := Reverse(newest[..c]);
    assert forall m :: m in r ==> m in multiset(all);
    r
  }

  lemma PrefixProperties(s: seq<Message>, c: nat, dir: Direction)
    requires c <= |s|
    requires SortedBy(s, dir)
    ensures multiset(s[..c]) <= multiset(s)
    ensures SortedBy(s[..c], dir)
  {
    assert s == s[..c] + s[c..];
  }

  /** Sorting a sorted sequence changes nothing. */
  lemma {:induction false} SortOfSorted(s: seq<Message>, dir: Direction)
    requires SortedBy(s, dir)
    ensures SortBy(s, dir) == s
  {
    if s != [] {
      SortOfSorted(s[1..], dir);
    }
  }

  /** Inserting a row that must come after everything puts it last. */
  lemma {:induction false} InsertLast(m: Message, s: seq<Message>, dir: Direction)
    requires forall x :: x in s ==> !Precedes(m, x, dir)
    ensures Insert(m, s, dir) == s + [m]
  {
    if s != [] {
      assert s[0] in s;
      InsertLast(m, s[1..], dir);
    }
  }

  /** On chronological rows the descending sort is the reverse. */
  lemma {:induction false} SortDescendingOfChronological(s: seq<Message>)
    requires Chronological(s)
    ensures SortBy(s, Descending) == Reverse(s)
  {
    if s != [] {
      SortDescendingOfChronological(s[1..]);
      forall x | x in Reverse(s[1..]) ensures !Precedes(s[0], x, Descending) {
        assert x in multiset(s[1..]);
        var k :| 0 <= k < |s[1..]| && s[1..][k] == x;
        assert s[k + 1] == x;
      }
      InsertLast(s[0], Reverse(s[1..]), Descending);
      ReverseCons(s);
    }
  }

  /** With distinct timestamps the history window keeps the most recent
      messages: it is the last `Capped(n, limit)` messages of the conversation
      in chronological order. */
  lemma LatestIsSuffix(rows: seq<Message>, cid: int, limit: int)
    requires Chronological(rows)
    ensures var all := ByConversation(rows, cid);
            Latest(rows, cid, limit) == all[|all| - Capped(|all|, limit)..]
  {
    var f := OfConversation(rows, cid);
    OfConversationChronological(rows, cid);
    SortOfSorted(f, Ascending);
    SortDescendingOfChronological(f);
    ReversedPrefixIsSuffix(f, Capped(|f|, limit));
  }

  /** Reversing the first `c` elements of the reverse gives the last `c`. */
  lemma ReversedPrefixIsSuffix(f: seq<Message>, c: nat)
    requires c <= |f|
    ensures Reverse(Reverse(f)[..c]) == f[|f| - c..]
  {
    var r := Reverse(Reverse(f)[..c]);
    forall k | 0 <= k < c ensures r[k] == f[|f| - c..][k] {
      ReversedPrefixAt(f, c, k);
    }
  }

  lemma ReversedPrefixAt(f: seq<Message>, c: nat, k: nat)
    requires k < c <= |f|
    ensures Reverse(Reverse(f)[..c])[k] == f[|f| - c + k]
  {
    var capped := Reverse(f)[..c];
    assert Reverse(capped)[k] == capped[c - 1 - k];
    assert capped[c - 1 - k] == Reverse(f)[c - 1 - k];
  }

  /** A table whose `created_at` values come from an increasing counter. */
  class MessageTable {
    var rows: seq<Message>
    var tick: nat

    ghost predicate Valid()
      reads this
    {
      Chronological(rows) &&
      forall m :: m in rows ==> m.id < tick && m.createdAt < tick
    }

    constructor ()
      ensures Valid() && rows == []
    {
      rows := [];
      tick := 0;
    }

    /** MessageRepository::create: inserts exactly one row carrying the
        DTO's fields, newer than every existing row. */
    method Create(dto: CreateMessageDto) returns (m: Message)
      requires Valid()
      modifies this
      ensures Valid()
      ensures rows == old(rows) + [m]
      ensures m.conversationId == dto.conversationId && m.content == dto.content
      ensures m.senderType == dto.senderType && m.metadata == dto.metadata
      ensures forall x :: x in old(rows) ==> x.createdAt < m.createdAt && x.id < m.id
    {
      m := Message(tick, dto.conversationId, dto.content, dto.senderType, dto.metadata, tick);
      rows := rows + [m];
      tick := tick + 1;
    }

    /** MessageRepository::delete: removes the row with that id and reports
        whether one existed; every other row stays, in order. */
    method Delete(id: nat) returns (deleted: bool)
      requires Valid()
      modifies this
      ensures Valid()
      ensures deleted <==> exists m :: m in old(rows) && m.id == id
      ensures rows == WithoutId(old(rows), id)
    {
      deleted := exists m :: m in rows && m.id == id;
      WithoutIdChronological(rows, id);
      rows := WithoutId(rows, id);
    }
  }

  /** The rows left once the row with id `id` is destroyed. */
  function WithoutId(rows: seq<Message>, id: nat): (r: seq<Message>)
    ensures forall m :: m in r <==> m in rows && m.id != id
  {
    if rows == [] then []
    else
      var last := rows[|rows| - 1];
      assert rows == rows[..|rows| - 1] + [last];
      WithoutId(rows[..|rows| - 1], id) + (if last.id != id then [last] else [])
  }

  lemma {:induction false} WithoutIdChronological(rows: seq<Message>, id: nat)
    requires Chronological(rows)
    ensures Chronological(WithoutId(rows, id))
  {
    if rows != [] {
      var init := rows[..|rows| - 1];
      var last := rows[|rows| - 1];
      WithoutIdChronological(init, id);
      forall x | x in WithoutId(init, id) ensures x.createdAt < last.createdAt && x.id < last.id {
        var k :| 0 <= k < |init| && init[k] == x;
      }
    }
  }

  /** `destroy` keeps the order of the rows it keeps: removal distributes
      over concatenation. */
  lemma {:induction false} WithoutIdAppend(a: seq<Message>, b: seq<Message>, id: nat)
    ensures WithoutId(a + b, id) == WithoutId(a, id) + WithoutId(b, id)
    decreases |b|
  {
    if b == [] {
      assert a + b == a;
    } else {
      var init := b[..|b| - 1];
      var last := b[|b| - 1];
      assert (a + b)[..|a + b| - 1] == a + init;
      assert (a + b)[|a + b| - 1] == last;
      WithoutIdAppend(a, init, id);
    }
  }
}
