/**
 * The chat-history service over the `chat_history` table: one insert per saved turn, two reads of
 * a user's turns in opposite chronological orders, and two deletes scoped to the owning user.
 */
module ChatStore {
  import opened Wrappers
  import opened Seqs

  /** A sampling parameter (`temperature`, `top_p`): carried through, never computed with. */
  datatype Float = Number(literal: string)

  /** The fields `saveChat` is called with. */
  datatype SaveChatOptions = SaveChatOptions(
    userId: nat, prompt: string, response: string,
    conversationId: Option<string>, parentMessageId: Option<string>,
    systemMessage: Option<string>, temperature: Option<Float>, topP: Option<Float>)

  /** A row of `chat_history`; `id` and `createdAt` are generated by the database. */
  datatype ChatRow = ChatRow(
    id: nat, userId: nat,
    conversationId: Option<string>, parentMessageId: Option<string>,
    prompt: string, response: string,
    systemMessage: Option<string>, temperature: Option<Float>, topP: Option<Float>,
    createdAt: nat)

  /** The row `INSERT ... RETURNING *` yields for the given options, id and timestamp. */
  function RowOf(o: SaveChatOptions, id: nat, createdAt: nat): ChatRow {
    ChatRow(id, o.userId, o.conversationId, o.parentMessageId, o.prompt, o.response,
            o.systemMessage, o.temperature, o.topP, createdAt)
  }

  // ---------------------------------------------------------------- ORDER BY created_at

  datatype Order = Ascending | Descending

  /** The sort key: `created_at`, negated for a descending order. */
  function Key(r: ChatRow, o: Order): int {
    if o == Ascending then r.createdAt else -(r.createdAt as int)
  }

  ghost predicate Sorted(s: seq<ChatRow>, o: Order) {
    forall i, j | 0 <= i < j < |s| :: Key(s[i], o) <= Key(s[j], o)
  }

  ghost predicate StrictlySorted(s: seq<ChatRow>, o: Order) {
    forall i, j | 0 <= i < j < |s| :: Key(s[i], o) < Key(s[j], o)
  }

  /** No two rows carry the same timestamp. */
  ghost predicate DistinctTimes(s: seq<ChatRow>) {
    forall i, j | 0 <= i < j < |s| :: s[i].createdAt != s[j].createdAt
  }

  /** A head ordered before `x` and before everything in `s` is ordered before all of `t`, whose elements come from `s` and `x`. */
  lemma HeadBelowAll(a: ChatRow, s: seq<ChatRow>, x: ChatRow, t: seq<ChatRow>, o: Order, strict: bool)
    requires if strict then StrictlySorted([a] + s, o) && Key(a, o) < Key(x, o)
             else Sorted([a] + s, o) && Key(a, o) <= Key(x, o)
    requires forall y | y in t :: y == x || y in s
    ensures forall k | 0 <= k < |t| :: if strict then Key(a, o) < Key(t[k], o) else Key(a, o) <= Key(t[k], o)
  {
    forall k | 0 <= k < |t| ensures if strict then Key(a, o) < Key(t[k], o) else Key(a, o) <= Key(t[k], o) {
      assert t[k] in t;
      if t[k] != x {
        assert t[k] in s;
        var m :| 0 <= m < |s| && s[m] == t[k];
        assert ([a] + s)[0] == a && ([a] + s)[m + 1] == t[k];
      }
    }
  }

  /** A head ordered before every element of an ordered sequence keeps it ordered. */
  lemma ConsSorted(a: ChatRow, s: seq<ChatRow>, o: Order)
    requires Sorted(s, o)
    requires forall k | 0 <= k < |s| :: Key(a, o) <= Key(s[k], o)
    ensures Sorted([a] + s, o)
  {
    var t := [a] + s;
    forall i, j | 0 <= i < j < |t| ensures Key(t[i], o) <= Key(t[j], o) {
      assert t[j] == s[j - 1];
      if i > 0 {
        assert t[i] == s[i - 1];
      }
    }
  }

  lemma SortedTail(s: seq<ChatRow>, o: Order)
    requires Sorted(s, o) && s != []
    ensures Sorted(s[1..], o)
  {
  }

  /** Putting back a head that belongs before everything inserted into the tail. */
  lemma InsertBehindHead(s: seq<ChatRow>, x: ChatRow, t: seq<ChatRow>, o: Order)
    requires Sorted(s, o) && s != [] && Key(s[0], o) <= Key(x, o)
    requires Sorted(t, o) && multiset(t) == multiset(s[1..]) + multiset{x}
    requires forall y :: y in t <==> y == x || y in s[1..]
    ensures Sorted([s[0]] + t, o)
    ensures multiset([s[0]] + t) == multiset(s) + multiset{x}
    ensures forall y :: y in [s[0]] + t <==> y == x || y in s
  {
    assert s == [s[0]] + s[1..];
    HeadBelowAll(s[0], s[1..], x, t, o, false);
    ConsSorted(s[0], t, o);
  }

  /** One step of insertion sort. */
  function Insert(x: ChatRow, s: seq<ChatRow>, o: Order): (r: seq<ChatRow>)
    requires Sorted(s, o)
    ensures Sorted(r, o)
    ensures multiset(r) == multiset(s) + multiset{x}
    ensures forall y :: y in r <==> y == x || y in s
    ensures |r| == |s| + 1 && (r[0] == x || (s != [] && r[0] == s[0]))
  {
    if s == [] || Key(x, o) <= Key(s[0], o) then
      ConsSorted(x, s, o);
      [x] + s
    else
      SortedTail(s, o);
      var t := Insert(x, s[1..], o);
      InsertBehindHead(s, x, t, o);
      [s[0]] + t
  }

  /** `ORDER BY created_at ASC|DESC`: ordered by timestamp, and a permutation of its input. */
  function SortBy(s: seq<ChatRow>, o: Order): (r: seq<ChatRow>)
    ensures Sorted(r, o)
    ensures multiset(r) == multiset(s)
    ensures forall x :: x in r <==> x in s
  {
    if s == [] then []
    else
      assert s == [s[0]] + s[1..];
      Insert(s[0], SortBy(s[1..], o), o)
  }

  /** A head strictly before every element of a strictly ordered sequence keeps it strictly ordered. */
  lemma ConsStrict(a: ChatRow, s: seq<ChatRow>, o: Order)
    requires StrictlySorted(s, o)
    requires forall k | 0 <= k < |s| :: Key(a, o) < Key(s[k], o)
    ensures StrictlySorted([a] + s, o)
  {
    var t := [a] + s;
    forall i, j | 0 <= i < j < |t| ensures Key(t[i], o) < Key(t[j], o) {
      assert t[j] == s[j - 1];
      if i > 0 {
        assert t[i] == s[i - 1];
      }
    }
  }

  lemma {:induction false} InsertStrict(x: ChatRow, s: seq<ChatRow>, o: Order)
    requires StrictlySorted(s, o)
    requires forall y | y in s :: y.createdAt != x.createdAt
    ensures StrictlySorted(Insert(x, s, o), o)
  {
    if s == [] {
      ConsStrict(x, s, o);
    } else {
      assert s[0] in s;
      if Key(x, o) > Key(s[0], o) {
        assert s == [s[0]] + s[1..];
        InsertStrict(x, s[1..], o);
        var t := Insert(x, s[1..], o);
        HeadBelowAll(s[0], s[1..], x, t, o, true);
        ConsStrict(s[0], t, o);
        assert Insert(x, s, o) == [s[0]] + t;
      } else {
        assert Key(x, o) < Key(s[0], o);
        ConsStrict(x, s, o);
        assert Insert(x, s, o) == [x] + s;
      }
    }
  }

  /** With distinct timestamps the order is strict, hence unique. */
  lemma {:induction false} SortStrict(s: seq<ChatRow>, o: Order)
    requires DistinctTimes(s)
    ensures StrictlySorted(SortBy(s, o), o)
  {
    if s != [] {
      SortStrict(s[1..], o);
      var t := SortBy(s[1..], o);
      forall y | y in t ensures y.createdAt != s[0].createdAt {
        assert y in multiset(t);
        var m :| 0 <= m < |s[1..]| && s[1..][m] == y;
        assert s[m + 1] == y;
      }
      InsertStrict(s[0], t, o);
    }
  }

  /** In a strictly ordered sequence, the elements after the head are the other elements. */
  lemma TailOfStrict(a: seq<ChatRow>, o: Order, x: ChatRow)
    requires StrictlySorted(a, o) && a != []
    ensures x in a[1..] <==> x in a && x != a[0]
  {
    if x in a[1..] {
      var k :| 0 <= k < |a[1..]| && a[1..][k] == x;
      assert a[k + 1] == x;
    }
    if x in a && x != a[0] {
      var k :| 0 <= k < |a| && a[k] == x;
      assert a[1..][k - 1] == x;
    }
  }

  lemma StrictTail(a: seq<ChatRow>, o: Order)
    requires StrictlySorted(a, o) && a != []
    ensures StrictlySorted(a[1..], o)
  {
  }

  /** Two strictly ordered sequences with the same elements start with the same element. */
  lemma HeadsAgree(a: seq<ChatRow>, b: seq<ChatRow>, o: Order)
    requires StrictlySorted(a, o) && StrictlySorted(b, o) && a != [] && b != []
    requires forall x :: x in a <==> x in b
    ensures a[0] == b[0]
  {
    assert a[0] in b && b[0] in a;
    var i :| 0 <= i < |b| && b[i] == a[0];
    var j :| 0 <= j < |a| && a[j] == b[0];
    assert Key(b[0], o) <= Key(b[i], o) && Key(a[0], o) <= Key(a[j], o);
  }

  /** Two strictly ordered sequences with the same elements are equal. */
  lemma {:induction false} StrictlySortedUnique(a: seq<ChatRow>, b: seq<ChatRow>, o: Order)
    requires StrictlySorted(a, o) && StrictlySorted(b, o)
    requires forall x :: x in a <==> x in b
    ensures a == b
  {
    if a == [] {
      NonEmptyHasElement(b);
    } else {
      assert a[0] in b;
      HeadsAgree(a, b, o);
      forall x ensures x in a[1..] <==> x in b[1..] {
        TailOfStrict(a, o, x);
        TailOfStrict(b, o, x);
      }
      StrictTail(a, o);
      StrictTail(b, o);
      StrictlySortedUnique(a[1..], b[1..], o);
      assert a == [a[0]] + a[1..] && b == [b[0]] + b[1..];
    }
  }

  lemma {:induction false} SelectKeepsStrict(s: seq<ChatRow>, p: ChatRow -> bool, o: Order)
    requires StrictlySorted(s, o)
    ensures StrictlySorted(Select(s, p), o)
  {
    if s != [] {
      StrictTail(s, o);
      SelectKeepsStrict(s[1..], p, o);
      var t := Select(s[1..], p);
      forall k | 0 <= k < |t| ensures Key(s[0], o) < Key(t[k], o) {
        assert t[k] in t;
        var m :| 0 <= m < |s[1..]| && s[1..][m] == t[k];
        assert s[m + 1] == t[k];
      }
      if p(s[0]) {
        ConsStrict(s[0], t, o);
      }
    }
  }

  lemma {:induction false} SelectKeepsDistinct(s: seq<ChatRow>, p: ChatRow -> bool)
    requires DistinctTimes(s)
    ensures DistinctTimes(Select(s, p))
  {
    if s != [] {
      SelectKeepsDistinct(s[1..], p);
      var t := Select(s[1..], p);
      forall k | 0 <= k < |t| ensures s[0].createdAt != t[k].createdAt {
        assert t[k] in t;
        var m :| 0 <= m < |s[1..]| && s[1..][m] == t[k];
        assert s[m + 1] == t[k];
      }
    }
  }

  lemma ReverseFlipsOrder(s: seq<ChatRow>)
    requires StrictlySorted(s, Descending)
    ensures StrictlySorted(Reverse(s), Ascending)
  {
  }

  // ---------------------------------------------------------------- the queries

  function OwnedBy(u: nat): ChatRow -> bool {
    (r: ChatRow) => r.userId == u
  }

  function InConversation(u: nat, c: string): ChatRow -> bool {
    (r: ChatRow) => r.userId == u && r.conversationId == Some(c)
  }

  /** Rows of conversation `c`, whoever owns them. */
  function TaggedWith(c: string): ChatRow -> bool {
    (r: ChatRow) => r.conversationId == Some(c)
  }

  function NotChat(u: nat, chatId: int): ChatRow -> bool {
    (r: ChatRow) => !(r.id == chatId && r.userId == u)
  }

  function NotInConversation(u: nat, c: string): ChatRow -> bool {
    (r: ChatRow) => !(r.userId == u && r.conversationId == Some(c))
  }

  /** `getChatHistory`: exactly the user's rows, most recent first. */
  function GetChatHistory(rows: seq<ChatRow>, u: nat): (r: seq<ChatRow>)
    ensures forall x :: x in r <==> x in rows && x.userId == u
    ensures multiset(r) == multiset(Select(rows, OwnedBy(u)))
    ensures Sorted(r, Descending)
  {
    SortBy(Select(rows, OwnedBy(u)), Descending)
  }

  /** `getChatByConversation`: exactly the user's rows of conversation `c`, oldest first. */
  function GetChatByConversation(rows: seq<ChatRow>, u: nat, c: string): (r: seq<ChatRow>)
    ensures forall x :: x in r <==> x in rows && x.userId == u && x.conversationId == Some(c)
    ensures multiset(r) == multiset(Select(rows, InConversation(u, c)))
    ensures Sorted(r, Ascending)
  {
    SortBy(Select(rows, InConversation(u, c)), Ascending)
  }

  /**
   * With distinct timestamps, the chronological replay of a conversation is exactly the dashboard
   * listing, restricted to that conversation, read backwards.
   */
  lemma ConversationIsReversedHistory(rows: seq<ChatRow>, u: nat, c: string)
    requires DistinctTimes(rows)
    ensures GetChatByConversation(rows, u, c) == Reverse(Select(GetChatHistory(rows, u), TaggedWith(c)))
  {
    var history := GetChatHistory(rows, u);
    var tagged := Select(history, TaggedWith(c));
    ReplayStrict(rows, u, c);
    TaggedHistoryStrict(rows, u, c);
    ReverseFlipsOrder(tagged);
    StrictlySortedUnique(GetChatByConversation(rows, u, c), Reverse(tagged), Ascending);
  }

  lemma ReplayStrict(rows: seq<ChatRow>, u: nat, c: string)
    requires DistinctTimes(rows)
    ensures StrictlySorted(GetChatByConversation(rows, u, c), Ascending)
  {
    SelectKeepsDistinct(rows, InConversation(u, c));
    SortStrict(Select(rows, InConversation(u, c)), Ascending);
  }

  lemma TaggedHistoryStrict(rows: seq<ChatRow>, u: nat, c: string)
    requires DistinctTimes(rows)
    ensures StrictlySorted(Select(GetChatHistory(rows, u), TaggedWith(c)), Descending)
  {
    SelectKeepsDistinct(rows, OwnedBy(u));
    SortStrict(Select(rows, OwnedBy(u)), Descending);
    SelectKeepsStrict(GetChatHistory(rows, u), TaggedWith(c), Descending);
  }

  /** `DELETE ... WHERE id = $1 AND user_id = $2` applied to the rows. */
  function WithoutChat(rows: seq<ChatRow>, u: nat, chatId: int): (r: seq<ChatRow>)
    ensures forall x :: x in r <==> x in rows && !(x.id == chatId && x.userId == u)
  {
    Select(rows, NotChat(u, chatId))
  }

  /** `DELETE ... WHERE user_id = $1 AND conversation_id = $2` applied to the rows. */
  function WithoutConversation(rows: seq<ChatRow>, u: nat, c: string): (r: seq<ChatRow>)
    ensures forall x :: x in r <==> x in rows && !(x.userId == u && x.conversationId == Some(c))
  {
    Select(rows, NotInConversation(u, c))
  }

  /** Deleting an id the user does not own (absent, or another user's) leaves every row in place. */
  lemma DeleteUnownedIsNoop(rows: seq<ChatRow>, u: nat, chatId: int)
    requires forall x | x in rows :: !(x.id == chatId && x.userId == u)
    ensures WithoutChat(rows, u, chatId) == rows
  {
    forall i | 0 <= i < |rows| ensures NotChat(u, chatId)(rows[i]) {
      assert rows[i] in rows;
    }
  }

  /** Rows in insertion order: ids and timestamps both strictly increasing, as the database generates them. */
  ghost predicate Chronological(rows: seq<ChatRow>) {
    forall i, j | 0 <= i < j < |rows| :: rows[i].id < rows[j].id && rows[i].createdAt < rows[j].createdAt
  }

  lemma {:induction false} SelectKeepsChronological(s: seq<ChatRow>, p: ChatRow -> bool)
    requires Chronological(s)
    ensures Chronological(Select(s, p))
  {
    if s != [] {
      SelectKeepsChronological(s[1..], p);
      var t := Select(s[1..], p);
      forall k | 0 <= k < |t| ensures s[0].id < t[k].id && s[0].createdAt < t[k].createdAt {
        assert t[k] in t;
        var m :| 0 <= m < |s[1..]| && s[1..][m] == t[k];
        assert s[m + 1] == t[k];
      }
    }
  }

  /** With generated ids, a delete by id removes at most one row. */
  lemma {:induction false} DeleteChatAtMostOne(rows: seq<ChatRow>, u: nat, chatId: int)
    requires Chronological(rows)
    ensures |WithoutChat(rows, u, chatId)| >= |rows| - 1
  {
    if rows != [] {
      if NotChat(u, chatId)(rows[0]) {
        DeleteChatAtMostOne(rows[1..], u, chatId);
      } else {
        forall i | 0 <= i < |rows[1..]| ensures NotChat(u, chatId)(rows[1..][i]) {
          assert rows[0].id < rows[i + 1].id;
        }
      }
    }
  }

  /** A delete by another user never changes what the owner's history shows. */
  lemma ForeignDeleteKeepsHistory(rows: seq<ChatRow>, owner: nat, other: nat, chatId: int)
    requires owner != other
    ensures GetChatHistory(WithoutChat(rows, other, chatId), owner) == GetChatHistory(rows, owner)
  {
    SelectAbsorbs(rows, NotChat(other, chatId), OwnedBy(owner));
  }

  /** Deleting a conversation leaves the user's other conversations, and other users' rows, as they were. */
  lemma DeleteConversationKeepsOthers(rows: seq<ChatRow>, u: nat, c: string, v: nat, d: string)
    requires v != u || d != c
    ensures GetChatByConversation(WithoutConversation(rows, u, c), v, d) == GetChatByConversation(rows, v, d)
  {
    SelectAbsorbs(rows, NotInConversation(u, c), InConversation(v, d));
  }

  // ---------------------------------------------------------------- the table

  /** `chat_history`, with the id sequence and the clock the database would draw from. */
  class ChatTable {
    var rows: seq<ChatRow>
    var nextId: nat
    var clock: nat

    ghost predicate Valid()
      reads this
    {
      Chronological(rows) && forall i | 0 <= i < |rows| :: rows[i].id < nextId && rows[i].createdAt < clock
    }

    constructor ()
      ensures Valid() && rows == [] && nextId == 1
    {
      rows, nextId, clock := [], 1, 0;
    }

    /** `chatService.saveChat`: inserts one row with fresh id and timestamp and returns it. */
    method SaveChat(o: SaveChatOptions) returns (row: ChatRow)
      requires Valid()
      modifies this
      ensures Valid()
      ensures row == RowOf(o, old(nextId), old(clock))
      ensures rows == old(rows) + [row]
      ensures nextId == old(nextId) + 1 && clock == old(clock) + 1
    {
      row := RowOf(o, nextId, clock);
      rows, nextId, clock := rows + [row], nextId + 1, clock + 1;
    }

    /** `chatService.deleteChat`: removes the rows with that id owned by `u`; a silent no-op otherwise. */
    method DeleteChat(u: nat, chatId: int)
      requires Valid()
      modifies this
      ensures Valid()
      ensures rows == WithoutChat(old(rows), u, chatId)
      ensures nextId == old(nextId) && clock == old(clock)
    {
      SelectKeepsChronological(rows, NotChat(u, chatId));
      ghost var before := rows;
      rows := Select(rows, NotChat(u, chatId));
      forall i | 0 <= i < |rows| ensures rows[i].id < nextId && rows[i].createdAt < clock {
        assert rows[i] in before;
      }
    }

    /** `chatService.deleteChatsByConversation`: removes all of `u`'s rows in conversation `c`. */
    method DeleteChatsByConversation(u: nat, c: string)
      requires Valid()
      modifies this
      ensures Valid()
      ensures rows == WithoutConversation(old(rows), u, c)
      ensures nextId == old(nextId) && clock == old(clock)
    {
      SelectKeepsChronological(rows, NotInConversation(u, c));
      ghost var before := rows;
      rows := Select(rows, NotInConversation(u, c));
      forall i | 0 <= i < |rows| ensures rows[i].id < nextId && rows[i].createdAt < clock {
        assert rows[i] in before;
      }
    }
  }

  /** The table's own rows always have distinct timestamps, so its two reads are each other's reverse. */
  lemma ChronologicalDistinct(rows: seq<ChatRow>)
    requires Chronological(rows)
    ensures DistinctTimes(rows)
  {
  }
}
