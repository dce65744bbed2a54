/**
 * `MemStorage` (server/storage.ts): five tables keyed by auto-incremented ids,
 * one counter per table starting at 1, and the create / get / filter /
 * find-first / update operations over them.
 */
module Storage {
  import opened Wrappers
  import opened Schema
  import opened Sequences

  /** `currentIds`: the id the next create of each table will take. */
  datatype IdCounters = IdCounters(user: int, document: int, analysisResult: int, task: int, chatMessage: int)

  /** A table whose keys are exactly the ids issued so far: 1 up to, not including, `next`. */
  ghost predicate Dense<T>(m: map<int, T>, next: int) {
    1 <= next && forall k :: k in m <==> 1 <= k < next
  }

  /**
   * `Array.from(m.values())`. A JavaScript `Map` iterates in insertion order;
   * ids are issued in increasing order, never removed, and re-setting an
   * existing key keeps its place, so insertion order is id order.
   */
  function Rows<T>(m: map<int, T>, next: int): (r: seq<T>)
    requires forall k :: 1 <= k < next ==> k in m
    ensures |r| == if next <= 1 then 0 else next - 1
    ensures forall i :: 0 <= i < |r| ==> r[i] == m[i + 1]
  {
    if next <= 1 then [] else seq(next - 1, i requires 0 <= i < next - 1 => m[i + 1])
  }

  lemma RowsAppend<T>(m: map<int, T>, next: int, x: T)
    requires 1 <= next && forall k :: 1 <= k < next ==> k in m
    ensures Rows(m[next := x], next + 1) == Rows(m, next) + [x]
  {
  }

  /** Storing a new row under the next id appends it to every filtered view. */
  lemma FilterRowsAppend<T(!new)>(m: map<int, T>, next: int, x: T, p: T -> bool)
    requires 1 <= next && forall k :: 1 <= k < next ==> k in m
    ensures Filter(Rows(m[next := x], next + 1), p) == Filter(Rows(m, next), p) + (if p(x) then [x] else [])
  {
    RowsAppend(m, next, x);
    FilterAppend(Rows(m, next), [x], p);
    assert [x][1..] == [];
  }

  /** ... and leaves every find-first query that already had an answer unchanged. */
  lemma FindRowsAppend<T>(m: map<int, T>, next: int, x: T, p: T -> bool)
    requires 1 <= next && forall k :: 1 <= k < next ==> k in m
    ensures Find(Rows(m[next := x], next + 1), p)
         == if Find(Rows(m, next), p).Some? then Find(Rows(m, next), p) else if p(x) then Some(x) else None
  {
    var a := Rows(m, next);
    RowsAppend(m, next, x);
    FirstIndexAppend(a, [x], p);
    assert [x][1..] == [];
  }

  /** A dense table in which every record carries its own key as its id. */
  ghost predicate Keyed<T>(m: map<int, T>, next: int, key: T -> int) {
    Dense(m, next) && forall k :: k in m ==> key(m[k]) == k
  }

  /** Storing a record that carries the next id keeps a table keyed. */
  lemma KeyedAppend<T>(m: map<int, T>, next: int, key: T -> int, x: T)
    requires Keyed(m, next, key) && key(x) == next
    ensures Keyed(m[next := x], next + 1, key)
  {
  }

  /** Replacing a record by one with the same id keeps a table keyed. */
  lemma KeyedReplace<T>(m: map<int, T>, next: int, key: T -> int, k: int, x: T)
    requires Keyed(m, next, key) && k in m && key(x) == k
    ensures Keyed(m[k := x], next, key)
  {
  }

  /** What a filter over a table returns, stated over the table's keys. */
  lemma FilterTable<T(!new)>(m: map<int, T>, next: int, p: T -> bool, key: T -> int)
    requires Keyed(m, next, key)
    ensures var r := Filter(Rows(m, next), p);
      && (forall k :: k in m && p(m[k]) ==> m[k] in r)
      && (forall i :: 0 <= i < |r| ==> key(r[i]) in m && m[key(r[i])] == r[i] && p(r[i]))
      && (forall i, j :: 0 <= i < j < |r| ==> key(r[i]) < key(r[j]))
  {
    var rows := Rows(m, next);
    var r := Filter(rows, p);
    forall k | k in m && p(m[k]) ensures m[k] in r {
      assert rows[k - 1] == m[k];
    }
    forall i | 0 <= i < |r| ensures key(r[i]) in m && m[key(r[i])] == r[i] && p(r[i]) {
      assert r[i] in r;
      var t :| 0 <= t < |rows| && rows[t] == r[i];
    }
    var before := (a: T, b: T) => key(a) < key(b);
    assert Chain(rows, before);
    FilterKeepsChain(rows, p, before);
  }

  /** What a find-first over a table returns, stated over the table's keys. */
  lemma FindTable<T>(m: map<int, T>, next: int, p: T -> bool, key: T -> int)
    requires Keyed(m, next, key)
    ensures var r := Find(Rows(m, next), p);
      && (r.None? <==> forall k :: k in m ==> !p(m[k]))
      && (r.Some? ==> key(r.value) in m && m[key(r.value)] == r.value && p(r.value)
                      && forall k :: k in m && k < key(r.value) ==> !p(m[k]))
  {
    var rows := Rows(m, next);
    var r := Find(rows, p);
    if r.None? {
      forall k | k in m ensures !p(m[k]) {
        assert rows[k - 1] == m[k];
      }
    } else {
      var i :| 0 <= i < |rows| && rows[i] == r.value && p(rows[i]) && forall k :: 0 <= k < i ==> !p(rows[k]);
      forall k | k in m && k < key(r.value) ensures !p(m[k]) {
        assert rows[k - 1] == m[k];
      }
    }
  }

  // -------------------------------------------------- the history sort

  /** Non-decreasing timestamps. */
  ghost predicate TimeOrdered(s: seq<ChatMessage>) {
    forall i, j :: 0 <= i < j < |s| ==> s[i].timestamp <= s[j].timestamp
  }

  /** One step of the sort: `x` goes in front of the first message that is not earlier than it. */
  function InsertByTime(x: ChatMessage, s: seq<ChatMessage>): seq<ChatMessage>
    decreases |s|
  {
    if s == [] || x.timestamp <= s[0].timestamp then [x] + s
    else [s[0]] + InsertByTime(x, s[1..])
  }

  lemma {:induction false} InsertByTimePermutes(x: ChatMessage, s: seq<ChatMessage>)
    ensures multiset(InsertByTime(x, s)) == multiset(s) + multiset{x}
    decreases |s|
  {
    if s != [] && x.timestamp > s[0].timestamp {
      InsertByTimePermutes(x, s[1..]);
      assert s == [s[0]] + s[1..];
    }
  }

  /** Inserting a message no earlier than `t` among messages no earlier than `t` keeps them all no earlier than `t`. */
  lemma {:induction false} InsertByTimeKeepsBound(x: ChatMessage, s: seq<ChatMessage>, t: Timestamp)
    requires t <= x.timestamp && forall i :: 0 <= i < |s| ==> t <= s[i].timestamp
    ensures forall i :: 0 <= i < |InsertByTime(x, s)| ==> t <= InsertByTime(x, s)[i].timestamp
    decreases |s|
  {
    if s != [] && x.timestamp > s[0].timestamp {
      InsertByTimeKeepsBound(x, s[1..], t);
      assert InsertByTime(x, s) == [s[0]] + InsertByTime(x, s[1..]);
    }
  }

  lemma {:induction false} InsertByTimeOrdered(x: ChatMessage, s: seq<ChatMessage>)
    requires TimeOrdered(s)
    ensures TimeOrdered(InsertByTime(x, s))
    decreases |s|
  {
    if s != [] && x.timestamp > s[0].timestamp {
      var rest := InsertByTime(x, s[1..]);
      InsertByTimeOrdered(x, s[1..]);
      InsertByTimeKeepsBound(x, s[1..], s[0].timestamp);
      var r := InsertByTime(x, s);
      assert r == [s[0]] + rest;
      forall i, j | 0 <= i < j < |r| ensures r[i].timestamp <= r[j].timestamp {
        if i == 0 {
          assert r[j] == rest[j - 1];
        } else {
          assert r[i] == rest[i - 1] && r[j] == rest[j - 1];
        }
      }
    }
  }

  /**
   * `.sort((a, b) => a.timestamp - b.timestamp)`, which is stable: an
   * insertion sort by timestamp.
   */
  function SortByTime(s: seq<ChatMessage>): seq<ChatMessage>
    decreases |s|
  {
    if s == [] then [] else InsertByTime(s[0], SortByTime(s[1..]))
  }

  /** The sort's result is in timestamp order ... */
  lemma {:induction false} SortByTimeOrdered(s: seq<ChatMessage>)
    ensures TimeOrdered(SortByTime(s))
    decreases |s|
  {
    if s != [] {
      SortByTimeOrdered(s[1..]);
      InsertByTimeOrdered(s[0], SortByTime(s[1..]));
    }
  }

  /** ... and a permutation of its input. */
  lemma {:induction false} SortByTimePermutes(s: seq<ChatMessage>)
    ensures multiset(SortByTime(s)) == multiset(s)
    decreases |s|
  {
    if s != [] {
      SortByTimePermutes(s[1..]);
      InsertByTimePermutes(s[0], SortByTime(s[1..]));
      assert s == [s[0]] + s[1..];
    }
  }

  /** The messages stamped at moment `t`. */
  function AtTime(t: Timestamp): ChatMessage -> bool {
    (m: ChatMessage) => m.timestamp == t
  }

  lemma {:induction false} InsertByTimeStable(x: ChatMessage, s: seq<ChatMessage>, t: Timestamp)
    ensures Filter(InsertByTime(x, s), AtTime(t)) == (if x.timestamp == t then [x] else []) + Filter(s, AtTime(t))
    decreases |s|
  {
    var r := InsertByTime(x, s);
    if s == [] || x.timestamp <= s[0].timestamp {
      assert r[0] == x && r[1..] == s;
    } else {
      InsertByTimeStable(x, s[1..], t);
      assert r[0] == s[0] && r[1..] == InsertByTime(x, s[1..]);
    }
  }

  /** The sort is stable: messages with equal timestamps keep their relative order. */
  lemma {:induction false} SortByTimeStable(s: seq<ChatMessage>, t: Timestamp)
    ensures Filter(SortByTime(s), AtTime(t)) == Filter(s, AtTime(t))
    decreases |s|
  {
    if s != [] {
      SortByTimeStable(s[1..], t);
      InsertByTimeStable(s[0], SortByTime(s[1..]), t);
    }
  }

  /** Sorting messages that are already in timestamp order changes nothing. */
  lemma {:induction false} SortByTimeOfOrdered(s: seq<ChatMessage>)
    requires TimeOrdered(s)
    ensures SortByTime(s) == s
    decreases |s|
  {
    if s != [] {
      assert TimeOrdered(s[1..]);
      SortByTimeOfOrdered(s[1..]);
      assert s == [s[0]] + s[1..];
    }
  }

  /** The messages of a document. Messages without a document belong to none. */
  function InDocument(documentId: int): ChatMessage -> bool {
    (m: ChatMessage) => m.documentId == Some(documentId)
  }

  /** The history of a document: its messages out of `rows`, sorted by timestamp. */
  function History(rows: seq<ChatMessage>, documentId: int): seq<ChatMessage> {
    SortByTime(Filter(rows, InDocument(documentId)))
  }

  /** Over rows already in timestamp order, the history is the plain filter. */
  lemma HistoryOfOrdered(rows: seq<ChatMessage>, documentId: int)
    requires TimeOrdered(rows)
    ensures History(rows, documentId) == Filter(rows, InDocument(documentId))
  {
    var before := (a: ChatMessage, b: ChatMessage) => a.timestamp <= b.timestamp;
    assert Chain(rows, before);
    FilterKeepsChain(rows, InDocument(documentId), before);
    SortByTimeOfOrdered(Filter(rows, InDocument(documentId)));
  }

  /** Messages stamped in id order, listed in id order, are in timestamp order. */
  lemma StampedRowsOrdered(m: map<int, ChatMessage>, next: int, clock: Timestamp)
    requires Keyed(m, next, MessageId) && StampedInOrder(m, clock)
    ensures TimeOrdered(Rows(m, next))
  {
    var rows := Rows(m, next);
    forall i, j | 0 <= i < j < |rows| ensures rows[i].timestamp <= rows[j].timestamp {
      assert rows[i] == m[i + 1] && rows[j] == m[j + 1];
    }
  }

  /** A message stamped no earlier than the clock keeps the table stamped in order. */
  lemma StampedAppend(m: map<int, ChatMessage>, next: int, clock: Timestamp, x: ChatMessage)
    requires Keyed(m, next, MessageId) && StampedInOrder(m, clock) && clock <= x.timestamp
    ensures StampedInOrder(m[next := x], x.timestamp)
  {
  }

  /**
   * Storing a new message, stamped no earlier than every stored one, appends
   * it to the history of its own document and leaves every other history as
   * it was.
   */
  lemma HistoryAfterAppend(m: map<int, ChatMessage>, next: int, clock: Timestamp, x: ChatMessage)
    requires Keyed(m, next, MessageId) && StampedInOrder(m, clock) && clock <= x.timestamp
    ensures forall d :: History(Rows(m[next := x], next + 1), d)
                     == History(Rows(m, next), d) + (if x.documentId == Some(d) then [x] else [])
  {
    var rows := Rows(m, next);
    StampedRowsOrdered(m, next, clock);
    RowsAppend(m, next, x);
    assert TimeOrdered(rows + [x]) by {
      forall i | 0 <= i < |rows| ensures rows[i].timestamp <= x.timestamp {
        assert rows[i] == m[i + 1];
      }
    }
    forall d ensures History(rows + [x], d) == History(rows, d) + (if x.documentId == Some(d) then [x] else []) {
      HistoryOfOrdered(rows, d);
      HistoryOfOrdered(rows + [x], d);
      FilterAppend(rows, [x], InDocument(d));
      assert [x][1..] == [];
    }
  }

  /** What the history of a document holds, stated over the message table's keys. */
  lemma HistoryOfTable(m: map<int, ChatMessage>, next: int, clock: Timestamp, documentId: int)
    requires Keyed(m, next, MessageId) && StampedInOrder(m, clock)
    ensures var r := History(Rows(m, next), documentId);
      && (forall k :: k in m && m[k].documentId == Some(documentId) ==> m[k] in r)
      && (forall i :: 0 <= i < |r| ==> r[i].id in m && m[r[i].id] == r[i] && r[i].documentId == Some(documentId))
      && TimeOrdered(r)
      && (forall i, j :: 0 <= i < j < |r| ==> r[i].id < r[j].id)
  {
    StampedRowsOrdered(m, next, clock);
    HistoryOfOrdered(Rows(m, next), documentId);
    FilterTable(m, next, InDocument(documentId), MessageId);
    SortByTimeOrdered(Filter(Rows(m, next), InDocument(documentId)));
  }

  // ------------------------------------------------- the query predicates

  function UserId(u: User): int { u.id }
  function DocumentId(d: Document): int { d.id }
  function AnalysisResultId(a: AnalysisResult): int { a.id }
  function TaskId(t: Task): int { t.id }
  function MessageId(m: ChatMessage): int { m.id }

  /** Chat messages were stamped, in id order, by a clock that is now at `clock`. */
  ghost predicate StampedInOrder(m: map<int, ChatMessage>, clock: Timestamp) {
    && (forall k :: k in m ==> m[k].timestamp <= clock)
    && (forall j, k :: j in m && k in m && j <= k ==> m[j].timestamp <= m[k].timestamp)
  }

  function HasUsername(username: string): User -> bool {
    (u: User) => u.username == username
  }

  function OwnedBy(userId: int): Document -> bool {
    (d: Document) => d.userId == userId
  }

  function ResultOf(documentId: int): AnalysisResult -> bool {
    (a: AnalysisResult) => a.documentId == documentId
  }

  function TaskOf(documentId: int): Task -> bool {
    (t: Task) => t.documentId == documentId
  }

  // ------------------------------------------------------------ the store

  class MemStorage {
    var users: map<int, User>
    var documents: map<int, Document>
    var analysisResults: map<int, AnalysisResult>
    var tasks: map<int, Task>
    var chatMessages: map<int, ChatMessage>
    var currentIds: IdCounters

    /** The latest moment of the abstract clock at which the store stamped a record. */
    ghost var clock: Timestamp

    /**
     * Every table holds exactly the ids issued so far, each record under its
     * own id, and chat messages were stamped in id order by the monotone clock.
     */
    ghost predicate Valid()
      reads this
    {
      && Keyed(users, currentIds.user, UserId)
      && Keyed(documents, currentIds.document, DocumentId)
      && Keyed(analysisResults, currentIds.analysisResult, AnalysisResultId)
      && Keyed(tasks, currentIds.task, TaskId)
      && Keyed(chatMessages, currentIds.chatMessage, MessageId)
      && StampedInOrder(chatMessages, clock)
    }

    constructor ()
      ensures Valid() && clock == 0
      ensures users == map[] && documents == map[] && analysisResults == map[]
      ensures tasks == map[] && chatMessages == map[]
      ensures currentIds == IdCounters(1, 1, 1, 1, 1)
    {
      users, documents, analysisResults, tasks, chatMessages := map[], map[], map[], map[], map[];
      currentIds := IdCounters(1, 1, 1, 1, 1);
      clock := 0;
    }

    // -------------------------------------------------------------- users

    function GetUser(id: int): (r: Option<User>)
      reads this
      requires Valid()
      ensures r.Some? <==> 1 <= id < currentIds.user
      ensures r.Some? ==> r.value == users[id] && r.value.id == id
    {
      if id in users then Some(users[id]) else None
    }

    /** The earliest-created user with this username, if any. */
    function GetUserByUsername(username: string): (r: Option<User>)
      reads this
      requires Valid()
      ensures r.None? <==> forall k :: k in users ==> users[k].username != username
      ensures r.Some? ==> r.value.id in users && users[r.value.id] == r.value && r.value.username == username
      ensures r.Some? ==> forall k :: k in users && k < r.value.id ==> users[k].username != username
    {
      FindTable(users, currentIds.user, HasUsername(username), UserId);
      Find(Rows(users, currentIds.user), HasUsername(username))
    }

    method CreateUser(ins: InsertUser) returns (user: User)
      requires Valid()
      modifies this
      ensures Valid() && clock == old(clock)
      ensures user == NewUser(ins, old(currentIds.user))
      ensures forall k :: k in old(users) ==> k < user.id
      ensures users == old(users)[user.id := user]
      ensures currentIds == old(currentIds).(user := old(currentIds.user) + 1)
      ensures documents == old(documents) && analysisResults == old(analysisResults)
      ensures tasks == old(tasks) && chatMessages == old(chatMessages)
    {
      var id := currentIds.user;
      currentIds := currentIds.(user := id + 1);
      user := NewUser(ins, id);
      KeyedAppend(users, id, UserId, user);
      users := users[id := user];
    }

    // ---------------------------------------------------------- documents

    method CreateDocument(ins: InsertDocument, now: Timestamp) returns (doc: Document)
      requires Valid() && clock <= now
      modifies this
      ensures Valid() && clock == now
      ensures doc == NewDocument(ins, old(currentIds.document), now)
      ensures forall k :: k in old(documents) ==> k < doc.id
      ensures documents == old(documents)[doc.id := doc]
      ensures currentIds == old(currentIds).(document := old(currentIds.document) + 1)
      ensures users == old(users) && analysisResults == old(analysisResults)
      ensures tasks == old(tasks) && chatMessages == old(chatMessages)
      ensures forall u :: GetUserDocuments(u) == old(GetUserDocuments(u)) + (if doc.userId == u then [doc] else [])
    {
      var id := currentIds.document;
      currentIds := currentIds.(document := id + 1);
      doc := NewDocument(ins, id, now);
      forall u ensures Filter(Rows(documents[id := doc], id + 1), OwnedBy(u))
                    == Filter(Rows(documents, id), OwnedBy(u)) + (if doc.userId == u then [doc] else []) {
        FilterRowsAppend(documents, id, doc, OwnedBy(u));
      }
      KeyedAppend(documents, id, DocumentId, doc);
      documents := documents[id := doc];
      clock := now;
    }

    function GetDocument(id: int): (r: Option<Document>)
      reads this
      requires Valid()
      ensures r.Some? <==> 1 <= id < currentIds.document
      ensures r.Some? ==> r.value == documents[id] && r.value.id == id
    {
      if id in documents then Some(documents[id]) else None
    }

    /** Exactly the documents of `userId`, in creation order. */
    function GetUserDocuments(userId: int): (r: seq<Document>)
      reads this
      requires Valid()
      ensures forall k :: k in documents && documents[k].userId == userId ==> documents[k] in r
      ensures forall i :: 0 <= i < |r| ==> r[i].id in documents && documents[r[i].id] == r[i] && r[i].userId == userId
      ensures forall i, j :: 0 <= i < j < |r| ==> r[i].id < r[j].id
    {
      FilterTable(documents, currentIds.document, OwnedBy(userId), DocumentId);
      var r := Filter(Rows(documents, currentIds.document), OwnedBy(userId));
      assert forall i :: 0 <= i < |r| ==> OwnedBy(userId)(r[i]) ==> r[i].userId == userId;
      r
    }

    // ----------------------------------------------------- analysis results

    method CreateAnalysisResult(ins: InsertAnalysisResult, now: Timestamp) returns (result: AnalysisResult)
      requires Valid() && clock <= now
      modifies this
      ensures Valid() && clock == now
      ensures result == NewAnalysisResult(ins, old(currentIds.analysisResult), now)
      ensures forall k :: k in old(analysisResults) ==> k < result.id
      ensures analysisResults == old(analysisResults)[result.id := result]
      ensures currentIds == old(currentIds).(analysisResult := old(currentIds.analysisResult) + 1)
      ensures users == old(users) && documents == old(documents)
      ensures tasks == old(tasks) && chatMessages == old(chatMessages)
      ensures forall d :: GetDocumentAnalysisResult(d)
                       == if old(GetDocumentAnalysisResult(d)).Some? || d != ins.documentId
                          then old(GetDocumentAnalysisResult(d)) else Some(result)
    {
      var id := currentIds.analysisResult;
      currentIds := currentIds.(analysisResult := id + 1);
      result := NewAnalysisResult(ins, id, now);
      forall d ensures Find(Rows(analysisResults[id := result], id + 1), ResultOf(d))
                    == if Find(Rows(analysisResults, id), ResultOf(d)).Some?
                       then Find(Rows(analysisResults, id), ResultOf(d))
                       else if result.documentId == d then Some(result) else None {
        FindRowsAppend(analysisResults, id, result, ResultOf(d));
      }
      KeyedAppend(analysisResults, id, AnalysisResultId, result);
      analysisResults := analysisResults[id := result];
      clock := now;
    }

    function GetAnalysisResult(id: int): (r: Option<AnalysisResult>)
      reads this
      requires Valid()
      ensures r.Some? <==> 1 <= id < currentIds.analysisResult
      ensures r.Some? ==> r.value == analysisResults[id] && r.value.id == id
    {
      if id in analysisResults then Some(analysisResults[id]) else None
    }

    /**
     * The earliest-created analysis result of document `documentId`, if any.
     * The store does not keep results unique per document.
     */
    function GetDocumentAnalysisResult(documentId: int): (r: Option<AnalysisResult>)
      reads this
      requires Valid()
      ensures r.None? <==> forall k :: k in analysisResults ==> analysisResults[k].documentId != documentId
      ensures r.Some? ==> r.value.id in analysisResults && analysisResults[r.value.id] == r.value
      ensures r.Some? ==> r.value.documentId == documentId
      ensures r.Some? ==> forall k :: k in analysisResults && k < r.value.id ==> analysisResults[k].documentId != documentId
    {
      FindTable(analysisResults, currentIds.analysisResult, ResultOf(documentId), AnalysisResultId);
      Find(Rows(analysisResults, currentIds.analysisResult), ResultOf(documentId))
    }

    // -------------------------------------------------------------- tasks

    method CreateTask(ins: InsertTask, now: Timestamp) returns (task: Task)
      requires Valid() && clock <= now
      modifies this
      ensures Valid() && clock == now
      ensures task == NewTask(ins, old(currentIds.task), now)
      ensures forall k :: k in old(tasks) ==> k < task.id
      ensures tasks == old(tasks)[task.id := task]
      ensures currentIds == old(currentIds).(task := old(currentIds.task) + 1)
      ensures users == old(users) && documents == old(documents)
      ensures analysisResults == old(analysisResults) && chatMessages == old(chatMessages)
      ensures forall d :: GetDocumentTasks(d) == old(GetDocumentTasks(d)) + (if task.documentId == d then [task] else [])
    {
      var id := currentIds.task;
      currentIds := currentIds.(task := id + 1);
      task := NewTask(ins, id, now);
      forall d ensures Filter(Rows(tasks[id := task], id + 1), TaskOf(d))
                    == Filter(Rows(tasks, id), TaskOf(d)) + (if task.documentId == d then [task] else []) {
        FilterRowsAppend(tasks, id, task, TaskOf(d));
      }
      KeyedAppend(tasks, id, TaskId, task);
      tasks := tasks[id := task];
      clock := now;
    }

    function GetTask(id: int): (r: Option<Task>)
      reads this
      requires Valid()
      ensures r.Some? <==> 1 <= id < currentIds.task
      ensures r.Some? ==> r.value == tasks[id] && r.value.id == id
    {
      if id in tasks then Some(tasks[id]) else None
    }

    /** Exactly the tasks of document `documentId`, in creation order. */
    function GetDocumentTasks(documentId: int): (r: seq<Task>)
      reads this
      requires Valid()
      ensures forall k :: k in tasks && tasks[k].documentId == documentId ==> tasks[k] in r
      ensures forall i :: 0 <= i < |r| ==> r[i].id in tasks && tasks[r[i].id] == r[i] && r[i].documentId == documentId
      ensures forall i, j :: 0 <= i < j < |r| ==> r[i].id < r[j].id
    {
      FilterTable(tasks, currentIds.task, TaskOf(documentId), TaskId);
      var r := Filter(Rows(tasks, currentIds.task), TaskOf(documentId));
      assert forall i :: 0 <= i < |r| ==> TaskOf(documentId)(r[i]) ==> r[i].documentId == documentId;
      r
    }

    /**
     * A missing id changes nothing; otherwise the given fields replace the
     * stored ones and no other task is touched.
     */
    method UpdateTask(id: int, update: TaskUpdate) returns (r: Option<Task>)
      requires Valid()
      modifies this
      ensures Valid() && clock == old(clock)
      ensures id !in old(tasks) ==> r == None && tasks == old(tasks)
      ensures id in old(tasks) ==> r == Some(ApplyTaskUpdate(old(tasks)[id], update)) && tasks == old(tasks)[id := r.value]
      ensures currentIds == old(currentIds) && users == old(users) && documents == old(documents)
      ensures analysisResults == old(analysisResults) && chatMessages == old(chatMessages)
    {
      if id !in tasks {
        return None;
      }
      var updated := ApplyTaskUpdate(tasks[id], update);
      KeyedReplace(tasks, currentIds.task, TaskId, id, updated);
      tasks := tasks[id := updated];
      r := Some(updated);
    }

    // ------------------------------------------------------ chat messages

    method CreateChatMessage(ins: InsertChatMessage, now: Timestamp) returns (message: ChatMessage)
      requires Valid() && clock <= now
      modifies this
      ensures Valid() && clock == now
      ensures message == NewChatMessage(ins, old(currentIds.chatMessage), now)
      ensures forall k :: k in old(chatMessages) ==> k < message.id
      ensures chatMessages == old(chatMessages)[message.id := message]
      ensures currentIds == old(currentIds).(chatMessage := old(currentIds.chatMessage) + 1)
      ensures users == old(users) && documents == old(documents)
      ensures analysisResults == old(analysisResults) && tasks == old(tasks)
      ensures forall d :: History(ChatLog(), d) == History(old(ChatLog()), d) + (if ins.documentId == Some(d) then [message] else [])
    {
      var id := currentIds.chatMessage;
      message := NewChatMessage(ins, id, now);
      HistoryAfterAppend(chatMessages, id, clock, message);
      StampedAppend(chatMessages, id, clock, message);
      KeyedAppend(chatMessages, id, MessageId, message);
      currentIds := currentIds.(chatMessage := id + 1);
      chatMessages := chatMessages[id := message];
      clock := now;
    }

    /** The message table in insertion order. */
    function ChatLog(): seq<ChatMessage>
      reads this
      requires Valid()
    {
      Rows(chatMessages, currentIds.chatMessage)
    }

    /**
     * `History(ChatLog(), documentId)`: exactly the messages of document
     * `documentId`, in non-decreasing
     * timestamp order, and (since the sort is stable and the clock monotone)
     * in creation order.
     */
    function GetDocumentChatMessages(documentId: int): (r: seq<ChatMessage>)
      reads this
      requires Valid()
      ensures forall k :: k in chatMessages && chatMessages[k].documentId == Some(documentId) ==> chatMessages[k] in r
      ensures forall i :: 0 <= i < |r| ==>
                r[i].id in chatMessages && chatMessages[r[i].id] == r[i] && r[i].documentId == Some(documentId)
      ensures TimeOrdered(r)
      ensures forall i, j :: 0 <= i < j < |r| ==> r[i].id < r[j].id
    {
      HistoryOfTable(chatMessages, currentIds.chatMessage, clock, documentId);
      History(ChatLog(), documentId)
    }
  }
}
