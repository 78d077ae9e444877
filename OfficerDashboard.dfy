/** The officer's query console: a list of farmer queries that can be
    filtered by status and searched by text, answered one reply at a time,
    and summarised by three counters and two colour badges. */
module OfficerDashboard {
  import opened Wrappers
  import opened Text

  datatype Farmer = Farmer(id: string, fullName: string, email: string, location: string)

  datatype Reply = Reply(
    id: int,
    officerId: string,
    officerName: string,
    responseText: string,
    createdAt: string)

  /** A query as the console holds it. `status` and `urgency` are whatever
      strings the data carries; `replies` may be absent. */
  datatype Query = Query(
    id: int,
    farmerId: string,
    queryText: string,
    imageUrl: Option<string>,
    status: string,
    urgency: string,
    createdAt: string,
    farmer: Farmer,
    replies: Option<seq<Reply>>)

  const ALL := "all"
  const PENDING := "pending"
  const ANSWERED := "answered"
  const IN_PROGRESS := "in_progress"
  const HIGH := "high"
  const MEDIUM := "medium"
  const LOW := "low"

  /** The officer every reply is signed with. */
  const OFFICER_ID := "officer_001"
  const OFFICER_NAME := "Dr. Priya Sharma"

  // ---------------------------------------------------------------------------
  // Filtering

  predicate MatchesFilter(q: Query, filter: string) {
    filter == ALL || q.status == filter
  }

  /** Case-insensitive substring search over the query text and the farmer's name. */
  predicate MatchesSearch(q: Query, term: string) {
    Includes(Lower(q.queryText), Lower(term)) || Includes(Lower(q.farmer.fullName), Lower(term))
  }

  predicate Shown(q: Query, filter: string, term: string) {
    MatchesFilter(q, filter) && MatchesSearch(q, term)
  }

  /** `a` can be obtained from `b` by deleting elements, keeping the order. */
  ghost predicate IsSubsequence<T>(a: seq<T>, b: seq<T>)
    decreases |b|
  {
    if a == [] then true
    else if b == [] then false
    else (a[0] == b[0] && IsSubsequence(a[1..], b[1..])) || IsSubsequence(a, b[1..])
  }

  /** The queries the console lists: those passing both the status filter and
      the search, in their original order and with every copy kept. */
  function FilterQueries(qs: seq<Query>, filter: string, term: string): (r: seq<Query>)
    ensures IsSubsequence(r, qs)
    ensures forall q :: q in r <==> q in qs && Shown(q, filter, term)
    ensures forall q :: multiset(r)[q] == if Shown(q, filter, term) then multiset(qs)[q] else 0
  {
    if qs == [] then []
    else
      assert qs == [qs[0]] + qs[1..];
      if Shown(qs[0], filter, term) then [qs[0]] + FilterQueries(qs[1..], filter, term)
      else
        var rest := FilterQueries(qs[1..], filter, term);
        assert rest != [] ==> IsSubsequence(rest, qs[1..]);
        rest
  }

  /** With status "all" and an empty search box every query is listed. */
  lemma {:induction false} FilterAllEmptyIsIdentity(qs: seq<Query>)
    ensures FilterQueries(qs, ALL, "") == qs
  {
    if qs != [] {
      assert Includes(Lower(qs[0].queryText), Lower(""));
      FilterAllEmptyIsIdentity(qs[1..]);
      assert qs == [qs[0]] + qs[1..];
    }
  }

  /** The search ignores the case of the term. */
  lemma SearchIgnoresTermCase(q: Query, term: string)
    ensures MatchesSearch(q, Lower(term)) == MatchesSearch(q, term)
  {
    LowerIdempotent(term);
  }

  // ---------------------------------------------------------------------------
  // Counters

  /** The two columns the counters count by. */
  datatype Column = Status | Urgency

  function ValueOf(q: Query, column: Column): string {
    match column
    case Status => q.status
    case Urgency => q.urgency
  }

  /** How many queries hold `value` in `column`. */
  function Count(qs: seq<Query>, column: Column, value: string): (n: nat)
    ensures n <= |qs|
    ensures n == 0 <==> forall i :: 0 <= i < |qs| ==> ValueOf(qs[i], column) != value
  {
    if qs == [] then 0
    else (if ValueOf(qs[0], column) == value then 1 else 0) + Count(qs[1..], column, value)
  }

  function PendingCount(qs: seq<Query>): (n: nat)
    ensures n == 0 <==> forall i :: 0 <= i < |qs| ==> qs[i].status != PENDING
  {
    Count(qs, Status, PENDING)
  }

  function AnsweredCount(qs: seq<Query>): (n: nat)
    ensures n == 0 <==> forall i :: 0 <= i < |qs| ==> qs[i].status != ANSWERED
  {
    Count(qs, Status, ANSWERED)
  }

  function HighPriorityCount(qs: seq<Query>): (n: nat)
    ensures n == 0 <==> forall i :: 0 <= i < |qs| ==> qs[i].urgency != HIGH
  {
    Count(qs, Urgency, HIGH)
  }

  /** Two different statuses never count the same query twice. */
  lemma {:induction false} CountersBounded(qs: seq<Query>)
    ensures PendingCount(qs) + AnsweredCount(qs) <= |qs|
    ensures HighPriorityCount(qs) <= |qs|
  {
    if qs != [] {
      CountersBounded(qs[1..]);
    }
  }

  /** Selecting a status (other than "all") with an empty search lists exactly
      as many queries as that status's counter shows. */
  lemma {:induction false} FilterByStatusMatchesCounter(qs: seq<Query>, status: string)
    requires status != ALL
    ensures |FilterQueries(qs, status, "")| == Count(qs, Status, status)
  {
    if qs != [] {
      assert Includes(Lower(qs[0].queryText), Lower(""));
      FilterByStatusMatchesCounter(qs[1..], status);
    }
  }

  // ---------------------------------------------------------------------------
  // Replying

  /** `query.replies || []`. */
  function RepliesOf(q: Query): seq<Reply> {
    match q.replies
    case Some(rs) => rs
    case None => []
  }

  /** The query after `reply` is appended to it. */
  function Answered(q: Query, reply: Reply): (a: Query)
    ensures RepliesOf(a) == RepliesOf(q) + [reply]
    ensures a.status == ANSWERED
    ensures a == q.(replies := a.replies, status := ANSWERED)
  {
    q.(replies := Some(RepliesOf(q) + [reply]), status := ANSWERED)
  }

  /** The list after a reply to `queryId`: every query with that id is answered,
      every other query is left exactly as it was, and order and length are kept. */
  function WithReply(qs: seq<Query>, queryId: int, reply: Reply): (r: seq<Query>)
    ensures |r| == |qs|
    ensures forall i :: 0 <= i < |qs| && qs[i].id != queryId ==> r[i] == qs[i]
    ensures forall i :: 0 <= i < |qs| && qs[i].id == queryId ==> r[i] == Answered(qs[i], reply)
  {
    if qs == [] then []
    else
      [if qs[0].id == queryId then Answered(qs[0], reply) else qs[0]]
      + WithReply(qs[1..], queryId, reply)
  }

  /** A reply to an id that is not in the list leaves the list as it was. */
  lemma WithReplyAbsentId(qs: seq<Query>, queryId: int, reply: Reply)
    requires forall i :: 0 <= i < |qs| ==> qs[i].id != queryId
    ensures WithReply(qs, queryId, reply) == qs
  {
  }

  predicate UniqueIds(qs: seq<Query>) {
    forall i, j :: 0 <= i < j < |qs| ==> qs[i].id != qs[j].id
  }

  /** Replying to the first query, when no other query carries its id. */
  lemma ReplyAtHead(qs: seq<Query>, queryId: int, reply: Reply, status: string)
    requires qs != [] && qs[0].id == queryId
    requires forall i :: 1 <= i < |qs| ==> qs[i].id != queryId
    ensures Count(WithReply(qs, queryId, reply), Status, status)
         == Count(qs, Status, status) - (if qs[0].status == status then 1 else 0)
            + (if status == ANSWERED then 1 else 0)
  {
    var tail := qs[1..];
    WithReplyAbsentId(tail, queryId, reply);
    assert WithReply(qs, queryId, reply) == [Answered(qs[0], reply)] + tail;
  }

  /** When only the query at index `k` carries `queryId`, replying to it takes
      it out of its old status and puts it into "answered"; every other query
      keeps its status. */
  lemma {:induction false} ReplyCountStatus(qs: seq<Query>, queryId: int, reply: Reply, k: int, status: string)
    requires 0 <= k < |qs| && qs[k].id == queryId
    requires forall i :: 0 <= i < |qs| && i != k ==> qs[i].id != queryId
    ensures Count(WithReply(qs, queryId, reply), Status, status)
         == Count(qs, Status, status) - (if qs[k].status == status then 1 else 0)
            + (if status == ANSWERED then 1 else 0)
  {
    if k == 0 {
      ReplyAtHead(qs, queryId, reply, status);
    } else {
      var tail := qs[1..];
      assert WithReply(qs, queryId, reply) == [qs[0]] + WithReply(tail, queryId, reply);
      ReplyCountStatus(tail, queryId, reply, k - 1, status);
    }
  }

  /** A reply changes no query's urgency. */
  lemma {:induction false} ReplyKeepsUrgency(qs: seq<Query>, queryId: int, reply: Reply, urgency: string)
    ensures Count(WithReply(qs, queryId, reply), Urgency, urgency) == Count(qs, Urgency, urgency)
  {
    if qs != [] {
      var r := WithReply(qs, queryId, reply);
      assert r[1..] == WithReply(qs[1..], queryId, reply);
      ReplyKeepsUrgency(qs[1..], queryId, reply, urgency);
    }
  }

  /** With unique ids, replying to the query at index `k` moves it out of its
      old status into "answered" and leaves the high-priority count alone. */
  lemma ReplyShiftsCounters(qs: seq<Query>, queryId: int, reply: Reply, k: int)
    requires UniqueIds(qs)
    requires 0 <= k < |qs| && qs[k].id == queryId
    ensures PendingCount(WithReply(qs, queryId, reply))
         == PendingCount(qs) - (if qs[k].status == PENDING then 1 else 0)
    ensures AnsweredCount(WithReply(qs, queryId, reply))
         == AnsweredCount(qs) + (if qs[k].status == ANSWERED then 0 else 1)
    ensures HighPriorityCount(WithReply(qs, queryId, reply)) == HighPriorityCount(qs)
  {
    ReplyCountStatus(qs, queryId, reply, k, PENDING);
    ReplyCountStatus(qs, queryId, reply, k, ANSWERED);
    ReplyKeepsUrgency(qs, queryId, reply, HIGH);
  }

  /** The dashboard's headline case: answering a pending query moves one query
      from the pending counter to the answered counter. */
  lemma ReplyToPendingMovesCounters(qs: seq<Query>, queryId: int, reply: Reply, k: int)
    requires UniqueIds(qs)
    requires 0 <= k < |qs| && qs[k].id == queryId && qs[k].status == PENDING
    ensures PendingCount(WithReply(qs, queryId, reply)) == PendingCount(qs) - 1
    ensures AnsweredCount(WithReply(qs, queryId, reply)) == AnsweredCount(qs) + 1
  {
    ReplyShiftsCounters(qs, queryId, reply, k);
  }

  /** `replyText[queryId]?.trim()`, or None when it is missing or blank. */
  function DraftText(replyText: map<int, string>, queryId: int): (t: Option<string>)
    ensures t.Some? <==> queryId in replyText && !AllWhitespace(replyText[queryId])
    ensures t.Some? ==> t.value == Trim(replyText[queryId]) && t.value != ""
  {
    if queryId !in replyText then None
    else
      TrimEmptyIff(replyText[queryId]);
      var text := Trim(replyText[queryId]);
      if text == "" then None else Some(text)
  }

  /** The reply the console creates; `now` and `timestamp` stand for the clock. */
  function NewReply(now: int, timestamp: string, text: string): (r: Reply)
    ensures r.officerId == OFFICER_ID && r.officerName == OFFICER_NAME
    ensures r.responseText == text && r.id == now && r.createdAt == timestamp
  {
    Reply(now, OFFICER_ID, OFFICER_NAME, text, timestamp)
  }

  // ---------------------------------------------------------------------------
  // Badges

  const GRAY := "text-gray-600 bg-gray-100"

  function StatusColor(status: string): (c: string)
    ensures c == GRAY <==> status !in {PENDING, ANSWERED, IN_PROGRESS}
  {
    match status
    case "pending" => "text-yellow-600 bg-yellow-100"
    case "answered" => "text-green-600 bg-green-100"
    case "in_progress" => "text-blue-600 bg-blue-100"
    case _ => GRAY
  }

  function UrgencyColor(urgency: string): (c: string)
    ensures c == GRAY <==> urgency !in {HIGH, MEDIUM, LOW}
  {
    match urgency
    case "high" => "text-red-600 bg-red-100"
    case "medium" => "text-yellow-600 bg-yellow-100"
    case "low" => "text-green-600 bg-green-100"
    case _ => GRAY
  }

  /** The three known statuses get badges that tell them apart. */
  lemma StatusColorDistinct(s: string, t: string)
    ensures s in {PENDING, ANSWERED, IN_PROGRESS} && StatusColor(s) == StatusColor(t) ==> s == t
  {
  }

  /** The three known urgencies get badges that tell them apart. */
  lemma UrgencyColorDistinct(u: string, v: string)
    ensures u in {HIGH, MEDIUM, LOW} && UrgencyColor(u) == UrgencyColor(v) ==> u == v
  {
  }

  // ---------------------------------------------------------------------------
  // The console's state

  class OfficerConsole {
    var queries: seq<Query>
    /** Draft reply per query id. */
    var replyText: map<int, string>
    var filter: string
    var searchTerm: string
    /** Whether a reply is being sent, per query id; a missing id means false. */
    var isReplying: map<int, bool>

    /** The console starts on the given seed list, with no drafts, status
        filter "all" and an empty search. */
    constructor (initial: seq<Query>)
      ensures queries == initial && replyText == map[] && isReplying == map[]
      ensures filter == ALL && searchTerm == ""
    {
      queries := initial;
      replyText := map[];
      filter := ALL;
      searchTerm := "";
      isReplying := map[];
    }

    /** The listing the console shows, whose length heads it: everything
        under "all" with an empty search, and as many queries as the
        selected status's counter shows when only a status is chosen. */
    function FilteredQueries(): (r: seq<Query>)
      reads this
      ensures forall q :: q in r <==> q in queries && Shown(q, filter, searchTerm)
      ensures filter == ALL && searchTerm == "" ==> r == queries
      ensures filter != ALL && searchTerm == "" ==> |r| == Count(queries, Status, filter)
    {
      FilterAllEmptyIsIdentity(queries);
      assert filter != ALL ==> |FilterQueries(queries, filter, "")| == Count(queries, Status, filter) by {
        if filter != ALL {
          FilterByStatusMatchesCounter(queries, filter);
        }
      }
      FilterQueries(queries, filter, searchTerm)
    }

    function Replying(queryId: int): bool
      reads this
    {
      queryId in isReplying && isReplying[queryId]
    }

    /** The send button of query `queryId` is enabled. */
    function CanSend(queryId: int): (b: bool)
      reads this
      ensures b <==> queryId in replyText && !AllWhitespace(replyText[queryId]) && !Replying(queryId)
    {
      DraftText(replyText, queryId).Some? && !Replying(queryId)
    }

    method SetFilter(f: string)
      modifies this`filter
      ensures filter == f
    {
      filter := f;
    }

    method SetSearchTerm(t: string)
      modifies this`searchTerm
      ensures searchTerm == t
    {
      searchTerm := t;
    }

    /** Typing into (or picking a template for) the reply box of one query. */
    method EditReply(queryId: int, text: string)
      modifies this`replyText
      ensures replyText == old(replyText)[queryId := text]
    {
      replyText := replyText[queryId := text];
    }

    /** Sends the draft for `queryId`. A missing or blank draft changes nothing;
        otherwise the trimmed draft is appended as a reply to the matching
        query, which becomes "answered", the draft is cleared and the sending
        flag is false again. */
    method SubmitReply(queryId: int, now: int, timestamp: string)
      modifies this`queries, this`replyText, this`isReplying
      ensures DraftText(old(replyText), queryId).None? ==>
        queries == old(queries) && replyText == old(replyText) && isReplying == old(isReplying)
      ensures DraftText(old(replyText), queryId).Some? ==>
        && queries == WithReply(old(queries), queryId,
                                NewReply(now, timestamp, DraftText(old(replyText), queryId).value))
        && replyText == old(replyText)[queryId := ""]
        && isReplying == old(isReplying)[queryId := false]
    {
      var text := DraftText(replyText, queryId);
      if text.Some? {
        isReplying := isReplying[queryId := true];
        queries := WithReply(queries, queryId, NewReply(now, timestamp, text.value));
        replyText := replyText[queryId := ""];
        isReplying := isReplying[queryId := false];
      }
    }
  }
}
