/** Reading one table from all nodes (ListAll, HandleQuery and HandleQueryResponse in
    internal/service/ticket_service.go).

    A query goes to every peer believed alive and a collector gathers the answers; how many answers are
    still expected is corrected, while answers already arrive, for the peers that could not be reached. */
module Query {
  import opened Common
  import opened Database
  import opened Sharding

  // ---- the tag that routes an answer to its query ------------------------------------------------

  function Tag(queryID: string, table: string): string {
    queryID + "|" + table
  }

  /** The part before the first bar and the part after it; without a bar there is no query ID. */
  function Split(raw: string): (r: (string, string))
    ensures '|' in raw ==> '|' !in r.0 && raw == Tag(r.0, r.1)
    ensures '|' !in raw ==> r == ("", raw)
  {
    SplitFrom(raw, 0)
  }

  function SplitFrom(raw: string, i: nat): (r: (string, string))
    requires i <= |raw| && '|' !in raw[..i]
    ensures '|' in raw ==> '|' !in r.0 && raw == Tag(r.0, r.1)
    ensures '|' !in raw ==> r == ("", raw)
    decreases |raw| - i
  {
    if i == |raw| then assert raw[..i] == raw; ("", raw)
    else if raw[i] == '|' then assert raw == Tag(raw[..i], raw[i + 1..]); (raw[..i], raw[i + 1..])
    else assert raw[..i + 1] == raw[..i] + [raw[i]]; SplitFrom(raw, i + 1)
  }

  method SplitQueryID(raw: string) returns (queryID: string, table: string)
    ensures (queryID, table) == Split(raw)
  {
    for i := 0 to |raw|
      invariant '|' !in raw[..i]
      invariant Split(raw) == SplitFrom(raw, i)
    {
      if raw[i] == '|' {
        return raw[..i], raw[i + 1..];
      }
      assert raw[..i + 1] == raw[..i] + [raw[i]];
    }
    return "", raw;
  }

  /** What a query is tagged with is found again exactly for query IDs without a bar. */
  lemma TagRoundTrip(queryID: string, table: string)
    ensures Split(Tag(queryID, table)) == (queryID, table) <==> '|' !in queryID
  {
    var raw := Tag(queryID, table);
    assert raw[|queryID|] == '|';
    if '|' !in queryID {
      var r := Split(raw);
      assert raw[|r.0|] == '|';
      assert forall i :: 0 <= i < |queryID| ==> raw[i] == queryID[i] && queryID[i] in queryID;
      assert forall i :: 0 <= i < |r.0| ==> raw[i] == r.0[i] && r.0[i] in r.0;
      assert |r.0| == |queryID|;
      assert r.0 == raw[..|queryID|] == queryID && r.1 == raw[|queryID| + 1..] == table;
    }
  }

  // ---- the collector -----------------------------------------------------------------------------

  datatype Response = Response(tag: string, rows: seq<Row>, node: int)

  /** `closes` counts how often the channel that ListAll waits on has been closed; a second time would be
      a panic. */
  datatype Collector = Collector(table: string, expected: int, results: seq<Response>, closes: nat)

  function CloseIfEnough(col: Collector): Collector {
    if |col.results| >= col.expected && col.closes == 0 then col.(closes := 1) else col
  }

  function AddResponse(col: Collector, r: Response): Collector {
    CloseIfEnough(col.(results := col.results + [r]))
  }

  function Shrink(col: Collector, failures: nat): Collector {
    if failures > 0 then CloseIfEnough(col.(expected := col.expected - failures)) else col
  }

  function Flatten(results: seq<Response>): seq<Row> {
    if results == [] then [] else Flatten(results[..|results| - 1]) + results[|results| - 1].rows
  }

  class Service {
    var queryWait: map<string, Collector>

    constructor ()
      ensures queryWait == map[]
    {
      queryWait := map[];
    }

    method OpenQuery(queryID: string, table: string, peers: nat)
      modifies this
      ensures queryWait == old(queryWait)[queryID := Collector(table, peers, [], 0)]
    {
      queryWait := queryWait[queryID := Collector(table, peers, [], 0)];
    }

    /** Only called when some sends have failed. */
    method AdjustExpected(queryID: string, failures: nat)
      requires queryID in queryWait && failures > 0
      modifies this
      ensures queryWait == old(queryWait)[queryID := Shrink(old(queryWait)[queryID], failures)]
    {
      var col := queryWait[queryID];
      col := col.(expected := col.expected - failures);
      if |col.results| >= col.expected {
        if col.closes == 0 {
          col := col.(closes := col.closes + 1);
        }
      }
      queryWait := queryWait[queryID := col];
    }

    method HandleQueryResponse(r: Response)
      modifies this
      ensures var q := Split(r.tag).0;
              queryWait == if q in old(queryWait) then old(queryWait)[q := AddResponse(old(queryWait)[q], r)]
                           else old(queryWait)
    {
      var queryID, _ := SplitQueryID(r.tag);
      if queryID in queryWait {
        var col := queryWait[queryID];
        col := col.(results := col.results + [r]);
        if |col.results| >= col.expected {
          if col.closes == 0 {
            col := col.(closes := col.closes + 1);
          }
        }
        queryWait := queryWait[queryID := col];
      }
    }

    method MergeResults(queryID: string, local: seq<Row>) returns (all: seq<Row>)
      requires queryID in queryWait
      ensures all == local + Flatten(queryWait[queryID].results)
    {
      all := local;
      var results := queryWait[queryID].results;
      for i := 0 to |results|
        invariant all == local + Flatten(results[..i])
      {
        all := all + results[i].rows;
        assert results[..i + 1][..i] == results[..i];
      }
      assert results[..|results|] == results;
    }

    method ForgetQuery(queryID: string)
      modifies this
      ensures queryWait == old(queryWait) - {queryID}
    {
      queryWait := queryWait - {queryID};
    }
  }

  // ---- queries in a cluster ----------------------------------------------------------------------

  datatype Stage =
    | Sending        // QUERYs go out; answers may already come back
    | Collecting     // expected has been adjusted and the local rows read
    | Complete       // ended by the collector
    | TimedOut       // ended by the clock, with what had arrived
    | Aborted        // ended by an error on the local rows, or by cancellation while it waits

  /** `answers` is what each peer's handler has read and `got` the peers whose answers have arrived. */
  datatype Ask = Ask(
    requester: int,
    peers: set<int>,
    unsent: set<int>,
    failed: set<int>,
    col: Collector,
    stage: Stage,
    local: seq<Row>,
    result: seq<Row>,
    answers: map<int, seq<Row>>,
    got: seq<int>)

  datatype Msg =
    | QueryMsg(tag: string, requester: int, to: int)
    | ResponseMsg(tag: string, from: int, to: int, rows: seq<Row>)

  datatype System = System(asks: map<string, Ask>, msgs: multiset<Msg>)

  datatype Event =
    | Open(queryID: string, requester: int, table: string, peers: set<int>)
    | SendQuery(queryID: string, to: int, sent: bool)
    | Adjust(queryID: string, local: seq<Row>)
    | GetQuery(tag: string, requester: int, to: int, rows: seq<Row>, answered: bool)
    | GetResponse(tag: string, from: int, to: int, rows: seq<Row>)
    | Finish(queryID: string)
    | TimeOut(queryID: string)
    | Abort(queryID: string)

  /** The query an event is about; messages are routed by their tag. */
  function QueryOf(ev: Event): string {
    match ev
    case GetQuery(tag, _, _, _, _) => Split(tag).0
    case GetResponse(tag, _, _, _) => Split(tag).0
    case _ => ev.queryID
  }

  predicate IsOpen(a: Ask) {
    a.stage == Sending || a.stage == Collecting
  }

  predicate At(s: System, q: string, stage: Stage) {
    q in s.asks && s.asks[q].stage == stage
  }

  /** Query IDs are fresh and, being built from a table name and two numbers, have no bar. */
  predicate Enabled(s: System, ev: Event) {
    match ev
    case Open(q, requester, _, peers) => q !in s.asks && '|' !in q && requester !in peers
    case SendQuery(q, to, _) => At(s, q, Sending) && to in s.asks[q].unsent
    case Adjust(q, _) => At(s, q, Sending) && s.asks[q].unsent == {}
    case GetQuery(tag, requester, to, _, _) => QueryMsg(tag, requester, to) in s.msgs
    case GetResponse(tag, from, to, rows) => ResponseMsg(tag, from, to, rows) in s.msgs
    case Finish(q) => At(s, q, Collecting) && (s.asks[q].peers == {} || s.asks[q].col.closes > 0)
    case TimeOut(q) => At(s, q, Collecting) && s.asks[q].peers != {}
    case Abort(q) => (At(s, q, Sending) && s.asks[q].unsent == {}) || (At(s, q, Collecting) && s.asks[q].peers != {})
  }

  /** What an event makes of its own query. */
  function Progress(a: Ask, ev: Event): Ask {
    match ev
    case SendQuery(_, to, sent) => a.(unsent := a.unsent - {to}, failed := if sent then a.failed else a.failed + {to})
    case Adjust(_, local) => a.(col := Shrink(a.col, |a.failed|), local := local, stage := Collecting)
    case GetQuery(_, _, to, rows, answered) => if answered then a.(answers := a.answers[to := rows]) else a
    case GetResponse(tag, from, to, rows) =>
      if IsOpen(a) && a.requester == to
      then a.(col := AddResponse(a.col, Response(tag, rows, from)), got := a.got + [from]) else a
    case Finish(_) => a.(result := a.local + Flatten(a.col.results), stage := Complete)
    case TimeOut(_) => a.(result := a.local + Flatten(a.col.results), stage := TimedOut)
    case Abort(_) => a.(stage := Aborted)
    case Open(_, _, _, _) => a
  }

  function NextAsks(s: System, ev: Event): map<string, Ask>
    requires Enabled(s, ev)
  {
    var q := QueryOf(ev);
    if ev.Open? then
      s.asks[q := Ask(ev.requester, ev.peers, ev.peers, {}, Collector(ev.table, |ev.peers|, [], 0),
                      Sending, [], [], map[], [])]
    else if q in s.asks then s.asks[q := Progress(s.asks[q], ev)]
    else s.asks
  }

  function Produced(s: System, ev: Event): multiset<Msg>
    requires Enabled(s, ev)
  {
    match ev
    case SendQuery(q, to, sent) =>
      if sent then multiset{QueryMsg(Tag(q, s.asks[q].col.table), s.asks[q].requester, to)} else multiset{}
    case GetQuery(tag, requester, to, rows, answered) =>
      // the responder takes the tag apart and puts it together again
      if answered then multiset{ResponseMsg(Tag(Split(tag).0, Split(tag).1), to, requester, rows)} else multiset{}
    case _ => multiset{}
  }

  function Consumed(ev: Event): multiset<Msg> {
    match ev
    case GetQuery(tag, requester, to, _, _) => multiset{QueryMsg(tag, requester, to)}
    case GetResponse(tag, from, to, rows) => multiset{ResponseMsg(tag, from, to, rows)}
    case _ => multiset{}
  }

  function Next(s: System, ev: Event): System
    requires Enabled(s, ev)
  {
    System(NextAsks(s, ev), s.msgs - Consumed(ev) + Produced(s, ev))
  }

  predicate Legal(s: System, evs: seq<Event>)
    decreases |evs|
  {
    evs == [] || (Enabled(s, evs[0]) && Legal(Next(s, evs[0]), evs[1..]))
  }

  function Run(s: System, evs: seq<Event>): System
    requires Legal(s, evs)
    decreases |evs|
  {
    if evs == [] then s else Run(Next(s, evs[0]), evs[1..])
  }

  const START := System(map[], multiset{})

  // ---- the invariant -----------------------------------------------------------------------------

  /** The peers whose QUERY has been sent without error. */
  function Reached(a: Ask): set<int> {
    a.peers - a.unsent - a.failed
  }

  /** The collector holds the answers of distinct peers that were reached, each as that peer read it. */
  ghost predicate AnswersOk(a: Ask) {
    && a.requester !in a.peers && a.unsent <= a.peers && a.failed <= a.peers - a.unsent
    && a.answers.Keys <= Reached(a)
    && Distinct(a.got) && |a.got| == |a.col.results|
    && (forall i {:trigger a.got[i]} :: 0 <= i < |a.got| ==>
          a.got[i] in a.answers && a.col.results[i].rows == a.answers[a.got[i]])
  }

  ghost predicate CountsOk(a: Ask) {
    && a.col.closes <= 1
    && (IsOpen(a) ==> a.col.expected == |a.peers| - (if a.stage == Sending then 0 else |a.failed|))
    && (a.stage != Sending && a.stage != Aborted ==> a.unsent == {})
    && (IsOpen(a) && a.peers != {} ==> (a.col.closes == 1 <==> |a.col.results| >= a.col.expected))
  }

  ghost predicate ResultOk(a: Ask) {
    && (a.stage == Complete ==> |a.got| >= |a.peers| - |a.failed|)
    && (a.stage == Complete || a.stage == TimedOut ==> a.result == a.local + Flatten(a.col.results))
  }

  ghost predicate AskOk(s: System, q: string)
    requires q in s.asks
  {
    '|' !in q && AnswersOk(s.asks[q]) && CountsOk(s.asks[q]) && ResultOk(s.asks[q])
  }

  ghost predicate MsgOk(s: System, m: Msg)
    requires m in s.msgs
  {
    var q := Split(m.tag).0;
    && q in s.asks && m.tag == Tag(q, s.asks[q].col.table)
    && s.msgs[m] == 1
    && Standing(s.asks[q], m)
  }

  ghost predicate Standing(a: Ask, m: Msg) {
    match m
    case QueryMsg(_, requester, to) => requester == a.requester && to in Reached(a) && to !in a.answers
    case ResponseMsg(_, from, to, rows) =>
      to == a.requester && from in a.answers && a.answers[from] == rows && from !in a.got
  }

  ghost predicate Inv(s: System) {
    && (forall q {:trigger AskOk(s, q)} :: q in s.asks ==> AskOk(s, q))
    && (forall m {:trigger MsgOk(s, m)} :: m in s.msgs ==> MsgOk(s, m))
  }

  // ---- every step keeps it -----------------------------------------------------------------------

  lemma AnsweredOk(a: Ask, tag: string, requester: int, to: int, rows: seq<Row>, answered: bool)
    requires AnswersOk(a) && CountsOk(a) && ResultOk(a) && to in Reached(a) && to !in a.answers
    ensures var b := Progress(a, GetQuery(tag, requester, to, rows, answered));
            AnswersOk(b) && CountsOk(b) && ResultOk(b)
  {
  }

  lemma ArrivedOk(a: Ask, tag: string, from: int, to: int, rows: seq<Row>)
    requires AnswersOk(a) && CountsOk(a) && ResultOk(a)
    requires from in a.answers && a.answers[from] == rows && from !in a.got
    ensures var b := Progress(a, GetResponse(tag, from, to, rows));
            AnswersOk(b) && CountsOk(b) && ResultOk(b)
  {
  }

  lemma ProgressOk(s: System, ev: Event)
    requires Inv(s) && Enabled(s, ev) && !ev.Open? && QueryOf(ev) in s.asks
    ensures AnswersOk(Progress(s.asks[QueryOf(ev)], ev))
    ensures CountsOk(Progress(s.asks[QueryOf(ev)], ev))
    ensures ResultOk(Progress(s.asks[QueryOf(ev)], ev))
  {
    var a := s.asks[QueryOf(ev)];
    assert AskOk(s, QueryOf(ev));
    match ev {
      case GetQuery(tag, requester, to, rows, answered) =>
        assert MsgOk(s, QueryMsg(tag, requester, to));
        AnsweredOk(a, tag, requester, to, rows, answered);
      case GetResponse(tag, from, to, rows) =>
        assert MsgOk(s, ResponseMsg(tag, from, to, rows));
        ArrivedOk(a, tag, from, to, rows);
      case Finish(_) => FinishedCount(a);
      case _ =>
    }
  }

  lemma FinishedCount(a: Ask)
    requires AnswersOk(a) && CountsOk(a) && a.stage == Collecting && (a.peers == {} || a.col.closes > 0)
    ensures |a.got| >= |a.peers| - |a.failed|
  {
  }

  lemma AsksKept(s: System, ev: Event)
    requires Inv(s) && Enabled(s, ev)
    ensures forall q {:trigger AskOk(Next(s, ev), q)} :: q in Next(s, ev).asks ==> AskOk(Next(s, ev), q)
  {
    var d := Next(s, ev);
    if !ev.Open? && QueryOf(ev) in s.asks {
      ProgressOk(s, ev);
    }
    forall q | q in d.asks ensures AskOk(d, q) {
      assert q in s.asks ==> AskOk(s, q);
    }
  }

  lemma StandingKept(s: System, ev: Event, m: Msg)
    requires Inv(s) && Enabled(s, ev) && m in s.msgs - Consumed(ev)
    ensures var q := Split(m.tag).0;
            q in NextAsks(s, ev) && Standing(NextAsks(s, ev)[q], m) && m.tag == Tag(q, NextAsks(s, ev)[q].col.table)
  {
    assert MsgOk(s, m);
    var q := Split(m.tag).0;
    if ev.GetQuery? {
      assert MsgOk(s, QueryMsg(ev.tag, ev.requester, ev.to));
      assert q == QueryOf(ev) ==> m.tag == ev.tag;
      assert m.QueryMsg? && q == QueryOf(ev) ==> m.to != ev.to;
    } else if ev.GetResponse? {
      assert MsgOk(s, ResponseMsg(ev.tag, ev.from, ev.to, ev.rows));
      assert q == QueryOf(ev) ==> m.tag == ev.tag;
      assert m.ResponseMsg? && q == QueryOf(ev) ==> m.from != ev.from;
    }
  }

  lemma OldMessageKept(s: System, ev: Event, m: Msg)
    requires Inv(s) && Enabled(s, ev) && m in s.msgs - Consumed(ev) && m !in Produced(s, ev)
    ensures m in Next(s, ev).msgs && MsgOk(Next(s, ev), m)
  {
    assert MsgOk(s, m);
    StandingKept(s, ev, m);
    var rest := s.msgs - Consumed(ev);
    assert rest[m] == 1;
  }

  lemma NewMessageOk(s: System, ev: Event, m: Msg)
    requires Inv(s) && Enabled(s, ev) && m in Produced(s, ev)
    ensures m in Next(s, ev).msgs && MsgOk(Next(s, ev), m)
  {
    assert m in s.msgs ==> MsgOk(s, m);
    if ev.SendQuery? {
      assert AskOk(s, ev.queryID);
      TagRoundTrip(ev.queryID, s.asks[ev.queryID].col.table);
    } else {
      assert MsgOk(s, QueryMsg(ev.tag, ev.requester, ev.to));
      assert m.tag == ev.tag;
      assert AskOk(s, QueryOf(ev));
    }
  }

  lemma StepKeeps(s: System, ev: Event)
    requires Inv(s) && Enabled(s, ev)
    ensures Inv(Next(s, ev))
  {
    var d := Next(s, ev);
    AsksKept(s, ev);
    forall m | m in d.msgs ensures MsgOk(d, m) {
      if m in Produced(s, ev) {
        NewMessageOk(s, ev, m);
      } else {
        OldMessageKept(s, ev, m);
      }
    }
  }

  lemma {:induction false} InvAlways(s: System, evs: seq<Event>)
    requires Inv(s) && Legal(s, evs)
    ensures Inv(Run(s, evs))
    decreases |evs|
  {
    if evs == [] {
    } else {
      StepKeeps(s, evs[0]);
      InvAlways(Next(s, evs[0]), evs[1..]);
    }
  }

  // ---- what follows for every run ----------------------------------------------------------------

  function Elements(s: seq<int>): set<int> {
    set x | x in s
  }

  lemma {:induction false} DistinctCount(s: seq<int>)
    requires Distinct(s)
    ensures |Elements(s)| == |s|
  {
    if s == [] {
    } else {
      var last := |s| - 1;
      DistinctCount(s[..last]);
      assert s[last] !in s[..last];
      assert Elements(s) == Elements(s[..last]) + {s[last]};
    }
  }

  /** As many distinct members as the whole has: all of it. */
  lemma FullSubset(a: set<int>, b: set<int>)
    requires a <= b && |a| >= |b|
    ensures a == b
  {
    if b - a != {} {
      var x := Member(b - a);
      SubsetSize(a, b - {x});
    }
    assert b == a + (b - a);
  }

  lemma EverybodyAnswered(a: Ask)
    requires AnswersOk(a) && a.unsent == {} && |a.got| >= |a.peers| - |a.failed|
    ensures Elements(a.got) == Reached(a)
  {
    DistinctCount(a.got);
    assert |Reached(a)| == |a.peers| - |a.failed|;
    forall x | x in Elements(a.got) ensures x in Reached(a) {
      var i :| 0 <= i < |a.got| && a.got[i] == x;
    }
    FullSubset(Elements(a.got), Reached(a));
  }

  /** The rows of the given nodes, in order. */
  function RowsOf(answers: map<int, seq<Row>>, order: seq<int>): seq<Row>
    requires forall i :: 0 <= i < |order| ==> order[i] in answers
  {
    if order == [] then []
    else RowsOf(answers, order[..|order| - 1]) + answers[order[|order| - 1]]
  }

  lemma {:induction false} FlattenIsRowsOf(results: seq<Response>, answers: map<int, seq<Row>>, order: seq<int>)
    requires |results| == |order|
    requires forall i :: 0 <= i < |order| ==> order[i] in answers && results[i].rows == answers[order[i]]
    ensures Flatten(results) == RowsOf(answers, order)
    decreases |order|
  {
    if order == [] {
    } else {
      var last := |order| - 1;
      FlattenIsRowsOf(results[..last], answers, order[..last]);
    }
  }

  /** A read that its collector ended, whatever the interleaving of answers with the adjustment, holds the
      local rows and then exactly one answer of every peer that was reached. */
  lemma CompleteReadIsExact(evs: seq<Event>, q: string)
    requires Legal(START, evs) && At(Run(START, evs), q, Complete)
    ensures var a := Run(START, evs).asks[q];
            && a.requester !in a.got && Distinct(a.got) && Elements(a.got) == a.peers - a.failed == a.answers.Keys
            && (forall i :: 0 <= i < |a.got| ==> a.got[i] in a.answers)
            && a.result == a.local + RowsOf(a.answers, a.got)
  {
    InvAlways(START, evs);
    var s := Run(START, evs);
    var a := s.asks[q];
    assert AskOk(s, q);
    EverybodyAnswered(a);
    FlattenIsRowsOf(a.col.results, a.answers, a.got);
    assert a.requester in a.got ==> a.requester in Elements(a.got);
    assert a.answers.Keys == Reached(a) by {
      forall x | x in Reached(a) ensures x in a.answers {
        assert x in Elements(a.got);
      }
    }
  }

  /** A read that the clock ended has at most one answer of each peer, and none that nobody gave. */
  lemma TimedOutReadIsPartial(evs: seq<Event>, q: string)
    requires Legal(START, evs) && At(Run(START, evs), q, TimedOut)
    ensures var a := Run(START, evs).asks[q];
            && Distinct(a.got) && Elements(a.got) <= a.answers.Keys <= a.peers - a.failed
            && a.result == a.local + RowsOf(a.answers, a.got)
  {
    InvAlways(START, evs);
    var a := Run(START, evs).asks[q];
    assert AskOk(Run(START, evs), q);
    FlattenIsRowsOf(a.col.results, a.answers, a.got);
    forall x | x in Elements(a.got) ensures x in a.answers {
      var i :| 0 <= i < |a.got| && a.got[i] == x;
    }
  }

  /** The channel is closed at most once, and it is closed on a query still open exactly when no answer is
      missing: no query waits for nobody, and none ends early. */
  lemma ClosedOnceWhenComplete(evs: seq<Event>, q: string)
    requires Legal(START, evs) && q in Run(START, evs).asks
    ensures var a := Run(START, evs).asks[q];
            && a.col.closes <= 1
            && (a.stage == Collecting ==>
                  (Enabled(Run(START, evs), Finish(q)) <==> Elements(a.got) == a.peers - a.failed))
  {
    InvAlways(START, evs);
    var s := Run(START, evs);
    var a := s.asks[q];
    assert AskOk(s, q);
    if a.stage == Collecting {
      DistinctCount(a.got);
      assert |a.peers - a.failed| == |a.peers| - |a.failed|;
      if Enabled(s, Finish(q)) {
        EverybodyAnswered(a);
      } else {
        assert |a.got| < |a.peers - a.failed|;
      }
    }
  }

  // ---- the node's own map does what the service object does ---------------------------------------

  function QueriesOf(s: System, p: int): map<string, Collector> {
    map q | q in s.asks && s.asks[q].requester == p && IsOpen(s.asks[q]) :: s.asks[q].col
  }

  lemma OpenRefines(s: System, ev: Event)
    requires Inv(s) && Enabled(s, ev) && ev.Open?
    ensures QueriesOf(Next(s, ev), ev.requester)
            == QueriesOf(s, ev.requester)[ev.queryID := Collector(ev.table, |ev.peers|, [], 0)]
  {
  }

  lemma AdjustRefines(s: System, ev: Event)
    requires Inv(s) && Enabled(s, ev) && ev.Adjust?
    ensures var a := s.asks[ev.queryID];
            var before := QueriesOf(s, a.requester);
            && ev.queryID in before
            && QueriesOf(Next(s, ev), a.requester) == before[ev.queryID := Shrink(before[ev.queryID], |a.failed|)]
  {
    var p := s.asks[ev.queryID].requester;
    var before, after := QueriesOf(s, p), QueriesOf(Next(s, ev), p);
    assert after == before[ev.queryID := Shrink(before[ev.queryID], |s.asks[ev.queryID].failed|)];
  }

  /** An answer is added to the query it was given for if that is still open at its node, else dropped. */
  lemma HandleResponseRefines(s: System, ev: Event)
    requires Inv(s) && Enabled(s, ev) && ev.GetResponse?
    ensures var before := QueriesOf(s, ev.to);
            var q := QueryOf(ev);
            QueriesOf(Next(s, ev), ev.to)
            == if q in before then before[q := AddResponse(before[q], Response(ev.tag, ev.rows, ev.from))] else before
  {
    assert MsgOk(s, ResponseMsg(ev.tag, ev.from, ev.to, ev.rows));
    var q := QueryOf(ev);
    var before, after := QueriesOf(s, ev.to), QueriesOf(Next(s, ev), ev.to);
    if q in before {
      assert after == before[q := AddResponse(before[q], Response(ev.tag, ev.rows, ev.from))];
    } else {
      assert after == before;
    }
  }

  lemma CloseRefines(s: System, ev: Event)
    requires Inv(s) && Enabled(s, ev) && (ev.Finish? || ev.TimeOut? || ev.Abort?)
    ensures var p := s.asks[ev.queryID].requester;
            QueriesOf(Next(s, ev), p) == QueriesOf(s, p) - {ev.queryID}
  {
    var p := s.asks[ev.queryID].requester;
    assert QueriesOf(Next(s, ev), p) == QueriesOf(s, p) - {ev.queryID};
  }

  // ---- a complete read of a quiet database --------------------------------------------------------

  function KeyOf(row: Row): Key {
    match row
    case IngenieroRow(i) => IngenieroKey(i.id)
    case UsuarioRow(u) => UsuarioKey(u.id)
    case DispositivoRow(d) => DispositivoKey(d.id)
    case TicketRow(t) => TicketKey(t.id)
  }

  function TableOf(k: Key): string {
    match k
    case IngenieroKey(_) => "INGENIEROS"
    case UsuarioKey(_) => "USUARIOS"
    case DispositivoKey(_) => "DISPOSITIVOS"
    case TicketKey(_) => "TICKETS"
  }

  /** The rows are those that one of the shards named has in the table, in some order, each once. */
  ghost predicate ListsAll(shards: map<int, Tables>, ns: set<int>, table: string, rows: seq<Row>)
    requires ns <= shards.Keys
  {
    && Distinct(rows)
    && (forall row {:trigger row in rows} :: row in rows ==>
          TableOf(KeyOf(row)) == table && exists n :: n in ns && RowAt(shards[n], KeyOf(row)) == Some(row))
    && (forall n, k: Key {:trigger RowAt(shards[n], k)} ::
          n in ns && TableOf(k) == table && RowAt(shards[n], k).Some? ==> RowAt(shards[n], k).value in rows)
  }

  /** What SELECT returns of one database: every row of the table once, in some order. */
  ghost predicate Lists(t: Tables, table: string, rows: seq<Row>) {
    && Distinct(rows)
    && (forall row {:trigger row in rows} :: row in rows ==>
          TableOf(KeyOf(row)) == table && RowAt(t, KeyOf(row)) == Some(row))
    && (forall k: Key {:trigger RowAt(t, k)} :: TableOf(k) == table && RowAt(t, k).Some? ==> RowAt(t, k).value in rows)
  }

  lemma ListsAllMore(shards: map<int, Tables>, global: Tables, ns: set<int>, n: int, table: string,
                     rows: seq<Row>, more: seq<Row>)
    requires Partition(shards, global) && ns + {n} <= shards.Keys && n !in ns
    requires ListsAll(shards, ns, table, rows) && Lists(shards[n], table, more)
    ensures ListsAll(shards, ns + {n}, table, rows + more)
  {
    forall i, j | 0 <= i < |rows| && 0 <= j < |more| ensures rows[i] != more[j] {
      assert rows[i] in rows && more[j] in more;
      var m :| m in ns && RowAt(shards[m], KeyOf(rows[i])) == Some(rows[i]);
      assert RowAt(shards[n], KeyOf(more[j])) == Some(more[j]);
    }
    assert Distinct(rows + more);
    forall row | row in rows + more
      ensures TableOf(KeyOf(row)) == table && exists m :: m in ns + {n} && RowAt(shards[m], KeyOf(row)) == Some(row) {
      if row in rows {
        var m :| m in ns && RowAt(shards[m], KeyOf(row)) == Some(row);
        assert m in ns + {n};
      } else {
        assert n in ns + {n} && RowAt(shards[n], KeyOf(row)) == Some(row);
      }
    }
  }

  lemma {:induction false} RowsOfLists(shards: map<int, Tables>, global: Tables, table: string, first: int,
                                       local: seq<Row>, answers: map<int, seq<Row>>, order: seq<int>)
    requires Partition(shards, global) && first in shards && Lists(shards[first], table, local)
    requires first !in order && Distinct(order)
    requires forall i :: 0 <= i < |order| ==>
               order[i] in answers && order[i] in shards && Lists(shards[order[i]], table, answers[order[i]])
    ensures Elements(order) + {first} <= shards.Keys
    ensures ListsAll(shards, Elements(order) + {first}, table, local + RowsOf(answers, order))
    decreases |order|
  {
    if order == [] {
      ListsAllMore(shards, global, {}, first, table, [], local);
      assert Elements(order) + {first} == {} + {first} && [] + local == local + RowsOf(answers, order);
    } else {
      var last := |order| - 1;
      var init, n := order[..last], order[last];
      RowsOfLists(shards, global, table, first, local, answers, init);
      var rows, more := local + RowsOf(answers, init), answers[n];
      ListsAllMore(shards, global, Elements(init) + {first}, n, table, rows, more);
      assert Elements(order) + {first} == Elements(init) + {first} + {n};
      assert rows + more == local + RowsOf(answers, order);
    }
  }

  lemma AllShardsListGlobal(shards: map<int, Tables>, global: Tables, table: string, rows: seq<Row>)
    requires Partition(shards, global) && ListsAll(shards, shards.Keys, table, rows)
    ensures Lists(global, table, rows)
  {
    forall row | row in rows ensures RowAt(global, KeyOf(row)) == Some(row) {
      var n :| n in shards && RowAt(shards[n], KeyOf(row)) == Some(row);
    }
    forall k: Key | TableOf(k) == table && RowAt(global, k).Some? ensures RowAt(global, k).value in rows {
      var n :| n in shards && RowAt(shards[n], k).Some?;
      assert RowAt(shards[n], k) == RowAt(global, k);
    }
  }

  /** The rows a query got, taken as readings of the shards. */
  ghost predicate Reads(a: Ask, shards: map<int, Tables>) {
    && a.requester in shards && Lists(shards[a.requester], a.col.table, a.local)
    && forall n {:trigger a.answers[n]} :: n in a.answers ==> n in shards && Lists(shards[n], a.col.table, a.answers[n])
  }

  lemma ReadRowsList(a: Ask, shards: map<int, Tables>, global: Tables)
    requires Partition(shards, global) && Reads(a, shards)
    requires a.requester !in a.got && Distinct(a.got) && Elements(a.got) == a.answers.Keys
    requires shards.Keys == a.answers.Keys + {a.requester}
    ensures (forall i :: 0 <= i < |a.got| ==> a.got[i] in a.answers)
            && Lists(global, a.col.table, a.local + RowsOf(a.answers, a.got))
  {
    forall i | 0 <= i < |a.got| ensures a.got[i] in a.answers {
      assert a.got[i] in Elements(a.got);
    }
    RowsOfLists(shards, global, a.col.table, a.requester, a.local, a.answers, a.got);
    assert Elements(a.got) + {a.requester} == shards.Keys;
    AllShardsListGlobal(shards, global, a.col.table, a.local + RowsOf(a.answers, a.got));
  }

  /** While the shards hold a partition of one database, a complete read that reached every other node
      lists the whole table of that database: every row, once. */
  lemma QuietReadListsTable(evs: seq<Event>, q: string, shards: map<int, Tables>, global: Tables)
    requires Legal(START, evs) && At(Run(START, evs), q, Complete)
    requires Partition(shards, global)
    requires var a := Run(START, evs).asks[q];
             shards.Keys == a.peers + {a.requester} && a.failed == {} && Reads(a, shards)
    ensures var a := Run(START, evs).asks[q];
            Lists(global, a.col.table, a.result)
  {
    CompleteReadIsExact(evs, q);
    ReadRowsList(Run(START, evs).asks[q], shards, global);
  }

  /** In particular while the shards refine one database, as ShardsRefineDatabase says they do. */
  lemma QuietReadListsDatabase(evs: seq<Event>, q: string, home: int -> int, shards: map<int, Tables>, global: Tables)
    requires Legal(START, evs) && At(Run(START, evs), q, Complete)
    requires Refines(shards.Keys, home, shards, global) && Housed(shards.Keys, home, global)
    requires var a := Run(START, evs).asks[q];
             shards.Keys == a.peers + {a.requester} && a.failed == {} && Reads(a, shards)
    ensures var a := Run(START, evs).asks[q];
            Lists(global, a.col.table, a.result)
  {
    RefinedShardsPartition(home, shards, global);
    QuietReadListsTable(evs, q, shards, global);
  }

  lemma {:induction false} DistinctOnce(s: seq<Row>, x: Row)
    requires Distinct(s)
    ensures multiset(s)[x] == if x in s then 1 else 0
  {
    if s == [] {
    } else {
      var last := |s| - 1;
      DistinctOnce(s[..last], x);
      assert s == s[..last] + [s[last]];
      assert s[last] !in s[..last];
    }
  }

  /** Two listings of one table are permutations of each other. */
  lemma ListingsAreOnePermutation(t: Tables, table: string, a: seq<Row>, b: seq<Row>)
    requires Lists(t, table, a) && Lists(t, table, b)
    ensures multiset(a) == multiset(b)
  {
    forall x ensures multiset(a)[x] == multiset(b)[x] {
      DistinctOnce(a, x);
      DistinctOnce(b, x);
      if x in a {
        assert RowAt(t, KeyOf(x)) == Some(x);
      }
      if x in b {
        assert RowAt(t, KeyOf(x)) == Some(x);
      }
    }
  }
}
