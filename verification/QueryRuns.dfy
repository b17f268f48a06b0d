/** What a query's answers and result are, in terms of what has happened in the run (ListAll, HandleQuery and
    HandleQueryResponse in internal/service/ticket_service.go): rows come from the nodes that read them, and
    nothing gets lost but by the network or by coming too late. */
module QueryRuns {
  import opened Common
  import opened Sharding
  import opened Query

  /** The query is the one that was opened, and ended the way it was ended. */
  ghost predicate StoryOk(s: System, q: string, past: seq<Event>)
    requires q in s.asks
  {
    var a := s.asks[q];
    && '|' !in q && Open(q, a.requester, a.col.table, a.peers) in past
    && (a.stage == Collecting || a.stage == Complete || a.stage == TimedOut ==> Adjust(q, a.local) in past)
    && (a.stage == Complete <==> Finish(q) in past)
    && (a.stage == TimedOut <==> TimeOut(q) in past)
    && (a.stage == Aborted <==> Abort(q) in past)
  }

  function TagOf(s: System, q: string): string
    requires q in s.asks
  {
    Tag(q, s.asks[q].col.table)
  }

  /** The node has handled the query's QUERY. */
  ghost predicate Handled(s: System, q: string, n: int, past: seq<Event>)
    requires q in s.asks
  {
    exists rows, answered {:trigger GetQuery(TagOf(s, q), s.asks[q].requester, n, rows, answered)} ::
      GetQuery(TagOf(s, q), s.asks[q].requester, n, rows, answered) in past
  }

  /** A peer has failed if and only if the send to it has; one that was sent QUERY has handled it or has it
      still coming. */
  ghost predicate SentOk(s: System, q: string, n: int, past: seq<Event>)
    requires q in s.asks
  {
    var a := s.asks[q];
    && (n in a.failed <==> SendQuery(q, n, false) in past)
    && (n in a.peers && n !in a.unsent && n !in a.failed <==> SendQuery(q, n, true) in past)
    && (SendQuery(q, n, true) in past ==> QueryMsg(TagOf(s, q), a.requester, n) in s.msgs || Handled(s, q, n, past))
  }

  /** A peer's answer is what it has read. */
  ghost predicate AnswerOk(s: System, q: string, n: int, past: seq<Event>)
    requires q in s.asks
  {
    var a, tag := s.asks[q], TagOf(s, q);
    forall rows {:trigger GetQuery(tag, a.requester, n, rows, true)} ::
      GetQuery(tag, a.requester, n, rows, true) in past <==> n in a.answers && a.answers[n] == rows
  }

  /** The requester has got an answer or it is on its way, and it is taken into account if the query is still
      open when it arrives. */
  ghost predicate ArrivalOk(s: System, q: string, n: int, past: seq<Event>)
    requires q in s.asks
  {
    var a, tag := s.asks[q], TagOf(s, q);
    && (n in a.answers ==>
          ResponseMsg(tag, n, a.requester, a.answers[n]) in s.msgs
          || GetResponse(tag, n, a.requester, a.answers[n]) in past)
    && (forall rows {:trigger GetResponse(tag, n, a.requester, rows)} ::
          GetResponse(tag, n, a.requester, rows) in past ==> n in a.answers)
    && (n in a.got ==> n in a.answers && GetResponse(tag, n, a.requester, a.answers[n]) in past)
    && (IsOpen(a) && n in a.answers && GetResponse(tag, n, a.requester, a.answers[n]) in past ==> n in a.got)
  }

  ghost predicate NodeOk(s: System, q: string, n: int, past: seq<Event>)
    requires q in s.asks
  {
    SentOk(s, q, n, past) && AnswerOk(s, q, n, past) && ArrivalOk(s, q, n, past)
  }

  ghost predicate Unheard(past: seq<Event>, q: string) {
    forall ev :: ev in past ==> QueryOf(ev) != q
  }

  ghost predicate Witnessed(s: System, past: seq<Event>) {
    && (forall q {:trigger Unheard(past, q)} :: q !in s.asks ==> Unheard(past, q))
    && (forall q {:trigger StoryOk(s, q, past)} :: q in s.asks ==> StoryOk(s, q, past))
    && (forall q, n {:trigger NodeOk(s, q, n, past)} :: q in s.asks ==> NodeOk(s, q, n, past))
  }

  // ---- one step --------------------------------------------------------------------------------------

  lemma OneMore(past: seq<Event>, ev: Event)
    ensures forall e :: e in past + [ev] <==> e in past || e == ev
  {
  }

  lemma MessageFate(s: System, ev: Event, m: Msg)
    requires Inv(s) && Enabled(s, ev)
    ensures m in Next(s, ev).msgs <==> m in Produced(s, ev) || (m in s.msgs && m !in Consumed(ev))
  {
    if m in Consumed(ev) {
      assert MsgOk(s, m) && s.msgs[m] == 1 && Consumed(ev)[m] == 1;
    }
  }

  /** The query of an event is known, and a message is tagged with it. */
  lemma KnownQuery(s: System, ev: Event)
    requires Inv(s) && Enabled(s, ev) && !ev.Open?
    ensures QueryOf(ev) in s.asks && AskOk(s, QueryOf(ev))
    ensures ev.GetQuery? ==> ev.tag == TagOf(s, QueryOf(ev)) && ev.requester == s.asks[QueryOf(ev)].requester
                             && ev.to !in s.asks[QueryOf(ev)].answers && ev.to in Reached(s.asks[QueryOf(ev)])
    ensures ev.GetResponse? ==>
              var a := s.asks[QueryOf(ev)];
              && ev.tag == TagOf(s, QueryOf(ev)) && ev.to == a.requester
              && ev.from in a.answers && a.answers[ev.from] == ev.rows && ev.from !in a.got
  {
    match ev
    case GetQuery(tag, requester, to, _, _) => assert MsgOk(s, QueryMsg(tag, requester, to));
    case GetResponse(tag, from, to, rows) => assert MsgOk(s, ResponseMsg(tag, from, to, rows));
    case _ =>
  }

  lemma OtherMessage(s: System, ev: Event, q: string, m: Msg)
    requires Inv(s) && Enabled(s, ev) && q != QueryOf(ev) && '|' !in q && Split(m.tag).0 == q
    ensures m in Next(s, ev).msgs <==> m in s.msgs
  {
    if !ev.Open? {
      KnownQuery(s, ev);
      TagRoundTrip(QueryOf(ev), s.asks[QueryOf(ev)].col.table);
    }
    MessageFate(s, ev, m);
  }

  lemma OtherQuery(s: System, ev: Event, q: string)
    requires Inv(s) && Enabled(s, ev) && q != QueryOf(ev) && q in s.asks
    ensures var d := Next(s, ev);
            && q in d.asks && d.asks[q] == s.asks[q] && Split(TagOf(s, q)).0 == q
            && forall m: Msg :: m.tag == TagOf(s, q) ==> (m in d.msgs <==> m in s.msgs)
  {
    assert AskOk(s, q);
    TagRoundTrip(q, s.asks[q].col.table);
    forall m: Msg | m.tag == TagOf(s, q) ensures m in Next(s, ev).msgs <==> m in s.msgs {
      OtherMessage(s, ev, q, m);
    }
  }

  lemma OtherQueryOk(s: System, ev: Event, q: string, n: int, past: seq<Event>)
    requires Inv(s) && Enabled(s, ev) && q != QueryOf(ev) && q in s.asks
    requires StoryOk(s, q, past) && NodeOk(s, q, n, past)
    ensures q in Next(s, ev).asks && StoryOk(Next(s, ev), q, past + [ev]) && NodeOk(Next(s, ev), q, n, past + [ev])
  {
    OtherQuery(s, ev, q);
    SameStory(s, Next(s, ev), q, n, past, ev);
  }

  lemma SameStory(s: System, d: System, q: string, n: int, past: seq<Event>, ev: Event)
    requires q in s.asks && q in d.asks && d.asks[q] == s.asks[q] && QueryOf(ev) != q && Split(TagOf(s, q)).0 == q
    requires forall m: Msg :: m.tag == TagOf(s, q) ==> (m in d.msgs <==> m in s.msgs)
    requires StoryOk(s, q, past) && NodeOk(s, q, n, past)
    ensures StoryOk(d, q, past + [ev]) && NodeOk(d, q, n, past + [ev])
  {
    OneMore(past, ev);
    var now := past + [ev];
    if Handled(s, q, n, past) {
      var rows, answered :| GetQuery(TagOf(s, q), s.asks[q].requester, n, rows, answered) in past;
      assert GetQuery(TagOf(d, q), d.asks[q].requester, n, rows, answered) in now;
    }
    assert SentOk(d, q, n, now);
    assert AnswerOk(d, q, n, now);
    assert ArrivalOk(d, q, n, now);
  }

  lemma NewQueryOk(s: System, ev: Event, n: int, past: seq<Event>)
    requires Inv(s) && Enabled(s, ev) && ev.Open? && Unheard(past, ev.queryID)
    ensures var d, q := Next(s, ev), ev.queryID;
            q in d.asks && StoryOk(d, q, past + [ev]) && NodeOk(d, q, n, past + [ev])
  {
    var d, q, now := Next(s, ev), ev.queryID, past + [ev];
    OneMore(past, ev);
    TagRoundTrip(q, ev.table);
    forall rows, answered ensures GetQuery(TagOf(d, q), ev.requester, n, rows, answered) !in now {
      assert QueryOf(GetQuery(TagOf(d, q), ev.requester, n, rows, answered)) == q;
    }
    forall from, rows ensures GetResponse(TagOf(d, q), from, ev.requester, rows) !in now {
      assert QueryOf(GetResponse(TagOf(d, q), from, ev.requester, rows)) == q;
    }
    assert AnswerOk(d, q, n, now);
    assert ArrivalOk(d, q, n, now);
  }

  lemma OwnStoryOk(s: System, ev: Event, past: seq<Event>)
    requires Inv(s) && Enabled(s, ev) && !ev.Open? && QueryOf(ev) in s.asks && StoryOk(s, QueryOf(ev), past)
    ensures QueryOf(ev) in Next(s, ev).asks && StoryOk(Next(s, ev), QueryOf(ev), past + [ev])
  {
    OneMore(past, ev);
    KnownQuery(s, ev);
  }

  lemma SameTag(s: System, ev: Event)
    requires Inv(s) && Enabled(s, ev) && !ev.Open? && QueryOf(ev) in s.asks
    ensures var q := QueryOf(ev);
            && q in Next(s, ev).asks && TagOf(Next(s, ev), q) == TagOf(s, q)
            && Next(s, ev).asks[q].requester == s.asks[q].requester
  {
  }

  lemma OwnSentOk(s: System, ev: Event, n: int, past: seq<Event>)
    requires Inv(s) && Enabled(s, ev) && !ev.Open? && QueryOf(ev) in s.asks && SentOk(s, QueryOf(ev), n, past)
    ensures QueryOf(ev) in Next(s, ev).asks && SentOk(Next(s, ev), QueryOf(ev), n, past + [ev])
  {
    var q, d, now := QueryOf(ev), Next(s, ev), past + [ev];
    var a := s.asks[q];
    OneMore(past, ev);
    KnownQuery(s, ev);
    SameTag(s, ev);
    MessageFate(s, ev, QueryMsg(TagOf(s, q), a.requester, n));
    if ev.GetQuery? && ev.to == n {
      assert GetQuery(TagOf(d, q), d.asks[q].requester, n, ev.rows, ev.answered) in now;
    } else if Handled(s, q, n, past) {
      var rows, answered :| GetQuery(TagOf(s, q), a.requester, n, rows, answered) in past;
      assert GetQuery(TagOf(d, q), d.asks[q].requester, n, rows, answered) in now;
    }
  }

  lemma OwnAnswerOk(s: System, ev: Event, n: int, past: seq<Event>)
    requires Inv(s) && Enabled(s, ev) && !ev.Open? && QueryOf(ev) in s.asks && AnswerOk(s, QueryOf(ev), n, past)
    ensures QueryOf(ev) in Next(s, ev).asks && AnswerOk(Next(s, ev), QueryOf(ev), n, past + [ev])
  {
    var q, d, now := QueryOf(ev), Next(s, ev), past + [ev];
    KnownQuery(s, ev);
    SameTag(s, ev);
    forall rows ensures GetQuery(TagOf(d, q), d.asks[q].requester, n, rows, true) in now
                        <==> n in d.asks[q].answers && d.asks[q].answers[n] == rows {
      assert GetQuery(TagOf(s, q), s.asks[q].requester, n, rows, true) in now
             <==> (|| GetQuery(TagOf(s, q), s.asks[q].requester, n, rows, true) in past
                   || GetQuery(TagOf(s, q), s.asks[q].requester, n, rows, true) == ev);
    }
  }

  lemma AnswersStay(s: System, ev: Event, n: int)
    requires Inv(s) && Enabled(s, ev) && !ev.Open? && QueryOf(ev) in s.asks
    ensures var a, b := s.asks[QueryOf(ev)], Next(s, ev).asks[QueryOf(ev)];
            && (n in a.answers ==> n in b.answers && b.answers[n] == a.answers[n])
            && (n in b.answers && n !in a.answers ==>
                  ev.GetQuery? && ev.answered && ev.to == n && b.answers[n] == ev.rows)
            && (n in a.got ==> n in b.got)
            && (n in b.got && n !in a.got ==> ev.GetResponse? && ev.from == n)
            && (ev.GetResponse? && ev.from == n && IsOpen(a) ==> n in b.got)
            && (IsOpen(b) ==> IsOpen(a))
  {
    KnownQuery(s, ev);
  }

  lemma OwnArrivalOk(s: System, ev: Event, n: int, past: seq<Event>)
    requires Inv(s) && Enabled(s, ev) && !ev.Open? && QueryOf(ev) in s.asks && ArrivalOk(s, QueryOf(ev), n, past)
    ensures QueryOf(ev) in Next(s, ev).asks && ArrivalOk(Next(s, ev), QueryOf(ev), n, past + [ev])
  {
    var q := QueryOf(ev);
    OneMore(past, ev);
    KnownQuery(s, ev);
    SameTag(s, ev);
    AnswersStay(s, ev, n);
    var b := Next(s, ev).asks[q];
    if n in b.answers {
      MessageFate(s, ev, ResponseMsg(TagOf(s, q), n, b.requester, b.answers[n]));
    }
    forall rows | GetResponse(TagOf(s, q), n, b.requester, rows) in past + [ev] ensures n in b.answers {
    }
    TagRoundTrip(q, s.asks[q].col.table);
  }

  lemma NodeStep(s: System, ev: Event, q: string, n: int, past: seq<Event>)
    requires Inv(s) && Enabled(s, ev) && Witnessed(s, past) && q in Next(s, ev).asks
    ensures StoryOk(Next(s, ev), q, past + [ev]) && NodeOk(Next(s, ev), q, n, past + [ev])
  {
    if q in s.asks {
      assert StoryOk(s, q, past) && NodeOk(s, q, n, past);
      if q != QueryOf(ev) {
        OtherQueryOk(s, ev, q, n, past);
      } else {
        OwnStoryOk(s, ev, past);
        OwnSentOk(s, ev, n, past);
        OwnAnswerOk(s, ev, n, past);
        OwnArrivalOk(s, ev, n, past);
      }
    } else {
      assert Unheard(past, q);
      NewQueryOk(s, ev, n, past);
    }
  }

  lemma WitnessedStep(s: System, ev: Event, past: seq<Event>)
    requires Inv(s) && Enabled(s, ev) && Witnessed(s, past)
    ensures Witnessed(Next(s, ev), past + [ev])
  {
    var d, now := Next(s, ev), past + [ev];
    OneMore(past, ev);
    forall q, n | q in d.asks ensures NodeOk(d, q, n, now) {
      NodeStep(s, ev, q, n, past);
    }
    forall q | q in d.asks ensures StoryOk(d, q, now) {
      NodeStep(s, ev, q, 0, past);
    }
    forall q | q !in d.asks ensures Unheard(now, q) {
      assert Unheard(past, q);
      if !ev.Open? {
        KnownQuery(s, ev);
      }
    }
  }

  lemma {:induction false} WitnessedAlways(s: System, past: seq<Event>, evs: seq<Event>)
    requires Inv(s) && Legal(s, evs) && Witnessed(s, past)
    ensures Witnessed(Run(s, evs), past + evs)
    decreases |evs|
  {
    if evs == [] {
      assert past + evs == past;
    } else {
      var ev, rest := evs[0], evs[1..];
      StepKeeps(s, ev);
      WitnessedStep(s, ev, past);
      WitnessedAlways(Next(s, ev), past + [ev], rest);
      OneOn(past, evs);
    }
  }

  lemma StoryOfRun(evs: seq<Event>, q: string, n: int)
    requires Legal(START, evs) && q in Run(START, evs).asks
    ensures StoryOk(Run(START, evs), q, evs) && NodeOk(Run(START, evs), q, n, evs)
  {
    WitnessedAlways(START, [], evs);
    assert [] + evs == evs;
  }

  // ---- for every run -----------------------------------------------------------------------------------

  /** A complete read is made of what nodes have read, and of all of it: the requester's own rows first, as it
      read them when the sends were done, then for every peer that QUERY was sent to the rows which that peer's
      handler read. */
  lemma ReadIsWhatNodesRead(evs: seq<Event>, q: string)
    requires Legal(START, evs) && At(Run(START, evs), q, Complete)
    ensures var a := Run(START, evs).asks[q];
            && Open(q, a.requester, a.col.table, a.peers) in evs && Adjust(q, a.local) in evs
            && Distinct(a.got) && (forall i :: 0 <= i < |a.got| ==> a.got[i] in a.answers)
            && a.result == a.local + RowsOf(a.answers, a.got)
            && (forall n :: n in a.got <==> SendQuery(q, n, true) in evs)
            && (forall n :: n in a.got ==>
                  GetQuery(Tag(q, a.col.table), a.requester, n, a.answers[n], true) in evs)
  {
    CompleteReadIsExact(evs, q);
    var s := Run(START, evs);
    var a := s.asks[q];
    InvAlways(START, evs);
    assert AskOk(s, q);
    forall n ensures n in a.got <==> SendQuery(q, n, true) in evs
             ensures n in a.got ==> GetQuery(Tag(q, a.col.table), a.requester, n, a.answers[n], true) in evs {
      StoryOfRun(evs, q, n);
      assert n in a.got <==> n in Elements(a.got);
    }
    StoryOfRun(evs, q, 0);
  }

  /** No QUERY and no answer gets lost on the way: what was sent is handled or still coming, and what was
      answered has arrived or is still coming, and has been taken into account if the query is still open. */
  lemma AnswersDoNotGetLost(evs: seq<Event>, q: string, n: int)
    requires Legal(START, evs) && q in Run(START, evs).asks
    ensures var s := Run(START, evs);
            var a, tag := s.asks[q], Tag(q, s.asks[q].col.table);
            && (SendQuery(q, n, true) in evs && QueryMsg(tag, a.requester, n) !in s.msgs ==>
                  exists rows, answered {:trigger GetQuery(tag, a.requester, n, rows, answered)} ::
                    GetQuery(tag, a.requester, n, rows, answered) in evs)
            && (forall rows {:trigger GetQuery(tag, a.requester, n, rows, true)} ::
                  GetQuery(tag, a.requester, n, rows, true) in evs ==>
                    ResponseMsg(tag, n, a.requester, rows) in s.msgs || GetResponse(tag, n, a.requester, rows) in evs)
            && (IsOpen(a) ==> forall rows {:trigger GetResponse(tag, n, a.requester, rows)} ::
                  GetQuery(tag, a.requester, n, rows, true) in evs && GetResponse(tag, n, a.requester, rows) in evs ==>
                    n in a.got)
  {
    StoryOfRun(evs, q, n);
    var s := Run(START, evs);
    assert TagOf(s, q) == Tag(q, s.asks[q].col.table);
  }
}
