/** When a read can still be complete (ListAll, HandleQuery and HandleQueryResponse in
    internal/service/ticket_service.go): exactly as long as no peer that got its QUERY has failed to answer. */
module QueryProgress {
  import opened Common
  import opened Sharding
  import opened Query
  import opened QueryRuns
  import Paths

  ghost function AnyStep(): (System, Event, System) -> bool {
    (s, ev, d) => Enabled(s, ev) && Next(s, ev) == d
  }

  ghost predicate Reaches(s: System, d: System) {
    Paths.Reaches(AnyStep(), s, d)
  }

  lemma StepsOn(s: System, ev: Event, d: System)
    requires Enabled(s, ev) && Reaches(Next(s, ev), d)
    ensures Reaches(s, d)
  {
    assert AnyStep()(s, ev, Next(s, ev));
    Paths.OneStep(AnyStep(), s, ev, Next(s, ev));
    Paths.ReachesTrans(AnyStep(), s, Next(s, ev), d);
  }

  /** The peer has taken its QUERY and will never answer. */
  ghost predicate Silent(s: System, q: string, n: int)
    requires q in s.asks
  {
    var a := s.asks[q];
    n in Reached(a) && n !in a.answers && QueryMsg(TagOf(s, q), a.requester, n) !in s.msgs
  }

  // ---- silence is for good -------------------------------------------------------------------------------

  ghost predicate StaysSilent(s: System, q: string, n: int) {
    Inv(s) && q in s.asks && Silent(s, q, n)
  }

  lemma SilentStep(s: System, ev: Event, q: string, n: int)
    requires StaysSilent(s, q, n) && Enabled(s, ev)
    ensures StaysSilent(Next(s, ev), q, n)
  {
    StepKeeps(s, ev);
    if q != QueryOf(ev) {
      OtherQuery(s, ev, q);
    } else {
      KnownQuery(s, ev);
      MessageFate(s, ev, QueryMsg(TagOf(s, q), s.asks[q].requester, n));
    }
  }

  lemma CompleteHasEverybody(s: System, q: string, n: int)
    requires Inv(s) && At(s, q, Complete)
    ensures !Silent(s, q, n)
  {
    var a := s.asks[q];
    assert AskOk(s, q);
    EverybodyAnswered(a);
    if n in Reached(a) {
      assert n in Elements(a.got);
      var i :| 0 <= i < |a.got| && a.got[i] == n;
    }
  }

  lemma SilencePrevents(s: System, q: string, n: int, d: System)
    requires StaysSilent(s, q, n) && Reaches(s, d)
    ensures !At(d, q, Complete)
  {
    var inv := x => StaysSilent(x, q, n);
    forall x, ev, y | inv(x) && AnyStep()(x, ev, y) ensures inv(y) {
      SilentStep(x, ev, q, n);
    }
    Paths.Kept(AnyStep(), inv, s, d);
    if At(d, q, Complete) {
      CompleteHasEverybody(d, q, n);
    }
  }

  // ---- otherwise it can complete -------------------------------------------------------------------------

  /** An answer that an open query has not got yet is on its way to it. */
  ghost predicate ComingOk(s: System, q: string, n: int)
    requires q in s.asks
  {
    var a := s.asks[q];
    IsOpen(a) && n in a.answers && n !in a.got ==> ResponseMsg(TagOf(s, q), n, a.requester, a.answers[n]) in s.msgs
  }

  /** An open query all of whose peers have answered or still may. */
  ghost predicate Hopeful(s: System, q: string) {
    && Inv(s) && q in s.asks && IsOpen(s.asks[q])
    && forall n {:trigger ComingOk(s, q, n)} {:trigger Silent(s, q, n)} :: ComingOk(s, q, n) && !Silent(s, q, n)
  }

  function Asked(s: System, q: string): set<int>
    requires q in s.asks
  {
    set n | n in s.asks[q].peers && QueryMsg(TagOf(s, q), s.asks[q].requester, n) in s.msgs
  }

  function Missing(a: Ask): set<int> {
    set n | n in a.answers && n !in a.got
  }

  /** What is still to be done before the query has all answers. */
  function Work(s: System, q: string): nat
    requires q in s.asks
  {
    var a := s.asks[q];
    3 * |a.unsent| + 2 * |Asked(s, q)| + |Missing(a)| + if a.stage == Sending then 1 else 0
  }

  lemma Taken(s: set<int>, n: int)
    requires n in s
    ensures |s - {n}| == |s| - 1
  {
  }

  lemma SendsOne(s: System, q: string, n: int)
    requires Hopeful(s, q) && At(s, q, Sending) && n in s.asks[q].unsent
    ensures var d := Next(s, SendQuery(q, n, true));
            Hopeful(d, q) && Work(d, q) < Work(s, q)
  {
    var ev := SendQuery(q, n, true);
    var a, d := s.asks[q], Next(s, ev);
    StepKeeps(s, ev);
    assert AskOk(s, q);
    TagRoundTrip(q, a.col.table);
    forall x ensures ComingOk(d, q, x) && !Silent(d, q, x) {
      assert ComingOk(s, q, x) && !Silent(s, q, x);
      MessageFate(s, ev, QueryMsg(TagOf(s, q), a.requester, x));
      if x in a.answers {
        MessageFate(s, ev, ResponseMsg(TagOf(s, q), x, a.requester, a.answers[x]));
      }
    }
    SendsAsked(s, q, n);
    Taken(a.unsent, n);
    assert |Asked(s, q) + {n}| <= |Asked(s, q)| + 1;
  }

  lemma SendsAsked(s: System, q: string, n: int)
    requires Inv(s) && At(s, q, Sending) && n in s.asks[q].unsent
    ensures var d := Next(s, SendQuery(q, n, true));
            && q in d.asks && d.asks[q] == s.asks[q].(unsent := s.asks[q].unsent - {n})
            && Asked(d, q) == Asked(s, q) + {n}
  {
    var ev := SendQuery(q, n, true);
    assert AskOk(s, q);
    forall x {
      MessageFate(s, ev, QueryMsg(TagOf(s, q), s.asks[q].requester, x));
    }
  }

  lemma Adjusts(s: System, q: string)
    requires Hopeful(s, q) && At(s, q, Sending) && s.asks[q].unsent == {}
    ensures var d := Next(s, Adjust(q, []));
            Hopeful(d, q) && Work(d, q) < Work(s, q)
  {
    var ev := Adjust(q, []);
    var d := Next(s, ev);
    StepKeeps(s, ev);
    assert d.msgs == s.msgs;
    forall x ensures ComingOk(d, q, x) && !Silent(d, q, x) {
      assert ComingOk(s, q, x) && !Silent(s, q, x);
    }
    assert Asked(d, q) == Asked(s, q) && Missing(d.asks[q]) == Missing(s.asks[q]);
  }

  lemma AnswersOne(s: System, q: string, n: int)
    requires Hopeful(s, q) && n in Asked(s, q)
    ensures var ev := GetQuery(TagOf(s, q), s.asks[q].requester, n, [], true);
            Enabled(s, ev) && Hopeful(Next(s, ev), q) && Work(Next(s, ev), q) < Work(s, q)
  {
    var a := s.asks[q];
    var ev := GetQuery(TagOf(s, q), a.requester, n, [], true);
    var d := Next(s, ev);
    StepKeeps(s, ev);
    assert AskOk(s, q);
    TagRoundTrip(q, a.col.table);
    AnsweredAsk(s, q, n);
    forall x ensures ComingOk(d, q, x) && !Silent(d, q, x) {
      assert ComingOk(s, q, x) && !Silent(s, q, x);
      MessageFate(s, ev, QueryMsg(TagOf(s, q), a.requester, x));
      if x in d.asks[q].answers {
        MessageFate(s, ev, ResponseMsg(TagOf(s, q), x, a.requester, d.asks[q].answers[x]));
      }
    }
    Taken(Asked(s, q), n);
    assert |Missing(a) + {n}| <= |Missing(a)| + 1;
  }

  lemma AnsweredAsk(s: System, q: string, n: int)
    requires Inv(s) && q in s.asks && n in Asked(s, q)
    ensures var ev := GetQuery(TagOf(s, q), s.asks[q].requester, n, [], true);
            && Enabled(s, ev)
            && var d := Next(s, ev);
               && q in d.asks && d.asks[q] == s.asks[q].(answers := s.asks[q].answers[n := []])
               && Asked(d, q) == Asked(s, q) - {n} && Missing(d.asks[q]) == Missing(s.asks[q]) + {n}
  {
    var a := s.asks[q];
    var ev := GetQuery(TagOf(s, q), a.requester, n, [], true);
    assert AskOk(s, q);
    TagRoundTrip(q, a.col.table);
    KnownQuery(s, ev);
    forall x {
      MessageFate(s, ev, QueryMsg(TagOf(s, q), a.requester, x));
    }
    assert n !in a.got;
  }

  lemma GetsOne(s: System, q: string, n: int)
    requires Hopeful(s, q) && n in Missing(s.asks[q])
    ensures var ev := GetResponse(TagOf(s, q), n, s.asks[q].requester, s.asks[q].answers[n]);
            Enabled(s, ev) && Hopeful(Next(s, ev), q) && Work(Next(s, ev), q) < Work(s, q)
  {
    var a := s.asks[q];
    var ev := GetResponse(TagOf(s, q), n, a.requester, a.answers[n]);
    assert ComingOk(s, q, n);
    assert AskOk(s, q);
    TagRoundTrip(q, a.col.table);
    var d := Next(s, ev);
    StepKeeps(s, ev);
    var b := d.asks[q];
    assert b.got == a.got + [n] && b.answers == a.answers && b.peers == a.peers && b.stage == a.stage;
    forall x ensures ComingOk(d, q, x) && !Silent(d, q, x) {
      assert ComingOk(s, q, x) && !Silent(s, q, x);
      MessageFate(s, ev, QueryMsg(TagOf(s, q), a.requester, x));
      if x in a.answers {
        MessageFate(s, ev, ResponseMsg(TagOf(s, q), x, a.requester, a.answers[x]));
      }
    }
    assert Missing(b) == Missing(a) - {n};
    Taken(Missing(a), n);
    forall x ensures x in Asked(d, q) <==> x in Asked(s, q) {
      MessageFate(s, ev, QueryMsg(TagOf(s, q), a.requester, x));
    }
    assert Asked(d, q) == Asked(s, q);
  }

  /** With nothing left to wait for, every peer that was reached has been heard. */
  lemma AllHeard(s: System, q: string)
    requires Hopeful(s, q) && Work(s, q) == 0
    ensures Enabled(s, Finish(q))
  {
    var a := s.asks[q];
    assert AskOk(s, q);
    forall n | n in Reached(a) ensures n in Elements(a.got) {
      assert !Silent(s, q, n);
      assert n !in Asked(s, q) && n !in Missing(a);
    }
    DistinctCount(a.got);
    SubsetSize(Reached(a), Elements(a.got));
    assert |Reached(a)| == |a.peers| - |a.failed|;
  }

  lemma {:induction false} CompletesSometime(s: System, q: string) returns (d: System)
    requires Hopeful(s, q)
    ensures Reaches(s, d) && At(d, q, Complete)
    decreases Work(s, q)
  {
    var a := s.asks[q];
    if a.unsent != {} {
      assert AskOk(s, q);
      var n := Member(a.unsent);
      SendsOne(s, q, n);
      d := CompletesSometime(Next(s, SendQuery(q, n, true)), q);
      StepsOn(s, SendQuery(q, n, true), d);
    } else if a.stage == Sending {
      Adjusts(s, q);
      d := CompletesSometime(Next(s, Adjust(q, [])), q);
      StepsOn(s, Adjust(q, []), d);
    } else if Asked(s, q) != {} {
      var n := Member(Asked(s, q));
      AnswersOne(s, q, n);
      var ev := GetQuery(TagOf(s, q), a.requester, n, [], true);
      d := CompletesSometime(Next(s, ev), q);
      StepsOn(s, ev, d);
    } else if Missing(a) != {} {
      var n := Member(Missing(a));
      GetsOne(s, q, n);
      var ev := GetResponse(TagOf(s, q), n, a.requester, a.answers[n]);
      d := CompletesSometime(Next(s, ev), q);
      StepsOn(s, ev, d);
    } else {
      AllHeard(s, q);
      d := Next(s, Finish(q));
      Paths.ReachesSelf(AnyStep(), d);
      StepsOn(s, Finish(q), d);
    }
  }

  /** At every moment of every run an open read can still be complete if and only if no peer that has taken its
      QUERY has left it unanswered.  It can fail on its own rows once everything is sent, and be cancelled or
      ended by the clock while it waits for somebody. */
  lemma CompletePossibleIff(evs: seq<Event>, q: string)
    requires Legal(START, evs) && q in Run(START, evs).asks && IsOpen(Run(START, evs).asks[q])
    ensures var s := Run(START, evs);
            && ((exists d :: Reaches(s, d) && At(d, q, Complete)) <==> forall n :: !Silent(s, q, n))
            && (At(s, q, Sending) && s.asks[q].unsent == {} ==>
                  Enabled(s, Abort(q)) && At(Next(s, Abort(q)), q, Aborted))
            && (At(s, q, Collecting) && s.asks[q].peers != {} ==>
                  && Enabled(s, Abort(q)) && At(Next(s, Abort(q)), q, Aborted)
                  && Enabled(s, TimeOut(q)) && At(Next(s, TimeOut(q)), q, TimedOut))
  {
    InvAlways(START, evs);
    var s := Run(START, evs);
    forall n ensures ComingOk(s, q, n) {
      StoryOfRun(evs, q, n);
    }
    if forall n :: !Silent(s, q, n) {
      var d := CompletesSometime(s, q);
    } else {
      var n :| Silent(s, q, n);
      forall d | Reaches(s, d) ensures !At(d, q, Complete) {
        SilencePrevents(s, q, n, d);
      }
    }
  }

  /** Any node can ask for any table under a fresh query ID. */
  lemma QueriesCanOpen(s: System, q: string, requester: int, table: string, peers: set<int>)
    requires q !in s.asks && '|' !in q && requester !in peers
    ensures var ev := Open(q, requester, table, peers);
            Enabled(s, ev) && At(Next(s, ev), q, Sending) && Next(s, ev).asks[q].col.table == table
  {
  }
}
