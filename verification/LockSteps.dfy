/** What single steps of the lock do to queues, channels and messages, and what they leave alone
    (internal/mutex/mutex.go). */
module LockSteps {
  import opened LockEngine
  import opened LockCluster

  // ---- asking and answering --------------------------------------------------------------------------

  /** A request that goes out asks the node's current idea of the master, once, and its channel is
      registered by then; one that could not be sent leaves nothing behind but a failed attempt. */
  lemma RemoteRequestAsksMaster(c: Cluster, r: ReqId, n: int, sent: bool)
    requires Enabled(c, StartRemote(r, n, sent))
    ensures var d := Next(c, StartRemote(r, n, sent));
            && r in d.attempts && d.attempts[r].owner == n && d.attempts[r].arbiter == c.master[n]
            && !d.attempts[r].local && d.attempts == c.attempts[r := d.attempts[r]] && d.master == c.master
            && (sent ==>
                  && d.attempts[r].phase == Phase.Waiting
                  && d.msgs == c.msgs + multiset{Request(r, n, c.master[n])}
                  && d.engines == c.engines[n := c.engines[n].(grants := c.engines[n].grants + {r})])
            && (!sent ==> d.attempts[r].phase == Failed && d.msgs == c.msgs && d.engines == c.engines)
  {
  }

  /** Every request that arrives is answered with exactly one message to the node that asked: LOCK_GRANT when
      the lock was free and is now its own, LOCK_DENY when it has been put at the end of the queue. */
  lemma RequestIsAnswered(c: Cluster, r: ReqId, from: int, to: int)
    requires Enabled(c, Deliver(Request(r, from, to))) && from in c.engines
    ensures var e := c.engines[to];
            var d := Next(c, Deliver(Request(r, from, to)));
            && d.master == c.master && d.attempts == c.attempts
            && d.msgs == c.msgs - multiset{Request(r, from, to)}
                         + multiset{if e.holder == Nobody then Grant(r, from) else Deny(r, from)}
            && d.engines == c.engines[to := d.engines[to]]
            && d.engines[to].grants == e.grants && d.engines[to].tokens == e.tokens
            && (e.holder == Nobody ==> d.engines[to].holder == r && d.engines[to].queue == e.queue)
            && (e.holder != Nobody ==>
                  d.engines[to].holder == e.holder && d.engines[to].queue == e.queue + [Pending(r, from)])
  {
    var e := c.engines[to];
    var reply := if e.holder == Nobody then Grant(r, from) else Deny(r, from);
    assert multiset([reply]) == multiset{reply};
  }

  /** LOCK_DENY tells its receiver nothing it would act on. */
  lemma DenyChangesNothing(c: Cluster, r: ReqId, to: int)
    requires Enabled(c, Deliver(Deny(r, to)))
    ensures Next(c, Deliver(Deny(r, to))) == c.(msgs := c.msgs - multiset{Deny(r, to)})
  {
  }

  /** Whoever had the lock remotely gives it back to the node it takes for the master by then, if there is
      such a node: with one LOCK_RELEASE and no change at any engine. */
  lemma RemoteReleaseGoesToMaster(c: Cluster, r: ReqId)
    requires Enabled(c, LetGo(r)) && !c.attempts[r].local
    ensures var n := c.attempts[r].owner;
            Next(c, LetGo(r)) == c.(attempts := c.attempts[r := c.attempts[r].(phase := Released)],
                                    msgs := if c.master[n] in c.engines
                                            then c.msgs + multiset{Release(r, c.master[n])} else c.msgs)
  {
  }

  /** A caller is woken by the one grant in its channel, which is gone afterwards. */
  lemma WakingTakesTheGrant(c: Cluster, r: ReqId)
    requires Inv(c) && Enabled(c, Wake(r))
    ensures var n := c.attempts[r].owner;
            var d := Next(c, Wake(r));
            && d.attempts == c.attempts[r := c.attempts[r].(phase := Held)] && r !in d.engines[n].tokens
            && d.engines == c.engines[n := c.engines[n].(tokens := c.engines[n].tokens[r := 0])]
            && d.msgs == c.msgs && d.master == c.master
  {
    var n := c.attempts[r].owner;
    var e := c.engines[n];
    assert EngineOk(c, n);
    assert e.tokens - multiset{r} == e.tokens[r := 0];
    assert e.(tokens := e.tokens - multiset{r}) == e.(tokens := e.tokens[r := 0]);
  }

  /** Whatever is on its way in any run can arrive, and is then no longer on its way. */
  lemma MessagesCanArrive(start: Cluster, evs: seq<Event>, m: LockMsg)
    requires Init(start) && Legal(start, evs) && m in Run(start, evs).msgs
    ensures Enabled(Run(start, evs), Deliver(m))
  {
    InvAlways(start, evs);
    assert MsgOk(Run(start, evs), m);
  }

  /** A node can always ask for the lock: of itself when it takes itself for the master, else of whatever
      configured node it takes for it; it can wait or, having waited, give up. */
  lemma AnybodyMayAsk(c: Cluster, r: ReqId, n: int)
    requires Fresh(c, r, n) && c.master[n] in c.engines
    ensures c.master[n] == n ==> Enabled(c, StartLocal(r, n))
    ensures forall sent :: Enabled(c, StartRemote(r, n, sent))
    ensures forall q :: At(c, q, Phase.Waiting) ==>
              Enabled(c, Timeout(q)) && (!c.attempts[q].local ==> Enabled(c, Cancel(q)))
  {
  }

  // ---- giving up -------------------------------------------------------------------------------------

  /** A caller that gives up has failed, and that is all, but for a remote one that has timed out: its
      channel is no longer registered. */
  lemma GivingUpForgets(c: Cluster, ev: Event)
    requires Enabled(c, ev) && (ev.Timeout? || ev.Cancel?)
    ensures var r, n := ev.r, c.attempts[ev.r].owner;
            var d := Next(c, ev);
            && d.attempts == c.attempts[r := c.attempts[r].(phase := Failed)]
            && d.msgs == c.msgs && d.master == c.master
            && (ev.Cancel? || c.attempts[r].local ==> d.engines == c.engines)
            && (ev.Timeout? && !c.attempts[r].local ==>
                  && r !in d.engines[n].grants
                  && d.engines == c.engines[n := c.engines[n].(grants := c.engines[n].grants - {r})])
  {
    var n := c.attempts[ev.r].owner;
    assert c.engines[n := c.engines[n]] == c.engines;
  }

  /** A remote request that nobody waits for and that has no channel. */
  ghost predicate Forgotten(c: Cluster, r: ReqId) {
    && r in c.attempts && !c.attempts[r].local && c.attempts[r].phase == Failed
    && c.attempts[r].owner in c.engines && r !in c.engines[c.attempts[r].owner].grants
  }

  lemma ForgottenElsewhere(c: Cluster, q: ReqId, n: int, r: ReqId)
    requires Forgotten(c, r) && n in c.engines
    ensures r !in PassOn(c.engines[n], c.engines.Keys, q).state.grants || n != c.attempts[r].owner
  {
  }

  lemma ForgottenStays(c: Cluster, ev: Event, r: ReqId)
    requires Forgotten(c, r) && Enabled(c, ev)
    ensures Forgotten(Next(c, ev), r)
  {
    match ev
    case LetGo(q) => ForgottenElsewhere(c, q, c.attempts[q].owner, r);
    case Deliver(m) => ForgottenThroughDelivery(c, m, r);
    case _ =>
  }

  lemma ForgottenThroughDelivery(c: Cluster, m: LockMsg, r: ReqId)
    requires Forgotten(c, r) && Enabled(c, Deliver(m))
    ensures Forgotten(Next(c, Deliver(m)), r)
  {
    if m.Release? {
      ForgottenElsewhere(c, m.req, m.to, r);
    }
  }

  /** The grant of a remote request that timed out is dropped, however late it comes and whatever happens in
      the meantime: it finds no channel, and all that its delivery changes is that it is no longer on its way. */
  lemma LateGrantIsDropped(c: Cluster, r: ReqId, evs: seq<Event>)
    requires Enabled(c, Timeout(r)) && !c.attempts[r].local
    requires Legal(Next(c, Timeout(r)), evs)
    requires var d := Run(Next(c, Timeout(r)), evs);
             Enabled(d, Deliver(Grant(r, c.attempts[r].owner)))
    ensures var d := Run(Next(c, Timeout(r)), evs);
            var grant := Grant(r, c.attempts[r].owner);
            Next(d, Deliver(grant)) == d.(msgs := d.msgs - multiset{grant})
  {
    GivingUpForgets(c, Timeout(r));
    var n := c.attempts[r].owner;
    ForgottenAlong(Next(c, Timeout(r)), r, n, evs);
    var d := Run(Next(c, Timeout(r)), evs);
    assert d.engines[n := d.engines[n]] == d.engines;
  }

  lemma {:induction false} ForgottenAlong(c: Cluster, r: ReqId, n: int, evs: seq<Event>)
    requires Forgotten(c, r) && c.attempts[r].owner == n && Legal(c, evs)
    ensures Forgotten(Run(c, evs), r) && Run(c, evs).attempts[r].owner == n
    decreases |evs|
  {
    if evs == [] {
    } else {
      ForgottenStays(c, evs[0], r);
      OwnerStays(c, evs[0], r);
      ForgottenAlong(Next(c, evs[0]), r, n, evs[1..]);
    }
  }

  lemma OwnerStays(c: Cluster, ev: Event, r: ReqId)
    requires Enabled(c, ev) && r in c.attempts
    ensures r in Next(c, ev).attempts && Next(c, ev).attempts[r].owner == c.attempts[r].owner
  {
  }
}
