/**
 * The lossless first-gate schedule is not only a calculation: every round of it is a run of the funding protocol,
 * so the protocol can reach the prepared chain from an empty one, and every later ceiling from there.
 */
module FundingRuns {
  import opened Common
  import opened Bootstrap
  import opened Funding
  import opened FirstGate

  // ---------------------------------------------------------------------------
  // Reachability

  ghost predicate Reaches(plan: Plan, s: State, t: State)
  {
    exists events: seq<Event> :: Run(plan, s, events) && After(plan, s, events) == t
  }

  lemma Stays(plan: Plan, s: State)
    ensures Reaches(plan, s, s)
  {
    assert Run(plan, s, []) && After(plan, s, []) == s;
  }

  lemma {:induction false} Joins(plan: Plan, s: State, a: seq<Event>, b: seq<Event>)
    requires Run(plan, s, a) && Run(plan, After(plan, s, a), b)
    ensures Run(plan, s, a + b) && After(plan, s, a + b) == After(plan, After(plan, s, a), b)
    decreases |a|
  {
    if a == [] {
      assert a + b == b;
    } else {
      assert (a + b)[0] == a[0] && (a + b)[1..] == a[1..] + b;
      Joins(plan, Apply(plan, s, a[0]), a[1..], b);
    }
  }

  lemma Passes(plan: Plan, s: State, t: State, u: State)
    requires Reaches(plan, s, t) && Reaches(plan, t, u)
    ensures Reaches(plan, s, u)
  {
    var a: seq<Event> :| Run(plan, s, a) && After(plan, s, a) == t;
    var b: seq<Event> :| Run(plan, t, b) && After(plan, t, b) == u;
    Joins(plan, s, a, b);
  }

  /** One more event. */
  lemma Takes(plan: Plan, s: State, t: State, e: Event)
    requires Reaches(plan, s, t) && Enabled(plan, t, e)
    ensures Reaches(plan, s, Apply(plan, t, e))
  {
    var u := Apply(plan, t, e);
    assert [e][1..] == [];
    assert Run(plan, u, []) && Run(plan, t, [e]) && After(plan, t, [e]) == u;
    Passes(plan, s, t, u);
  }

  // ---------------------------------------------------------------------------
  // One round

  /** Between rounds: nothing armed, everything credited, the worker idle. */
  predicate Resting(s: State)
  {
    && s.worker == Some(Worker(Idle, Quiet)) && s.looks == map[]
    && s.exec.armed.None? && s.exec.completed == s.init.lastAccounted && 0 <= s.init.lastAccounted <= |s.chain|
    && s.exec.offer == s.init.offer && (s.init.offer.Some? ==> s.init.offer.value.number == s.init.lastAccounted)
    && (0 < s.gate ==> s.init.prepared)
  }

  function Standing(s: State, n: nat): (p: FirstGate.Progress)
  {
    FirstGate.Progress.Progress(s.chain, s.init, n)
  }

  /** What the round needs of its offer. */
  predicate Fits(plan: Plan, s: State, o: Offer)
  {
    && o.tip == s.chain && |s.chain| < o.ceiling && CountAuthorized(plan, o)
    && s.gate < |plan.gates| && o.ceiling == plan.gates[s.gate]
    && s.init.lastAccounted < o.number && 1 <= o.number <= MAX_INT64
  }

  function Sampled(s: State): (x: Exec)
  {
    s.exec.(version := s.exec.version + 1, observation := Some(s.chain))
  }

  function Committed(s: State, o: Offer): (t: State)
  {
    s.(exec := Sampled(s), init := s.init.(version := s.init.version + 1, offer := Some(o)))
  }

  /** Nothing that is at rest is credited again. */
  lemma NothingToCredit(plan: Plan, init: Init, x: Exec)
    requires x.completed <= init.lastAccounted
    ensures Credited(plan, init, x) == init
  {
  }

  lemma Commits(plan: Plan, s: State, o: Offer)
    requires Resting(s) && Fits(plan, s, o) && o == NewOffer(plan, s.init, Sampled(s), s.gate)
    ensures Reaches(plan, s, Committed(s, o))
  {
    Stays(plan, s);
    var e1 := Works(Observe(|s.chain|));
    assert s.chain[..|s.chain|] == s.chain;
    Takes(plan, s, s, e1);
    var s1 := s.(exec := Sampled(s));
    Takes(plan, s, s1, Schedules(0, ReadInit));
    var s2 := s1.(looks := map[0 := Holds(s.init)]);
    Takes(plan, s, s2, Schedules(0, ReadExec));
    var s3 := s1.(looks := map[0 := Both(s.init, s1.exec)]);
    assert Apply(plan, s2, Schedules(0, ReadExec)) == s3;
    NothingToCredit(plan, s.init, s1.exec);
    Takes(plan, s, s3, Schedules(0, Commit(s.gate)));
    assert s3.looks - {0} == map[];
  }

  function Published(s: State, o: Offer): (t: State)
  {
    s.(exec := s.exec.(version := s.exec.version + 1, offer := Some(o)))
  }

  lemma Publishes(plan: Plan, s: State, o: Offer)
    requires s.looks == map[] && s.exec.armed.None? && s.exec.completed <= s.init.lastAccounted < o.number
    requires s.init.offer == Some(o) && s.exec.observation == Some(o.tip)
    ensures Reaches(plan, s, Published(s, o))
  {
    Stays(plan, s);
    Takes(plan, s, s, Schedules(0, ReadInit));
    var s1 := s.(looks := map[0 := Holds(s.init)]);
    Takes(plan, s, s1, Schedules(0, ReadExec));
    var s2 := s.(looks := map[0 := Both(s.init, s.exec)]);
    assert Apply(plan, s1, Schedules(0, ReadExec)) == s2;
    NothingToCredit(plan, s.init, s.exec);
    Takes(plan, s, s2, Schedules(0, Publish));
    var s3 := s2.(exec := s.exec.(version := s.exec.version + 1, offer := Some(o)));
    Takes(plan, s, s3, Schedules(0, Leave));
    assert s3.looks - {0} == map[];
  }

  /** The offer is the committed one, published, and the chain is where it expects it. */
  predicate Sendable(plan: Plan, s: State, o: Offer)
  {
    && s.exec.armed.None? && s.exec.completed <= s.init.lastAccounted
    && s.init.offer == Some(o) && s.exec.offer == Some(o) && s.exec.completed < o.number
    && Fits(plan, s, o)
  }

  function AtPc(s: State, pc: Pc): (t: State)
  {
    s.(worker := Some(Worker(pc, Quiet)))
  }

  lemma Drafts(plan: Plan, s: State, o: Offer)
    requires Sendable(plan, s, o) && s.worker == Some(Worker(Idle, Quiet))
    ensures Reaches(plan, s, AtPc(s, Reading(Mine(o), s.exec)))
  {
    Stays(plan, s);
    Takes(plan, s, s, Works(Fetch));
    Takes(plan, s, AtPc(s, Fetched(s.exec)), Works(Check));
    Takes(plan, s, AtPc(s, Checked(s.exec)), Works(Draft(Mine(o))));
    Takes(plan, s, AtPc(s, Drafted(Mine(o))), Works(Reread));
  }

  function Sent(s: State, o: Offer): (t: State)
  {
    s.(exec := s.exec.(version := s.exec.version + 1, armed := Some(Mine(o))), stage := Flying,
       worker := Some(Worker(Idle, Sending(Mine(o)))))
  }

  lemma Arms(plan: Plan, s: State, o: Offer)
    requires Sendable(plan, s, o) && s.worker == Some(Worker(Idle, Quiet))
    ensures Reaches(plan, s, Sent(s, o))
  {
    Drafts(plan, s, o);
    Takes(plan, s, AtPc(s, Reading(Mine(o), s.exec)), Works(Admit));
    Takes(plan, s, AtPc(s, Admitted(Mine(o), s.exec)), Works(Preflight));
    Takes(plan, s, AtPc(s, Preflighted(Mine(o), s.exec)), Works(Arm(Received)));
    var s1 := AtPc(s, Written(Mine(o))).(exec := s.exec.(version := s.exec.version + 1, armed := Some(Mine(o))), stage := Unsent);
    Takes(plan, s, s1, Works(Confirm));
    Takes(plan, s, AtPc(s1, Confirmed(Mine(o))), Works(Send));
  }

  function Recorded(s: State, o: Offer): (t: State)
  {
    s.(chain := Mined(s.chain, Mine(o)), stage := Landed, worker := Some(Worker(Idle, Quiet)),
       exec := Answered(s.exec, Mine(o)))
  }

  lemma Lands(plan: Plan, s: State, o: Offer)
    requires s.stage == Flying && s.exec.armed == Some(Mine(o)) && s.worker == Some(Worker(Idle, Sending(Mine(o))))
    ensures Reaches(plan, s, Recorded(s, o))
  {
    Stays(plan, s);
    Takes(plan, s, s, Land);
    var s1 := s.(chain := Mined(s.chain, Mine(o)), stage := Landed);
    Takes(plan, s, s1, Works(Respond));
    var s2 := s1.(worker := Some(Worker(Idle, Holding(Mine(o)))));
    Takes(plan, s, s2, Works(Collect));
    Takes(plan, s, s2.(worker := Some(Worker(Idle, Collected(Mine(o), s.exec)))), Works(Account(Received)));
  }

  function Credits(plan: Plan, s: State): (t: State)
  {
    var r := Credited(plan, s.init, s.exec);
    s.(init := r.(version := r.version + 1))
  }

  lemma Settles(plan: Plan, s: State)
    requires s.looks == map[]
    ensures Reaches(plan, s, Credits(plan, s))
  {
    Stays(plan, s);
    Takes(plan, s, s, Schedules(0, ReadInit));
    var s1 := s.(looks := map[0 := Holds(s.init)]);
    Takes(plan, s, s1, Schedules(0, ReadExec));
    var s2 := s.(looks := map[0 := Both(s.init, s.exec)]);
    assert Apply(plan, s1, Schedules(0, ReadExec)) == s2;
    Takes(plan, s, s2, Schedules(0, Settle(false)));
    assert s2.looks - {0} == map[];
  }

  /** The first gate, before its preparation is recorded. */
  predicate Preparing(s: State)
  {
    Resting(s) && s.gate == 0 && !s.init.prepared
  }

  /** The offer the machine commits from rest is the one the schedule computes. */
  lemma SameOffer(plan: Plan, s: State, n: nat)
    requires Preparing(s) && Frozen(plan) && |s.chain| < plan.gates[0] && |s.chain| < MAX_INT64
    requires Round(plan, Standing(s, n)).Some?
    ensures var o := NewOffer(plan, s.init, FirstGate.Settled(Standing(s, n)), 0);
      o == NewOffer(plan, s.init, Sampled(s), 0) && Fits(plan, s, o)
  {
  }

  function Rounded(plan: Plan, s: State, o: Offer): (t: State)
  {
    Credits(plan, Recorded(Sent(Published(Committed(s, o), o), o), o))
  }

  /** From rest, an offer is committed, published, armed, sent, executed, accounted and credited. */
  lemma OfferRuns(plan: Plan, s: State, o: Offer)
    requires Resting(s) && Fits(plan, s, o) && o == NewOffer(plan, s.init, Sampled(s), s.gate)
    ensures Reaches(plan, s, Rounded(plan, s, o))
  {
    var a := Committed(s, o);
    var b := Published(a, o);
    var c := Sent(b, o);
    var d := Recorded(c, o);
    Commits(plan, s, o);
    Publishes(plan, a, o);
    Passes(plan, s, a, b);
    Arms(plan, b, o);
    Passes(plan, s, b, c);
    Lands(plan, c, o);
    Passes(plan, s, c, d);
    Settles(plan, d);
    Passes(plan, s, d, Credits(plan, d));
  }

  /** One round of the schedule is a run from rest to rest. */
  lemma RoundRuns(plan: Plan, s: State, n: nat) returns (t: State)
    requires Preparing(s) && Frozen(plan) && |s.chain| < plan.gates[0] && |s.chain| < MAX_INT64
    requires Round(plan, Standing(s, n)).Some?
    ensures Reaches(plan, s, t) && Preparing(t)
    ensures var q := Round(plan, Standing(s, n)).value;
      t.chain == q.chain && q.init == t.init.(version := q.init.version)
  {
    SameOffer(plan, s, n);
    var o := NewOffer(plan, s.init, Sampled(s), 0);
    OfferRuns(plan, s, o);
    t := Rounded(plan, s, o);
    RoundResult(plan, s, n, o, Recorded(Sent(Published(Committed(s, o), o), o), o));
  }

  lemma RoundResult(plan: Plan, s: State, n: nat, o: Offer, d: State)
    requires Preparing(s) && Frozen(plan) && |s.chain| < plan.gates[0]
    requires Round(plan, Standing(s, n)).Some? && o == NewOffer(plan, s.init, FirstGate.Settled(Standing(s, n)), 0)
    requires d == Recorded(Sent(Published(Committed(s, o), o), o), o)
    ensures Preparing(Credits(plan, d))
    ensures var q := Round(plan, Standing(s, n)).value;
      Credits(plan, d).chain == q.chain && q.init == Credits(plan, d).init.(version := q.init.version)
  {
  }

  // ---------------------------------------------------------------------------
  // The whole schedule

  /** The counters' version is bookkeeping: rounds do not look at it. */
  lemma VersionIsIdle(plan: Plan, p: FirstGate.Progress, q: FirstGate.Progress)
    requires 0 < |plan.gates| && |p.chain| < plan.gates[0]
    requires q.chain == p.chain && q.offers == p.offers && q.init == p.init.(version := q.init.version)
    ensures Round(plan, q) == if Round(plan, p).None? then None
      else Some(Round(plan, p).value.(init := Round(plan, p).value.init.(version := q.init.version)))
  {
  }

  /** A schedule that completes is a run of the protocol that ends on the same chain. */
  lemma {:induction false} ScheduleRuns(plan: Plan, p: FirstGate.Progress, s: State) returns (t: State)
    requires Frozen(plan) && Preparing(s) && |p.chain| <= plan.gates[0] <= MAX_INT64
    requires s.chain == p.chain && p.init == s.init.(version := p.init.version)
    requires Schedule(plan, p).Some?
    ensures Reaches(plan, s, t) && Preparing(t) && t.chain == Schedule(plan, p).value.chain
    decreases plan.gates[0] - |p.chain|
  {
    if |p.chain| == plan.gates[0] {
      Stays(plan, s);
      t := s;
    } else {
      RoundFits(plan, p);
      VersionIsIdle(plan, p, Standing(s, p.offers));
      var m := RoundRuns(plan, s, p.offers);
      var q := Round(plan, p).value;
      t := ScheduleRuns(plan, q, m);
      Passes(plan, s, m, t);
    }
  }

  /**
   * From an empty chain the protocol reaches a state whose chain is prepared at exactly the minimum height,
   * unless the payout wallet is a miner's and overflows its counter.
   */
  lemma PreparationIsReachable(plan: Plan, s: State) returns (t: State)
    requires Frozen(plan) && plan.minimum <= MAX_INT64 && Boot(s)
    requires CounterFits(plan, plan.outputs + (plan.minimum - |plan.miners| * plan.outputs))
    ensures Reaches(plan, s, t) && Preparing(t) && |t.chain| == plan.minimum && Prepared(plan, t.chain)
  {
    FirstGatePrepares(plan);
    Stays(plan, s);
    Takes(plan, s, s, StartWorker);
    var ready := s.(worker := Some(Worker(Idle, Quiet)));
    t := ScheduleRuns(plan, BEGINNING, ready);
    Passes(plan, s, ready, t);
  }

  // ---------------------------------------------------------------------------
  // Later gates

  /** The preparation of the first gate is recorded once a sample stands at the minimum height. */
  lemma Prepares(plan: Plan, s: State) returns (t: State)
    requires Preparing(s) && |s.chain| == plan.minimum
    ensures Reaches(plan, s, t) && Resting(t) && t.init.prepared && t.gate == 0 && t.chain == s.chain
  {
    Stays(plan, s);
    assert s.chain[..|s.chain|] == s.chain;
    Takes(plan, s, s, Works(Observe(|s.chain|)));
    var s1 := s.(exec := Sampled(s));
    Takes(plan, s, s1, Schedules(0, ReadInit));
    var s2 := s1.(looks := map[0 := Holds(s.init)]);
    Takes(plan, s, s2, Schedules(0, ReadExec));
    var s3 := s1.(looks := map[0 := Both(s.init, s1.exec)]);
    assert Apply(plan, s2, Schedules(0, ReadExec)) == s3;
    NothingToCredit(plan, s.init, s1.exec);
    Takes(plan, s, s3, Schedules(0, Settle(true)));
    assert s3.looks - {0} == map[];
    t := Apply(plan, s3, Schedules(0, Settle(true)));
  }

  /** Past the first gate every round adds one block to the payout wallet. */
  lemma PayoutRuns(plan: Plan, s: State) returns (t: State)
    requires Frozen(plan) && Resting(s) && s.init.prepared && 0 < s.gate < |plan.gates|
    requires plan.minimum <= |s.chain| < plan.gates[s.gate] <= MAX_INT64
    ensures Reaches(plan, s, t) && Resting(t) && t.init.prepared && t.gate == s.gate
    ensures t.chain == s.chain + [plan.payout]
  {
    var o := NewOffer(plan, s.init, Sampled(s), s.gate);
    OfferRuns(plan, s, o);
    t := Rounded(plan, s, o);
    assert Repeat(plan.payout, 0) + [plan.payout] == [plan.payout];
    assert Repeat(plan.payout, 1) == [plan.payout];
  }

  lemma {:induction false} CeilingRuns(plan: Plan, s: State) returns (t: State)
    requires Frozen(plan) && Resting(s) && s.init.prepared && 0 < s.gate < |plan.gates|
    requires plan.minimum <= |s.chain| <= plan.gates[s.gate] <= MAX_INT64
    ensures Reaches(plan, s, t) && Resting(t) && t.init.prepared && t.gate == s.gate
    ensures |t.chain| == plan.gates[s.gate] && s.chain <= t.chain
    ensures forall i :: |s.chain| <= i < |t.chain| ==> t.chain[i] == plan.payout
    decreases plan.gates[s.gate] - |s.chain|
  {
    if |s.chain| == plan.gates[s.gate] {
      Stays(plan, s);
      t := s;
    } else {
      var m := PayoutRuns(plan, s);
      t := CeilingRuns(plan, m);
      Passes(plan, s, m, t);
    }
  }

  /**
   * From the prepared chain the protocol reaches every later frozen ceiling exactly, once its gate opens, and every
   * block above the minimum height pays the payout wallet.
   */
  lemma {:induction false} GatesAreReachable(plan: Plan, s: State, prepared: State, gate: nat) returns (t: State)
    requires Frozen(plan) && gate < |plan.gates| && plan.gates[gate] <= MAX_INT64
    requires Reaches(plan, s, prepared) && Preparing(prepared) && |prepared.chain| == plan.minimum
    ensures Reaches(plan, s, t) && Resting(t) && t.gate == gate && t.init.prepared
    ensures |t.chain| == plan.gates[gate] && prepared.chain <= t.chain
    ensures forall i :: plan.minimum <= i < |t.chain| ==> t.chain[i] == plan.payout
  {
    if gate == 0 {
      t := Prepares(plan, prepared);
      Passes(plan, s, prepared, t);
    } else {
      assert plan.gates[gate - 1] < plan.gates[gate];
      var below := GatesAreReachable(plan, s, prepared, gate - 1);
      Takes(plan, s, below, OpenGate);
      var open := below.(gate := gate);
      assert gate - 1 == 0 || plan.gates[0] < plan.gates[gate - 1];
      t := CeilingRuns(plan, open);
      Passes(plan, s, open, t);
      assert t.chain[..|below.chain|] == below.chain;
    }
  }
}
