/**
 * Every interleaving of schedulers, worker, crashes and delayed executions keeps the chain under the gate
 * ceiling and every miner wallet within its output target. The fence is the expected tip: an offer is armed
 * only on the chain its counters were read from, and an uncredited receipt keeps the slot shut.
 */
module FundingProofs {
  import opened Common
  import opened Bootstrap
  import opened Funding

  /** The wallets whose funding is counted exactly: miners other than the payout wallet. */
  predicate Tracked(plan: Plan, w: Wallet)
  {
    w in plan.miners && w != plan.payout
  }

  /** What holds of every committed offer, however old its sample. */
  predicate Sound(plan: Plan, o: Offer)
  {
    && CountAuthorized(plan, o)
    && Known(plan, o)
    && (Tracked(plan, o.wallet) ==>
          Count(o.tip, o.wallet) + OfferBlocks(o.count) <= plan.outputs && |o.tip| < plan.minimum)
  }

  predicate SoundIf(plan: Plan, o: Option<Offer>)
  {
    o.Some? ==> Sound(plan, o.value)
  }

  predicate SoundOp(plan: Plan, gate: nat, op: Op)
    requires gate < |plan.gates|
  {
    op.Mine? ==> Sound(plan, op.offer) && op.offer.ceiling <= plan.gates[gate]
  }

  /** The outputs an operation adds to a wallet. */
  function Share(w: Wallet, op: Option<Op>): (n: int)
  {
    if op.Some? && op.value.Mine? && op.value.offer.wallet == w then OfferBlocks(op.value.offer.count) else 0
  }

  /** The receipt is an offer's and has not been credited. */
  predicate Pending(init: Init, exec: Exec)
  {
    exec.receipt.Some? && exec.receipt.value.Mine? && init.lastAccounted < exec.receipt.value.offer.number
  }

  /** Outputs credited, retained in an uncredited receipt, or landed on the chain and not yet answered. */
  function Owed(init: Init, exec: Exec, stage: Stage, w: Wallet): (n: int)
  {
    Outputs(init.funded, w)
    + (if Pending(init, exec) then Share(w, exec.receipt) else 0)
    + (if stage == Landed then Share(w, exec.armed) else 0)
  }

  ghost predicate Books(plan: Plan, chain: Chain, init: Init, exec: Exec, stage: Stage)
  {
    forall w: Wallet :: Tracked(plan, w) ==>
      Count(chain, w) == Owed(init, exec, stage, w) && Count(chain, w) <= plan.outputs
  }

  ghost predicate Slots(plan: Plan, gate: nat, chain: Chain, init: Init, exec: Exec, stage: Stage)
  {
    && gate < |plan.gates| && |chain| <= plan.gates[gate]
    && init.lastAccounted <= exec.completed
    && SoundIf(plan, init.offer) && SoundIf(plan, exec.offer)
    && (exec.observation.Some? ==> exec.observation.value <= chain)
    && (exec.receipt.Some? && exec.receipt.value.Mine? ==>
          exec.receipt.value.offer.number == exec.completed && Sound(plan, exec.receipt.value.offer))
    && (exec.armed.Some? ==>
          && GenerationAccounted(init, exec)
          && SoundOp(plan, gate, exec.armed.value)
          && (exec.armed.value.Mine? ==>
                && exec.completed < exec.armed.value.offer.number
                && (stage != Landed ==> chain == exec.armed.value.offer.tip)))
  }

  // ---------------------------------------------------------------------------
  // The worker process

  predicate FreshExec(x: Exec, exec: Exec)
  {
    x.version <= exec.version && (x.version == exec.version ==> x == exec)
  }

  /** Nothing was armed or accounted since the record was read with a free slot. */
  predicate Still(x: Exec, exec: Exec)
  {
    x.armed.None? && exec.armed.None? && x.receipt == exec.receipt && x.completed == exec.completed
  }

  predicate Arming(plan: Plan, gate: nat, init: Init, exec: Exec, op: Op)
    requires gate < |plan.gates|
  {
    exec.armed.None? && GenerationAccounted(init, exec) && SoundOp(plan, gate, op)
  }

  predicate PcOk(plan: Plan, gate: nat, chain: Chain, init: Init, exec: Exec, stage: Stage, pc: Pc)
    requires gate < |plan.gates|
  {
    match pc
    case Idle => true
    case Fetched(x) => FreshExec(x, exec) && (x.armed.None? ==> Still(x, exec)) && SoundIf(plan, x.offer)
    case Checked(x) =>
      FreshExec(x, exec) && Still(x, exec) && GenerationAccounted(init, exec) && SoundIf(plan, x.offer)
    case Drafted(op) => Arming(plan, gate, init, exec, op)
    case Reading(op, x) => Arming(plan, gate, init, exec, op) && FreshExec(x, exec) && Still(x, exec)
    case Admitted(op, x) =>
      && Arming(plan, gate, init, exec, op) && FreshExec(x, exec) && Still(x, exec)
      && (op.Mine? ==> exec.completed < op.offer.number)
    case Preflighted(op, x) =>
      && Arming(plan, gate, init, exec, op) && FreshExec(x, exec) && Still(x, exec)
      && (op.Mine? ==> exec.completed < op.offer.number && chain == op.offer.tip)
    case Written(op) => exec.armed == Some(op) && stage == Unsent
    case Confirmed(op) => exec.armed == Some(op) && stage == Unsent
  }

  predicate Reserves(pc: Pc)
  {
    !pc.Idle? && !pc.Fetched? && !pc.Checked?
  }

  predicate CollectorOk(exec: Exec, stage: Stage, c: Collector)
  {
    && (c.Holding? || c.Collected? ==> stage == Landed)
    && (c.Collected? ==> FreshExec(c.x, exec))
  }

  predicate WorkerOk(plan: Plan, gate: nat, chain: Chain, init: Init, exec: Exec, stage: Stage, worker: Option<Worker>)
    requires gate < |plan.gates|
  {
    worker.Some? ==>
      && PcOk(plan, gate, chain, init, exec, stage, worker.value.pc)
      && CollectorOk(exec, stage, worker.value.collector)
      && (Reserves(worker.value.pc) ==> worker.value.collector.Quiet?)
  }

  // ---------------------------------------------------------------------------
  // Scheduler reconciles

  predicate FreshInit(i: Init, init: Init)
  {
    i.version <= init.version && (i.version == init.version ==> i == init)
  }

  ghost predicate SampleCovered(plan: Plan, init: Init, x: Exec)
  {
    x.armed.None? && x.observation.Some? ==>
      forall w: Wallet :: Tracked(plan, w) ==>
        Count(x.observation.value, w) <= Outputs(Credited(plan, init, x).funded, w)
  }

  ghost predicate LookOk(plan: Plan, init: Init, exec: Exec, look: Look)
  {
    && FreshInit(look.init, init)
    && SoundIf(plan, look.init.offer)
    && (look.Both? ==> FreshExec(look.exec, exec))
    && (look.Both? && look.init.version == init.version ==>
          && (Pending(init, look.exec) ==> look.exec.receipt == exec.receipt && look.exec.completed == exec.completed)
          && SampleCovered(plan, init, look.exec))
  }

  ghost predicate LooksOk(plan: Plan, init: Init, exec: Exec, looks: map<nat, Look>)
  {
    forall k :: k in looks ==> LookOk(plan, init, exec, looks[k])
  }

  ghost predicate Inv(plan: Plan, s: State)
  {
    && Frozen(plan)
    && Slots(plan, s.gate, s.chain, s.init, s.exec, s.stage)
    && Books(plan, s.chain, s.init, s.exec, s.stage)
    && WorkerOk(plan, s.gate, s.chain, s.init, s.exec, s.stage, s.worker)
    && LooksOk(plan, s.init, s.exec, s.looks)
  }

  // ---------------------------------------------------------------------------
  // Crediting

  /** What crediting relies on: the receipt is the last completed offer and its share still fits. */
  predicate Creditable(plan: Plan, init: Init, x: Exec, w: Wallet)
  {
    Pending(init, x) ==>
      && x.receipt.value.offer.number == x.completed && Sound(plan, x.receipt.value.offer)
      && Outputs(init.funded, w) + Share(w, x.receipt) <= plan.outputs
  }

  /** Crediting an uncredited receipt moves exactly its share into the counters. */
  lemma CreditedCounts(plan: Plan, init: Init, x: Exec, w: Wallet)
    requires Frozen(plan) && Tracked(plan, w) && Creditable(plan, init, x, w)
    ensures Outputs(Credited(plan, init, x).funded, w) ==
            Outputs(init.funded, w) + (if Pending(init, x) then Share(w, x.receipt) else 0)
    ensures Pending(Credited(plan, init, x), x) ==> Share(w, x.receipt) == 0
  {
    if Pending(init, x) {
      var o := x.receipt.value.offer;
      CreditAdds(init.funded, o.wallet, OfferBlocks(o.count), w);
    }
  }

  /** The counters' cursor never moves back, and never past the completed offer. */
  lemma CreditedAdvances(plan: Plan, init: Init, x: Exec)
    ensures init.lastAccounted <= Credited(plan, init, x).lastAccounted
    ensures Credited(plan, init, x).lastAccounted <= Max(init.lastAccounted, x.completed)
    ensures !Pending(init, x) ==> Credited(plan, init, x) == init
    ensures Credited(plan, init, x) == init.(funded := Credited(plan, init, x).funded, lastAccounted := Credited(plan, init, x).lastAccounted)
  {
  }

  lemma ReceiptIsCreditable(plan: Plan, s: State, x: Exec, w: Wallet)
    requires Inv(plan, s) && Tracked(plan, w)
    requires Pending(s.init, x) ==> x.receipt == s.exec.receipt && x.completed == s.exec.completed
    ensures Creditable(plan, s.init, x, w)
  {
  }

  /** Reading the execution under the same initialization covers the sample that was read. */
  lemma ReadExecCovers(plan: Plan, s: State)
    requires Inv(plan, s)
    ensures SampleCovered(plan, s.init, s.exec)
  {
    if s.exec.armed.None? && s.exec.observation.Some? {
      var seen := s.exec.observation.value;
      forall w: Wallet | Tracked(plan, w)
        ensures Count(seen, w) <= Outputs(Credited(plan, s.init, s.exec).funded, w)
      {
        ReceiptIsCreditable(plan, s, s.exec, w);
        CreditedCounts(plan, s.init, s.exec, w);
        CountOfPrefix(s.chain, |seen|, w);
        assert seen == s.chain[..|seen|];
      }
    }
  }

  // ---------------------------------------------------------------------------
  // Scheduler writes

  /** Settling keeps the books: what leaves the receipt enters the counters. */
  lemma SettleBalances(plan: Plan, s: State, k: nat)
    requires Inv(plan, s) && k in s.looks && s.looks[k].Both? && s.looks[k].init.version == s.init.version
    ensures var r := Credited(plan, s.init, s.looks[k].exec);
      && Books(plan, s.chain, r, s.exec, s.stage)
      && s.init.lastAccounted <= r.lastAccounted <= s.exec.completed
      && s.looks[k].init == s.init
  {
    var x := s.looks[k].exec;
    assert LookOk(plan, s.init, s.exec, s.looks[k]);
    CreditedAdvances(plan, s.init, x);
    var r := Credited(plan, s.init, x);
    if Pending(s.init, x) {
      forall w: Wallet | Tracked(plan, w)
        ensures Count(s.chain, w) == Owed(r, s.exec, s.stage, w) && Count(s.chain, w) <= plan.outputs
      {
        ReceiptIsCreditable(plan, s, x, w);
        CreditedCounts(plan, s.init, x, w);
      }
    }
  }

  lemma {:induction false} SelectedIsMiner(plan: Plan, miners: seq<Wallet>, funded: seq<FundingCount>)
    requires forall i :: 0 <= i < |miners| ==> miners[i] in plan.miners
    ensures var c := Select(plan, miners, funded);
      (c.wallet == plan.payout || c.wallet in plan.miners) &&
      (Tracked(plan, c.wallet) ==> 0 < c.remaining)
  {
    if miners != [] {
      SelectedIsMiner(plan, miners[1..], funded);
    }
  }

  /** The offer committed from a covered sample is sound, however stale the sample is. */
  lemma NewOfferIsSound(plan: Plan, init: Init, x: Exec, gate: nat)
    requires Frozen(plan) && gate < |plan.gates|
    requires x.observation.Some? && |x.observation.value| < plan.gates[gate]
    requires 0 < gate ==> init.prepared
    requires forall w: Wallet :: Tracked(plan, w) ==> Count(x.observation.value, w) <= Outputs(init.funded, w)
    ensures Sound(plan, NewOffer(plan, init, x, gate))
  {
    SelectedIsMiner(plan, plan.miners, init.funded);
    var o := NewOffer(plan, init, x, gate);
    if Tracked(plan, o.wallet) {
      assert !init.prepared && gate == 0;
    }
  }

  /** Replacing the initialization by one that balances and has moved on keeps everything. */
  lemma InitMoves(plan: Plan, s: State, init: Init, looks: map<nat, Look>)
    requires Inv(plan, s)
    requires s.init.version < init.version && s.init.lastAccounted <= init.lastAccounted <= s.exec.completed
    requires SoundIf(plan, init.offer)
    requires Books(plan, s.chain, init, s.exec, s.stage)
    requires looks.Keys <= s.looks.Keys && forall k :: k in looks ==> looks[k] == s.looks[k]
    ensures Inv(plan, s.(init := init, looks := looks))
  {
    forall k | k in looks
      ensures LookOk(plan, init, s.exec, looks[k])
    {
      assert LookOk(plan, s.init, s.exec, s.looks[k]);
    }
  }

  lemma SettleKeeps(plan: Plan, s: State, k: nat, prepared: bool)
    requires Inv(plan, s) && SchedulerEnabled(plan, s, k, Settle(prepared))
    ensures Inv(plan, SchedulerApply(plan, s, k, Settle(prepared)))
  {
    SettleBalances(plan, s, k);
    var r := Credited(plan, s.init, s.looks[k].exec);
    CreditedAdvances(plan, s.init, s.looks[k].exec);
    var next := r.(version := r.version + 1, prepared := r.prepared || prepared);
    assert SchedulerApply(plan, s, k, Settle(prepared)) == s.(init := next, looks := s.looks - {k});
    ReplaceInit(plan, s, k, r, next);
  }

  /** Writing what was credited, under a new version and with a sound offer. */
  lemma ReplaceInit(plan: Plan, s: State, k: nat, r: Init, next: Init)
    requires Inv(plan, s)
    requires Books(plan, s.chain, r, s.exec, s.stage) && s.init.lastAccounted <= r.lastAccounted <= s.exec.completed
    requires next.funded == r.funded && next.lastAccounted == r.lastAccounted
    requires s.init.version < next.version && SoundIf(plan, next.offer)
    ensures Inv(plan, s.(init := next, looks := s.looks - {k}))
  {
    SameCounters(plan, s, r, next);
    InitMoves(plan, s, next, s.looks - {k});
  }

  lemma SameCounters(plan: Plan, s: State, r: Init, next: Init)
    requires Books(plan, s.chain, r, s.exec, s.stage)
    requires next.funded == r.funded && next.lastAccounted == r.lastAccounted
    ensures Books(plan, s.chain, next, s.exec, s.stage)
  {
    forall w: Wallet | Tracked(plan, w)
      ensures Count(s.chain, w) == Owed(next, s.exec, s.stage, w) && Count(s.chain, w) <= plan.outputs
    {
      assert Owed(r, s.exec, s.stage, w) == Owed(next, s.exec, s.stage, w);
    }
  }

  lemma CommitKeeps(plan: Plan, s: State, k: nat, gate: nat)
    requires Inv(plan, s) && SchedulerEnabled(plan, s, k, Commit(gate))
    ensures Inv(plan, SchedulerApply(plan, s, k, Commit(gate)))
  {
    SettleBalances(plan, s, k);
    var x := s.looks[k].exec;
    assert LookOk(plan, s.init, s.exec, s.looks[k]);
    CreditedAdvances(plan, s.init, x);
    var r := Credited(plan, s.init, x);
    NewOfferIsSound(plan, r, x, gate);
    ReplaceInit(plan, s, k, r, r.(version := r.version + 1, offer := Some(NewOffer(plan, r, x, gate))));
  }

  // ---------------------------------------------------------------------------
  // Execution writes that free or take no slot

  /** Rewriting only the offer or the observation of the execution keeps everything. */
  lemma ExecRefreshes(plan: Plan, s: State, exec: Exec)
    requires Inv(plan, s)
    requires exec.version == s.exec.version + 1 && exec.armed == s.exec.armed && exec.receipt == s.exec.receipt
    requires exec.completed == s.exec.completed && SoundIf(plan, exec.offer)
    requires exec.observation.Some? ==> exec.observation.value <= s.chain
    ensures Inv(plan, s.(exec := exec))
  {
    forall w: Wallet | Tracked(plan, w)
      ensures Count(s.chain, w) == Owed(s.init, exec, s.stage, w) && Count(s.chain, w) <= plan.outputs
    {
      assert Owed(s.init, exec, s.stage, w) == Owed(s.init, s.exec, s.stage, w);
    }
    forall k | k in s.looks
      ensures LookOk(plan, s.init, exec, s.looks[k])
    {
      assert LookOk(plan, s.init, s.exec, s.looks[k]);
    }
  }

  lemma ReadsKeep(plan: Plan, s: State, k: nat, e: SchedulerMove)
    requires Inv(plan, s) && SchedulerEnabled(plan, s, k, e) && (e.ReadInit? || e.ReadExec? || e.Leave?)
    ensures Inv(plan, SchedulerApply(plan, s, k, e))
  {
    var t := SchedulerApply(plan, s, k, e);
    ReadExecCovers(plan, s);
    forall j | j in t.looks
      ensures LookOk(plan, t.init, t.exec, t.looks[j])
    {
      if j in s.looks {
        assert LookOk(plan, s.init, s.exec, s.looks[j]);
      }
    }
  }

  lemma SchedulerKeeps(plan: Plan, s: State, k: nat, e: SchedulerMove)
    requires Inv(plan, s) && SchedulerEnabled(plan, s, k, e)
    ensures Inv(plan, SchedulerApply(plan, s, k, e))
  {
    match e {
      case Settle(prepared) => SettleKeeps(plan, s, k, prepared);
      case Commit(gate) => CommitKeeps(plan, s, k, gate);
      case Publish =>
        assert LookOk(plan, s.init, s.exec, s.looks[k]);
        ExecRefreshes(plan, s, s.looks[k].exec.(version := s.exec.version + 1, offer := s.looks[k].init.offer));
      case _ => ReadsKeep(plan, s, k, e);
    }
  }

  // ---------------------------------------------------------------------------
  // The worker

  lemma ArmKeeps(plan: Plan, s: State, ack: Ack)
    requires Inv(plan, s) && WorkerEnabled(plan, s, Arm(ack))
    ensures Inv(plan, WorkerApply(plan, s, Arm(ack)))
  {
    var t := WorkerApply(plan, s, Arm(ack));
    forall w: Wallet | Tracked(plan, w)
      ensures Count(t.chain, w) == Owed(t.init, t.exec, t.stage, w) && Count(t.chain, w) <= plan.outputs
    {
      assert Owed(t.init, t.exec, t.stage, w) == Owed(s.init, s.exec, s.stage, w);
    }
    forall k | k in t.looks
      ensures LookOk(plan, t.init, t.exec, t.looks[k])
    {
      assert LookOk(plan, s.init, s.exec, s.looks[k]);
    }
  }

  lemma WithdrawKeeps(plan: Plan, s: State)
    requires Inv(plan, s) && WorkerEnabled(plan, s, Withdraw)
    ensures Inv(plan, WorkerApply(plan, s, Withdraw))
  {
    var t := WorkerApply(plan, s, Withdraw);
    forall w: Wallet | Tracked(plan, w)
      ensures Count(t.chain, w) == Owed(t.init, t.exec, t.stage, w) && Count(t.chain, w) <= plan.outputs
    {
      assert Owed(t.init, t.exec, t.stage, w) == Owed(s.init, s.exec, s.stage, w);
    }
    forall k | k in t.looks
      ensures LookOk(plan, t.init, t.exec, t.looks[k])
    {
      assert LookOk(plan, s.init, s.exec, s.looks[k]);
    }
  }

  /** Accounting moves the landed share into the receipt; the receipt it replaces was credited. */
  lemma AccountKeeps(plan: Plan, s: State, ack: Ack)
    requires Inv(plan, s) && WorkerEnabled(plan, s, Account(ack))
    ensures Inv(plan, WorkerApply(plan, s, Account(ack)))
  {
    var t := WorkerApply(plan, s, Account(ack));
    forall w: Wallet | Tracked(plan, w)
      ensures Count(t.chain, w) == Owed(t.init, t.exec, t.stage, w) && Count(t.chain, w) <= plan.outputs
    {
      assert Owed(t.init, t.exec, t.stage, w) == Owed(s.init, s.exec, s.stage, w);
    }
    forall k | k in t.looks
      ensures LookOk(plan, t.init, t.exec, t.looks[k])
    {
      assert LookOk(plan, s.init, s.exec, s.looks[k]);
    }
  }

  lemma SendKeeps(plan: Plan, s: State)
    requires Inv(plan, s) && WorkerEnabled(plan, s, Send)
    ensures Inv(plan, WorkerApply(plan, s, Send))
  {
    var t := WorkerApply(plan, s, Send);
    forall w: Wallet | Tracked(plan, w)
      ensures Count(t.chain, w) == Owed(t.init, t.exec, t.stage, w) && Count(t.chain, w) <= plan.outputs
    {
      assert Owed(t.init, t.exec, t.stage, w) == Owed(s.init, s.exec, s.stage, w);
    }
  }

  /** The steps that only move the process itself. */
  lemma WalkKeeps(plan: Plan, s: State, e: WorkerMove)
    requires Inv(plan, s) && WorkerEnabled(plan, s, e)
    requires !e.Observe? && !e.Arm? && !e.Withdraw? && !e.Account? && !e.Send?
    ensures Inv(plan, WorkerApply(plan, s, e))
  {
  }

  lemma WorkerKeeps(plan: Plan, s: State, e: WorkerMove)
    requires Inv(plan, s) && WorkerEnabled(plan, s, e)
    ensures Inv(plan, WorkerApply(plan, s, e))
  {
    match e {
      case Observe(height) =>
        ExecRefreshes(plan, s, s.exec.(version := s.exec.version + 1, observation := Some(s.chain[..height])));
      case Arm(ack) => ArmKeeps(plan, s, ack);
      case Withdraw => WithdrawKeeps(plan, s);
      case Account(ack) => AccountKeeps(plan, s, ack);
      case Send => SendKeeps(plan, s);
      case _ => WalkKeeps(plan, s, e);
    }
  }

  /** What a landing adds to the chain is what it adds to the books, and it still fits. */
  lemma LandBalances(plan: Plan, s: State, w: Wallet)
    requires Inv(plan, s) && Enabled(plan, s, Land) && Tracked(plan, w)
    ensures var chain := Mined(s.chain, s.exec.armed.value);
      Count(chain, w) == Owed(s.init, s.exec, Landed, w) && Count(chain, w) <= plan.outputs
  {
    var op := s.exec.armed.value;
    if op.Mine? {
      PaysMore(s.chain, op.offer.wallet, OfferBlocks(op.offer.count), w);
    }
  }

  /** Executing the sent offer lands on the chain it was fenced to. */
  lemma LandKeeps(plan: Plan, s: State)
    requires Inv(plan, s) && Enabled(plan, s, Land)
    ensures Inv(plan, Apply(plan, s, Land))
  {
    var t := Apply(plan, s, Land);
    forall w: Wallet | Tracked(plan, w)
      ensures Count(t.chain, w) == Owed(t.init, t.exec, t.stage, w) && Count(t.chain, w) <= plan.outputs
    {
      LandBalances(plan, s, w);
    }
    assert s.chain <= t.chain;
  }

  lemma OpenGateKeeps(plan: Plan, s: State)
    requires Inv(plan, s) && Enabled(plan, s, OpenGate)
    ensures Inv(plan, Apply(plan, s, OpenGate))
  {
    assert plan.gates[s.gate] < plan.gates[s.gate + 1];
  }

  lemma StepKeeps(plan: Plan, s: State, e: Event)
    requires Inv(plan, s) && Enabled(plan, s, e)
    ensures Inv(plan, Apply(plan, s, e))
  {
    match e {
      case Works(w) => WorkerKeeps(plan, s, w);
      case Schedules(k, m) => SchedulerKeeps(plan, s, k, m);
      case Land => LandKeeps(plan, s);
      case OpenGate => OpenGateKeeps(plan, s);
      case StartWorker =>
      case CrashWorker =>
    }
  }

  lemma {:induction false} RunKeeps(plan: Plan, s: State, events: seq<Event>)
    requires Inv(plan, s) && Run(plan, s, events)
    ensures Inv(plan, After(plan, s, events))
    decreases |events|
  {
    if events != [] {
      StepKeeps(plan, s, events[0]);
      RunKeeps(plan, Apply(plan, s, events[0]), events[1..]);
    }
  }

  lemma StartIsFine(plan: Plan, s: State)
    requires Frozen(plan) && Boot(s)
    ensures Inv(plan, s)
  {
    assert 0 <= plan.gates[0];
  }

  // ---------------------------------------------------------------------------
  // Results

  /**
   * Over every run: the height stays at or below the current gate's ceiling, and each miner wallet other than
   * the payout wallet holds at most the frozen number of outputs, on the chain and in the counters.
   */
  lemma FundingStaysWithinThePlan(plan: Plan, s: State, events: seq<Event>, w: Wallet)
    requires Frozen(plan) && Boot(s) && Run(plan, s, events)
    ensures var t := After(plan, s, events);
      && t.gate < |plan.gates| && |t.chain| <= plan.gates[t.gate]
      && (w in plan.miners && w != plan.payout ==>
            Outputs(t.init.funded, w) <= Count(t.chain, w) <= plan.outputs)
  {
    StartIsFine(plan, s);
    RunKeeps(plan, s, events);
  }

  /**
   * Funding is conserved: the outputs a miner wallet holds on the chain are those credited, plus those in the
   * one retained receipt not credited yet, plus those of the one armed offer that landed unanswered.
   */
  lemma FundingIsConserved(plan: Plan, s: State, events: seq<Event>, w: Wallet)
    requires Frozen(plan) && Boot(s) && Run(plan, s, events)
    requires w in plan.miners && w != plan.payout
    ensures var t := After(plan, s, events);
      Count(t.chain, w) == Owed(t.init, t.exec, t.stage, w)
  {
    StartIsFine(plan, s);
    RunKeeps(plan, s, events);
    assert Tracked(plan, w);
  }

  /** The fence: an offer that can still execute expects exactly the chain that is there. */
  lemma ArmedOffersExpectTheChain(plan: Plan, s: State, events: seq<Event>)
    requires Frozen(plan) && Boot(s) && Run(plan, s, events)
    ensures var t := After(plan, s, events);
      t.exec.armed.Some? && t.exec.armed.value.Mine? && t.stage != Landed ==> t.exec.armed.value.offer.tip == t.chain
  {
    StartIsFine(plan, s);
    RunKeeps(plan, s, events);
  }
}
