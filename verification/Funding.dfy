/**
 * Bootstrap funding as a transition system: schedulers commit and publish offers, one live worker process
 * arms, sends and accounts them, and Core executes what was sent, possibly long after the sender died.
 *
 * The chain moves only by executing sent offers. Scheduler reconciles interleave freely, read the
 * initialization first and the execution later, and write only onto unchanged versions. A worker may crash
 * anywhere and be replaced. Observations may be arbitrarily stale prefixes of the chain.
 */
module Funding {
  import opened Common
  import opened Bootstrap

  datatype Op = WalletOp | Mine(offer: Offer)

  datatype Init = Init(version: nat, offer: Option<Offer>, lastAccounted: int, funded: seq<FundingCount>, prepared: bool)

  datatype Exec = Exec(
    version: nat,
    offer: Option<Offer>,
    armed: Option<Op>,
    receipt: Option<Op>,
    completed: int,
    observation: Option<Chain>)

  /** What became of the armed operation; history, not a stored field. */
  datatype Stage = Unsent | Flying | Landed

  datatype Pc =
    | Idle
    | Fetched(x: Exec)
    | Checked(x: Exec)
    | Drafted(op: Op)
    | Reading(op: Op, x: Exec)
    | Admitted(op: Op, x: Exec)
    | Preflighted(op: Op, x: Exec)
    | Written(op: Op)
    | Confirmed(op: Op)

  datatype Collector = Quiet | Sending(op: Op) | Holding(op: Op) | Collected(op: Op, x: Exec)

  datatype Worker = Worker(pc: Pc, collector: Collector)

  /** One scheduler reconcile: the initialization it read, then also the target's execution. */
  datatype Look = Holds(init: Init) | Both(init: Init, exec: Exec)

  datatype State = State(
    chain: Chain,
    gate: nat,
    init: Init,
    exec: Exec,
    stage: Stage,
    worker: Option<Worker>,
    looks: map<nat, Look>)

  predicate Boot(s: State)
  {
    s == State([], 0, Init(0, None, 0, [], false), Exec(0, None, None, None, 0, None), Unsent, None, map[])
  }

  // ---------------------------------------------------------------------------
  // Decisions

  /** generationAccounted: an offer's receipt holds the slot until the initialization has credited it. */
  predicate GenerationAccounted(init: Init, exec: Exec)
  {
    exec.receipt.Some? && exec.receipt.value.Mine? ==> exec.completed <= init.lastAccounted
  }

  /** The initialization after a reconcile has credited the receipt it read. */
  function Credited(plan: Plan, init: Init, exec: Exec): (r: Init)
  {
    if exec.receipt.Some? && exec.receipt.value.Mine? then
      var o := exec.receipt.value.offer;
      match AccountOffer(plan, init.funded, init.lastAccounted, exec.completed, o)
      case None => init
      case Some(funded) => init.(funded := funded, lastAccounted := o.number)
    else init
  }

  /** authorizeOffer's comparison with the committed offer and the current frozen ceiling. */
  predicate OfferCurrent(plan: Plan, s: State, op: Op)
  {
    op.Mine? ==>
      && s.init.offer == Some(op.offer) && 1 <= op.offer.number && CountAuthorized(plan, op.offer)
      && s.gate < |plan.gates| && op.offer.ceiling == plan.gates[s.gate]
  }

  const MAX_INT64 := 0x7fff_ffff_ffff_ffff

  /** Numbers only grow past everything the reconcile can see. */
  function NextNumber(init: Init, exec: Exec): (n: int)
    ensures init.lastAccounted < n && exec.completed < n
  {
    var base := Max(init.lastAccounted, exec.completed);
    var held := if init.offer.Some? then Max(base, init.offer.value.number) else base;
    (if exec.offer.Some? then Max(held, exec.offer.value.number) else held) + 1
  }

  /** The offer a reconcile commits from the counters it just credited and the sample it read. */
  function NewOffer(plan: Plan, init: Init, exec: Exec, gate: nat): (o: Offer)
    requires gate < |plan.gates| && exec.observation.Some? && |exec.observation.value| < plan.gates[gate]
  {
    var choice := if init.prepared then Choice(plan.payout, 0) else Select(plan, plan.miners, init.funded);
    var tip := exec.observation.value;
    var count := if gate == 0 then BootstrapBatch(plan, |tip|, plan.gates[gate], choice.remaining) else 0;
    Offer(NextNumber(init, exec), choice.wallet, count, tip, plan.gates[gate])
  }

  // ---------------------------------------------------------------------------
  // Events

  datatype Ack = Received | Lost

  datatype WorkerMove =
    | Observe(height: nat)
    | Fetch
    | Check
    | Draft(op: Op)
    | Reread
    | Admit
    | Preflight
    | Arm(ack: Ack)
    | Confirm
    | Withdraw
    | Send
    | Respond
    | Collect
    | Account(ack: Ack)
    | Forget
    | Abandon

  datatype SchedulerMove =
    | ReadInit
    | ReadExec
    | Settle(prepared: bool)
    | Commit(gate: nat)
    | Publish
    | Leave

  datatype Event =
    | Works(w: WorkerMove)
    | Schedules(k: nat, m: SchedulerMove)
    | StartWorker
    | CrashWorker
    | Land
    | OpenGate

  predicate WorkerEnabled(plan: Plan, s: State, e: WorkerMove)
  {
    s.worker.Some? &&
    var pc := s.worker.value.pc;
    var c := s.worker.value.collector;
    match e
    case Observe(height) => height <= |s.chain|
    case Fetch => pc.Idle?
    case Check => pc.Fetched? && pc.x.armed.None? && GenerationAccounted(s.init, pc.x)
    case Draft(op) =>
      && pc.Checked? && c.Quiet? && OfferCurrent(plan, s, op)
      && (op.Mine? ==> pc.x.offer == Some(op.offer) && pc.x.completed < op.offer.number)
    case Reread => pc.Drafted? && s.exec.armed.None?
    case Admit =>
      && pc.Reading? && OfferCurrent(plan, s, pc.op)
      && (pc.op.Mine? ==> pc.x.offer == Some(pc.op.offer) && pc.x.completed < pc.op.offer.number)
    case Preflight =>
      && pc.Admitted?
      && (pc.op.Mine? ==>
            && s.chain == pc.op.offer.tip && |s.chain| < pc.op.offer.ceiling
            && OfferBlocks(pc.op.offer.count) <= pc.op.offer.ceiling - |s.chain|)
    case Arm(_) => pc.Preflighted? && pc.x.version == s.exec.version
    case Confirm => pc.Written? && OfferCurrent(plan, s, pc.op)
    case Withdraw => (pc.Written? || pc.Confirmed?) && s.exec.armed == Some(pc.op)
    case Send => pc.Confirmed?
    case Respond => c.Sending? && s.stage == Landed
    case Collect => c.Holding?
    case Account(_) => c.Collected? && c.x.version == s.exec.version && c.x.armed == Some(c.op)
    case Forget => !c.Quiet?
    case Abandon => true
  }

  function WithPc(s: State, pc: Pc): (t: State)
    requires s.worker.Some?
  {
    s.(worker := Some(s.worker.value.(pc := pc)))
  }

  function WithCollector(s: State, c: Collector): (t: State)
    requires s.worker.Some?
  {
    s.(worker := Some(s.worker.value.(collector := c)))
  }

  /** The execution after account: receipt, freed slot and cursor in one write. */
  function Answered(x: Exec, op: Op): (r: Exec)
  {
    x.(version := x.version + 1, armed := None, receipt := Some(op),
       completed := if op.Mine? then op.offer.number else x.completed)
  }

  function WorkerApply(plan: Plan, s: State, e: WorkerMove): (t: State)
    requires WorkerEnabled(plan, s, e)
  {
    var pc := s.worker.value.pc;
    var c := s.worker.value.collector;
    match e
    case Observe(height) => s.(exec := s.exec.(version := s.exec.version + 1, observation := Some(s.chain[..height])))
    case Fetch => WithPc(s, Fetched(s.exec))
    case Check => WithPc(s, Checked(pc.x))
    case Draft(op) => WithPc(s, Drafted(op))
    case Reread => WithPc(s, Reading(pc.op, s.exec))
    case Admit => WithPc(s, Admitted(pc.op, pc.x))
    case Preflight => WithPc(s, Preflighted(pc.op, pc.x))
    case Arm(ack) =>
      WithPc(s, if ack.Received? then Written(pc.op) else Idle)
        .(exec := pc.x.(version := pc.x.version + 1, armed := Some(pc.op)), stage := Unsent)
    case Confirm => WithPc(s, Confirmed(pc.op))
    case Withdraw => WithPc(s, Idle).(exec := s.exec.(version := s.exec.version + 1, armed := None))
    case Send => s.(worker := Some(Worker(Idle, Sending(pc.op))), stage := Flying)
    case Respond => WithCollector(s, Holding(c.op))
    case Collect => WithCollector(s, Collected(c.op, s.exec))
    case Account(ack) => WithCollector(s, if ack.Received? then Quiet else Holding(c.op)).(exec := Answered(c.x, c.op))
    case Forget => WithCollector(s, Quiet)
    case Abandon => WithPc(s, Idle)
  }

  predicate SchedulerEnabled(plan: Plan, s: State, k: nat, e: SchedulerMove)
  {
    match e
    case ReadInit => k !in s.looks
    case ReadExec => k in s.looks && s.looks[k].Holds?
    case Settle(prepared) =>
      && k in s.looks && s.looks[k].Both? && s.looks[k].init.version == s.init.version
      && (prepared ==> s.looks[k].exec.observation.Some? && |s.looks[k].exec.observation.value| == plan.minimum)
    case Commit(gate) =>
      && k in s.looks && s.looks[k].Both? && s.looks[k].init.version == s.init.version
      && gate <= s.gate && gate < |plan.gates| && (0 < gate ==> s.looks[k].init.prepared)
      && var x := s.looks[k].exec;
         x.armed.None? && x.observation.Some? && |x.observation.value| < plan.gates[gate] &&
         NextNumber(Credited(plan, s.looks[k].init, x), x) <= MAX_INT64
    case Publish =>
      && k in s.looks && s.looks[k].Both? && s.looks[k].exec.version == s.exec.version
      && s.looks[k].init.offer.Some? && s.looks[k].exec.armed.None?
      && s.looks[k].exec.observation == Some(s.looks[k].init.offer.value.tip)
      && Credited(plan, s.looks[k].init, s.looks[k].exec).lastAccounted < s.looks[k].init.offer.value.number
    case Leave => true
  }

  function SchedulerApply(plan: Plan, s: State, k: nat, e: SchedulerMove): (t: State)
    requires SchedulerEnabled(plan, s, k, e)
  {
    match e
    case ReadInit => s.(looks := s.looks[k := Holds(s.init)])
    case ReadExec => s.(looks := s.looks[k := Both(s.looks[k].init, s.exec)])
    case Settle(prepared) =>
      var r := Credited(plan, s.looks[k].init, s.looks[k].exec);
      s.(init := r.(version := r.version + 1, prepared := r.prepared || prepared), looks := s.looks - {k})
    case Commit(gate) =>
      var r := Credited(plan, s.looks[k].init, s.looks[k].exec);
      s.(init := r.(version := r.version + 1, offer := Some(NewOffer(plan, r, s.looks[k].exec, gate))), looks := s.looks - {k})
    case Publish =>
      s.(exec := s.looks[k].exec.(version := s.exec.version + 1, offer := s.looks[k].init.offer))
    case Leave => s.(looks := s.looks - {k})
  }

  predicate Enabled(plan: Plan, s: State, e: Event)
  {
    match e
    case Works(w) => WorkerEnabled(plan, s, w)
    case Schedules(k, m) => SchedulerEnabled(plan, s, k, m)
    case StartWorker => s.worker.None?
    case CrashWorker => s.worker.Some?
    case Land => s.stage == Flying && s.exec.armed.Some?
    case OpenGate => s.gate + 1 < |plan.gates|
  }

  /** The blocks an executed operation adds. */
  function Mined(chain: Chain, op: Op): (r: Chain)
  {
    if op.Mine? then chain + Repeat(op.offer.wallet, OfferBlocks(op.offer.count)) else chain
  }

  function Apply(plan: Plan, s: State, e: Event): (t: State)
    requires Enabled(plan, s, e)
  {
    match e
    case Works(w) => WorkerApply(plan, s, w)
    case Schedules(k, m) => SchedulerApply(plan, s, k, m)
    case StartWorker => s.(worker := Some(Worker(Idle, Quiet)))
    case CrashWorker => s.(worker := None)
    case Land => s.(chain := Mined(s.chain, s.exec.armed.value), stage := Landed)
    case OpenGate => s.(gate := s.gate + 1)
  }

  ghost predicate Run(plan: Plan, s: State, events: seq<Event>)
    decreases |events|
  {
    if events == [] then true
    else Enabled(plan, s, events[0]) && Run(plan, Apply(plan, s, events[0]), events[1..])
  }

  ghost function After(plan: Plan, s: State, events: seq<Event>): (t: State)
    requires Run(plan, s, events)
    decreases |events|
  {
    if events == [] then s else After(plan, Apply(plan, s, events[0]), events[1..])
  }
}
