/** The permission model, the task state machine, and RiskGate.evaluate. */
module RiskGate {

  datatype TaskState = DRAFT | SIMULATED | APPROVAL_REQUIRED | APPROVED | EXECUTING | SUCCEEDED | FAILED | REVOKED

  /** ALLOWED_TRANSITIONS */
  function Transitions(s: TaskState): set<TaskState> {
    match s
    case DRAFT => {SIMULATED, REVOKED}
    case SIMULATED => {APPROVAL_REQUIRED, REVOKED}
    case APPROVAL_REQUIRED => {APPROVED, REVOKED}
    case APPROVED => {EXECUTING, REVOKED}
    case EXECUTING => {SUCCEEDED, FAILED}
    case SUCCEEDED => {REVOKED}
    case FAILED => {APPROVED, REVOKED}
    case REVOKED => {}
  }

  /** require_transition does not raise. */
  predicate Edge(from: TaskState, target: TaskState) {
    target in Transitions(from)
  }

  /** MAIN RESULT. Execution starts from APPROVED and ends in SUCCEEDED or FAILED, and only so; approval comes from a
      request for it or is renewed after a failure; everything but a running execution can be revoked, for good. */
  lemma EdgeIff(from: TaskState, target: TaskState)
    ensures Edge(from, target) <==>
            || (from, target) == (DRAFT, SIMULATED) || (from, target) == (SIMULATED, APPROVAL_REQUIRED)
            || (target == APPROVED && (from == APPROVAL_REQUIRED || from == FAILED))
            || (target == EXECUTING && from == APPROVED)
            || (from == EXECUTING && (target == SUCCEEDED || target == FAILED))
            || (target == REVOKED && from != EXECUTING && from != REVOKED)
  {
  }

  datatype Mode = DEMO | BSC_TESTNET | BSC_MAINNET

  datatype Source = LIVE_ONCHAIN | VERIFIED_HISTORICAL | TESTNET_EVIDENCE
      | BENCHMARK_GENERATED | DEMO_FIXTURE | SELF_REPORTED

  datatype Policy = Policy(
    owner: string, agentId: string, chainId: int, targets: seq<string>, methods: seq<string>,
    maxValue: real, dailyValue: real, maxSlippage: int, expiresAt: int, requireApproval: bool, revoked: bool)

  datatype Intent = Intent(
    taskId: string, key: string, agentId: string, chainId: int, target: string, methodName: string, value: real,
    slippage: int, deadline: int, mode: Mode, simulationPassed: bool, humanApproved: bool, source: Source)

  /** The gate's settings: str.lower and the mainnet switch. */
  datatype Gate = Gate(lower: string -> string, allowMainnet: bool)

  /** What the gate reads while it decides. */
  datatype Readings = Readings(now: int, killed: bool, spentToday: real, keySeen: bool)

  datatype Reason =
    | KillSwitchEnabled | PolicyRevoked | PolicyExpired | DeadlineExpired | AgentNotAuthorized | ChainNotAuthorized
    | UnsupportedChain | MainnetDisabled | TargetNotAllowlisted | MethodNotAllowlisted | NegativeValue
    | TransactionCapExceeded | DailyCapExceeded | SlippageCapExceeded | SimulationRequired | ApprovalRequired
    | KeyRequired | DuplicateKey | FixtureOnChain | ModeChainMismatch

  predicate Listed(g: Gate, x: string, allowed: seq<string>) {
    exists i | 0 <= i < |allowed| :: g.lower(allowed[i]) == g.lower(x)
  }

  /** When each reason is given. */
  predicate Violated(g: Gate, x: Reason, i: Intent, p: Policy, r: Readings) {
    match x
    case KillSwitchEnabled => r.killed
    case PolicyRevoked => p.revoked
    case PolicyExpired => r.now >= p.expiresAt
    case DeadlineExpired => i.deadline <= r.now
    case AgentNotAuthorized => i.agentId != p.agentId
    case ChainNotAuthorized => i.chainId != p.chainId
    case UnsupportedChain => i.chainId != 56 && i.chainId != 97
    case MainnetDisabled => i.chainId == 56 && !g.allowMainnet
    case TargetNotAllowlisted => !Listed(g, i.target, p.targets)
    case MethodNotAllowlisted => !Listed(g, i.methodName, p.methods)
    case NegativeValue => i.value < 0.0
    case TransactionCapExceeded => i.value > p.maxValue
    case DailyCapExceeded => r.spentToday + i.value > p.dailyValue
    case SlippageCapExceeded => i.slippage > p.maxSlippage
    case SimulationRequired => !i.simulationPassed
    case ApprovalRequired => p.requireApproval && !i.humanApproved
    case KeyRequired => i.key == ""
    case DuplicateKey => i.key != "" && r.keySeen
    case FixtureOnChain => i.source == DEMO_FIXTURE && i.mode != DEMO
    case ModeChainMismatch => (i.mode == BSC_MAINNET && i.chainId != 56) || (i.mode == BSC_TESTNET && i.chainId != 97)
  }

  /** The decision as one condition over the whole intent. */
  ghost predicate Authorised(g: Gate, i: Intent, p: Policy, r: Readings) {
    && !r.killed && !p.revoked && r.now < p.expiresAt && r.now < i.deadline
    && i.agentId == p.agentId && i.chainId == p.chainId
    && (i.chainId == 97 || (i.chainId == 56 && g.allowMainnet))
    && Listed(g, i.target, p.targets) && Listed(g, i.methodName, p.methods)
    && 0.0 <= i.value <= p.maxValue && r.spentToday + i.value <= p.dailyValue && i.slippage <= p.maxSlippage
    && i.simulationPassed && (p.requireApproval ==> i.humanApproved)
    && i.key != "" && !r.keySeen
    && (i.mode == DEMO || (i.source != DEMO_FIXTURE && i.chainId == if i.mode == BSC_MAINNET then 56 else 97))
  }

  lemma AuthorisedIff(g: Gate, i: Intent, p: Policy, r: Readings)
    ensures Authorised(g, i, p, r) <==> forall x :: !Violated(g, x, i, p, r)
  {
    if forall x :: !Violated(g, x, i, p, r) {
      assert !Violated(g, KillSwitchEnabled, i, p, r) && !Violated(g, PolicyRevoked, i, p, r)
             && !Violated(g, PolicyExpired, i, p, r) && !Violated(g, DeadlineExpired, i, p, r)
             && !Violated(g, AgentNotAuthorized, i, p, r) && !Violated(g, ChainNotAuthorized, i, p, r)
             && !Violated(g, UnsupportedChain, i, p, r) && !Violated(g, MainnetDisabled, i, p, r)
             && !Violated(g, TargetNotAllowlisted, i, p, r) && !Violated(g, MethodNotAllowlisted, i, p, r)
             && !Violated(g, NegativeValue, i, p, r) && !Violated(g, TransactionCapExceeded, i, p, r)
             && !Violated(g, DailyCapExceeded, i, p, r) && !Violated(g, SlippageCapExceeded, i, p, r)
             && !Violated(g, SimulationRequired, i, p, r) && !Violated(g, ApprovalRequired, i, p, r)
             && !Violated(g, KeyRequired, i, p, r) && !Violated(g, DuplicateKey, i, p, r)
             && !Violated(g, FixtureOnChain, i, p, r) && !Violated(g, ModeChainMismatch, i, p, r);
    }
  }

  function Check(reasons: seq<Reason>, x: Reason, g: Gate, i: Intent, p: Policy, r: Readings): (all: seq<Reason>)
    ensures forall y :: y in all <==> y in reasons || (y == x && Violated(g, x, i, p, r))
  {
    if Violated(g, x, i, p, r) then reasons + [x] else reasons
  }

  /** evaluate(): collect every violated condition; allow when there is none. */
  method Evaluate(g: Gate, i: Intent, p: Policy, r: Readings) returns (allowed: bool, reasons: seq<Reason>)
    ensures allowed <==> Authorised(g, i, p, r)
    ensures forall x :: x in reasons <==> Violated(g, x, i, p, r)
  {
    hide Violated, Check, Authorised;
    reasons := [];
    reasons := Check(reasons, KillSwitchEnabled, g, i, p, r);
    reasons := Check(reasons, PolicyRevoked, g, i, p, r);
    reasons := Check(reasons, PolicyExpired, g, i, p, r);
    reasons := Check(reasons, DeadlineExpired, g, i, p, r);
    reasons := Check(reasons, AgentNotAuthorized, g, i, p, r);
    reasons := Check(reasons, ChainNotAuthorized, g, i, p, r);
    reasons := Check(reasons, UnsupportedChain, g, i, p, r);
    reasons := Check(reasons, MainnetDisabled, g, i, p, r);
    reasons := Check(reasons, TargetNotAllowlisted, g, i, p, r);
    reasons := Check(reasons, MethodNotAllowlisted, g, i, p, r);
    reasons := Check(reasons, NegativeValue, g, i, p, r);
    reasons := Check(reasons, TransactionCapExceeded, g, i, p, r);
    reasons := Check(reasons, DailyCapExceeded, g, i, p, r);
    reasons := Check(reasons, SlippageCapExceeded, g, i, p, r);
    reasons := Check(reasons, SimulationRequired, g, i, p, r);
    reasons := Check(reasons, ApprovalRequired, g, i, p, r);
    reasons := Check(reasons, KeyRequired, g, i, p, r);
    reasons := Check(reasons, DuplicateKey, g, i, p, r);
    reasons := Check(reasons, FixtureOnChain, g, i, p, r);
    reasons := Check(reasons, ModeChainMismatch, g, i, p, r);
    allowed := reasons == [];
    NoReasons(reasons, g, i, p, r);
  }

  lemma NoReasons(reasons: seq<Reason>, g: Gate, i: Intent, p: Policy, r: Readings)
    requires forall x :: x in reasons <==> Violated(g, x, i, p, r)
    ensures reasons == [] <==> Authorised(g, i, p, r)
  {
    hide Violated, Authorised;
    AuthorisedIff(g, i, p, r);
    if reasons != [] {
      assert reasons[0] in reasons;
    }
  }
}
