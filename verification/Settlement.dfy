/**
Settlement of a start whose outcome is unknown: evidence validation, the pinned evaluation order,
the write-once settlement record, and the plane that applies the classifier's disposition.
*/
module Settlement {
  import opened Wrappers
  import opened ByteStrings
  import opened ByteOrder

  const START_MAX_EVIDENCE_AGE_NS: nat := 24 * 60 * 60 * 1_000_000_000

  datatype CanisterStatus = Running | Stopping | Stopped

  datatype TerminalOutcome = ExecutedOutcome | FailedOutcome

  datatype ActionOutcome = Pending | Executing | Executed | Failed | OutcomeUnknown | Cancelled | Expired

  datatype EvidenceRejection = WrongPrincipal | WrongControllers | PredatesIntent | FutureEvidence | EvidenceTooOld

  /** What is hashed: the timestamp belongs to the exact identity only. */
  datatype Preimage =
    | SemanticV1(target: Principal, status: CanisterStatus, controllers: seq<Bytes>)
    | CommitmentV1(target: Principal, status: CanisterStatus, controllers: seq<Bytes>, at: nat)

  type Digest = Preimage -> Bytes

  datatype Evidence = Evidence(target: Principal, status: CanisterStatus, controllers: seq<Bytes>, observedAt: nat) {
    function SemanticKey(d: Digest): Bytes {
      d(SemanticV1(target, status, Canonical(controllers)))
    }

    function Commitment(d: Digest): Bytes {
      d(CommitmentV1(target, status, Canonical(controllers), observedAt))
    }

    function MapsTo(): Option<TerminalOutcome> {
      match status
      case Running => Some(ExecutedOutcome)
      case Stopped => Some(FailedOutcome)
      case Stopping => None
    }
  }

  datatype StartIntent = StartIntent(target: Principal, epoch: nat, intentAt: nat)

  datatype SettlementRecord = SettlementRecord(
    outcome: TerminalOutcome,
    semanticKey: Bytes,
    commitment: Bytes,
    observedAt: nat,
    conflictRecorded: bool)
  {
    /** The four pinned fields and the outcome, without the one-shot bit. */
    function Pinned(): (TerminalOutcome, Bytes, Bytes, nat) {
      (outcome, semanticKey, commitment, observedAt)
    }
  }

  function Settle(d: Digest, outcome: TerminalOutcome, e: Evidence): SettlementRecord {
    SettlementRecord(outcome, e.SemanticKey(d), e.Commitment(d), e.observedAt, false)
  }

  datatype Conflict = Conflict(
    proposalId: nat,
    storedOutcome: TerminalOutcome,
    storedSemanticKey: Bytes,
    storedCommitment: Bytes,
    replayMapped: TerminalOutcome,
    replaySemanticKey: Bytes,
    replayCommitment: Bytes,
    replayObservedAt: nat)

  function NewConflict(proposalId: nat, d: Digest, stored: SettlementRecord, replay: Evidence, mapped: TerminalOutcome): Conflict {
    Conflict(proposalId, stored.outcome, stored.semanticKey, stored.commitment, mapped,
             replay.SemanticKey(d), replay.Commitment(d), replay.observedAt)
  }

  // ---------- evidence validation ----------

  function ValidateEvidence(e: Evidence, intent: StartIntent, required: seq<Bytes>, now: nat): Result<(), EvidenceRejection> {
    if e.target != intent.target then Err(WrongPrincipal)
    else if Canonical(e.controllers) != Canonical(required) then Err(WrongControllers)
    else if e.observedAt < intent.intentAt then Err(PredatesIntent)
    else if e.observedAt > now then Err(FutureEvidence)
    else if SatSub(now, e.observedAt) > START_MAX_EVIDENCE_AGE_NS then Err(EvidenceTooOld)
    else Ok(())
  }

  /** Timely evidence about this target from exactly the required controllers, at most 24 hours old. */
  predicate Acceptable(e: Evidence, intent: StartIntent, required: seq<Bytes>, now: nat) {
    && e.target == intent.target && Elements(e.controllers) == Elements(required)
    && intent.intentAt <= e.observedAt <= now && now - e.observedAt <= 86_400_000_000_000
  }

  lemma AcceptsExactly(e: Evidence, intent: StartIntent, required: seq<Bytes>, now: nat)
    ensures ValidateEvidence(e, intent, required, now).Ok? <==> Acceptable(e, intent, required, now)
  {
    CanonicalIsTheSet(e.controllers, required);
  }

  method ValidateStartEvidence(e: Evidence, intent: StartIntent, required: seq<Bytes>, now: nat)
    returns (r: Result<(), EvidenceRejection>)
    ensures r == ValidateEvidence(e, intent, required, now)
    ensures r.Ok? <==> Acceptable(e, intent, required, now)
    ensures r == Err(WrongPrincipal) <==> e.target != intent.target
    ensures r == Err(WrongControllers) <==> e.target == intent.target && Elements(e.controllers) != Elements(required)
    ensures r == Err(PredatesIntent) ==> e.observedAt < intent.intentAt
    ensures r == Err(FutureEvidence) ==> intent.intentAt <= e.observedAt && now < e.observedAt
    ensures r == Err(EvidenceTooOld) ==> intent.intentAt <= e.observedAt && e.observedAt + 86_400_000_000_000 < now
  {
    CanonicalIsTheSet(e.controllers, required);
    if e.target != intent.target {
      return Err(WrongPrincipal);
    }
    var wanted := SortAndDedup(required);
    var observed := SortAndDedup(e.controllers);
    if observed != wanted {
      return Err(WrongControllers);
    }
    if e.observedAt < intent.intentAt {
      return Err(PredatesIntent);
    }
    if e.observedAt > now {
      return Err(FutureEvidence);
    }
    if SatSub(now, e.observedAt) > START_MAX_EVIDENCE_AGE_NS {
      return Err(EvidenceTooOld);
    }
    r := Ok(());
  }

  // ---------- the pinned evaluation order ----------

  datatype SourceState = SourceState(
    outcome: ActionOutcome, intent: StartIntent, settlement: Option<SettlementRecord>, required: seq<Bytes>)

  datatype Disposition =
    | Settles(outcome: TerminalOutcome)
    | Inconclusive
    | ReplayConcordant(stored: TerminalOutcome)
    | ReplayInconclusive(stored: TerminalOutcome)
    | ReplayDiscordant(stored: TerminalOutcome, mapped: TerminalOutcome, capAvailable: bool)

  datatype Rejection = UnknownProposal | IllegalSourceState | EvidenceRejected(reason: EvidenceRejection)

  function Classify(source: Option<SourceState>, e: Evidence, now: nat): Result<Disposition, Rejection> {
    if source.None? then Err(UnknownProposal)
    else
      var s := source.value;
      if s.outcome != OutcomeUnknown && s.settlement.None? then Err(IllegalSourceState)
      else
        var valid := ValidateEvidence(e, s.intent, s.required, now);
        if valid.Err? then Err(EvidenceRejected(valid.error))
        else match s.settlement
          case Some(record) =>
            (match e.MapsTo()
             case None => Ok(ReplayInconclusive(record.outcome))
             case Some(m) =>
               if m == record.outcome then Ok(ReplayConcordant(record.outcome))
               else Ok(ReplayDiscordant(record.outcome, m, !record.conflictRecorded)))
          case None =>
            (match e.MapsTo()
             case Some(o) => Ok(Settles(o))
             case None => Ok(Inconclusive))
  }

  predicate CallbackMayWrite(durable: ActionOutcome) {
    durable == Executing
  }

  /**
  Among valid evidence only the observed status counts: timestamp, order and repetition of the
  controllers change neither the decision nor the identity that is stored for comparison.
  */
  lemma OnlyStatusMatters(d: Digest, source: SourceState, e: Evidence, e': Evidence, now: nat, now': nat)
    requires ValidateEvidence(e, source.intent, source.required, now).Ok?
    requires ValidateEvidence(e', source.intent, source.required, now').Ok?
    requires e.status == e'.status
    ensures Classify(Some(source), e, now) == Classify(Some(source), e', now')
    ensures e.SemanticKey(d) == e'.SemanticKey(d)
    ensures Elements(e.controllers) == Elements(e'.controllers) == Elements(source.required)
  {
    CanonicalIsTheSet(e.controllers, source.required);
    CanonicalIsTheSet(e'.controllers, source.required);
  }

  // ---------- the plane ----------

  datatype Start = Start(intent: StartIntent, settlement: Option<SettlementRecord>)

  datatype Proposal = Proposal(outcome: ActionOutcome, start: Option<Start>)

  /** One start proposal as its plane holds it, and the conflict events audited for it. */
  datatype Plane = Plane(proposal: Option<Proposal>, conflicts: seq<Conflict>)

  /** The proposal's number, the digest in use and the controller ring of its target. */
  datatype Ring = Ring(proposalId: nat, digest: Digest, required: seq<Bytes>)

  function ToAction(o: TerminalOutcome): ActionOutcome {
    match o
    case ExecutedOutcome => Executed
    case FailedOutcome => Failed
  }

  function SourceOf(ring: Ring, p: Plane): Option<SourceState> {
    if p.proposal.None? || p.proposal.value.start.None? then None
    else
      var q := p.proposal.value;
      Some(SourceState(q.outcome, q.start.value.intent, q.start.value.settlement, ring.required))
  }

  /** The plane's part: one atomic write per settling or first discordant disposition, else nothing. */
  function Reconcile(ring: Ring, p: Plane, e: Evidence, now: nat): Plane {
    match Classify(SourceOf(ring, p), e, now)
    case Err(_) => p
    case Ok(Settles(o)) =>
      var q := p.proposal.value;
      p.(proposal := Some(Proposal(ToAction(o), Some(q.start.value.(settlement := Some(Settle(ring.digest, o, e)))))))
    case Ok(ReplayDiscordant(_, m, available)) =>
      if !available then p
      else
        var q := p.proposal.value;
        var record := q.start.value.settlement.value;
        Plane(Some(q.(start := Some(q.start.value.(settlement := Some(record.(conflictRecorded := true)))))),
              p.conflicts + [NewConflict(ring.proposalId, ring.digest, record, e, m)])
    case Ok(_) => p
  }

  datatype Event =
    | Withdraw(expired: bool)
    | Launch(intent: StartIntent)
    | Refuse
    | Callback(succeeded: bool)
    | Sweep
    | Reconciles(evidence: Evidence, now: nat)
    | Prune

  predicate Enabled(p: Plane, e: Event) {
    match e
    case Withdraw(_) => p.proposal.Some? && p.proposal.value.outcome == Pending
    case Launch(_) => p.proposal.Some? && p.proposal.value.outcome == Pending
    case Refuse => p.proposal.Some? && p.proposal.value.outcome == Pending
    case Prune => p.proposal.Some? && p.proposal.value.outcome in {Executed, Failed, Cancelled, Expired}
    case _ => true
  }

  function CallbackStep(p: Plane, succeeded: bool): Plane {
    if p.proposal.Some? && CallbackMayWrite(p.proposal.value.outcome)
    then p.(proposal := Some(p.proposal.value.(outcome := if succeeded then Executed else OutcomeUnknown)))
    else p
  }

  /** The post-upgrade sweep: an executing start becomes an outcome-unknown one. */
  function SweepStep(p: Plane): Plane {
    if p.proposal.Some? && p.proposal.value.start.Some? && p.proposal.value.outcome == Executing
    then p.(proposal := Some(p.proposal.value.(outcome := OutcomeUnknown)))
    else p
  }

  function Step(ring: Ring, p: Plane, e: Event): Plane
    requires Enabled(p, e)
  {
    match e
    case Withdraw(expired) => p.(proposal := Some(p.proposal.value.(outcome := if expired then Expired else Cancelled)))
    case Launch(intent) => p.(proposal := Some(Proposal(Executing, Some(Start(intent, None)))))
    case Refuse => p.(proposal := Some(p.proposal.value.(outcome := Failed)))
    case Callback(ok) => CallbackStep(p, ok)
    case Sweep => SweepStep(p)
    case Reconciles(evidence, now) => Reconcile(ring, p, evidence, now)
    case Prune => p.(proposal := None)
  }

  ghost predicate Run(ring: Ring, ps: seq<Plane>, es: seq<Event>) {
    && |ps| == |es| + 1
    && ps[0] == Plane(Some(Proposal(Pending, None)), [])
    && forall i :: 0 <= i < |es| ==> Enabled(ps[i], es[i]) && ps[i + 1] == Step(ring, ps[i], es[i])
  }

  function Settled(p: Plane): Option<SettlementRecord> {
    if p.proposal.Some? && p.proposal.value.start.Some? then p.proposal.value.start.value.settlement else None
  }

  ghost predicate PlaneInv(p: Plane) {
    && |p.conflicts| <= 1
    && (p.proposal.Some? ==>
          match Settled(p)
          case None => p.conflicts == []
          case Some(r) => p.proposal.value.outcome == ToAction(r.outcome) && (r.conflictRecorded <==> p.conflicts != []))
    && (p.proposal.Some? && p.proposal.value.outcome == Pending ==> p.proposal.value.start.None?)
  }

  lemma {:induction false} RunInv(ring: Ring, ps: seq<Plane>, es: seq<Event>, n: nat)
    requires Run(ring, ps, es) && n < |ps|
    ensures PlaneInv(ps[n])
  {
    if n > 0 {
      RunInv(ring, ps, es, n - 1);
      assert ps[n - 1 + 1] == Step(ring, ps[n - 1], es[n - 1]);
    }
  }

  /** Acceptable evidence of a stopped target against a stored execution, or of a running one against a stored failure. */
  predicate Contrary(ring: Ring, p: Plane, e: Evidence, now: nat) {
    && Settled(p).Some? && Acceptable(e, p.proposal.value.start.value.intent, ring.required, now)
    && (|| (e.status == Stopped && Settled(p).value.outcome == ExecutedOutcome)
        || (e.status == Running && Settled(p).value.outcome == FailedOutcome))
  }

  predicate Discordant(ring: Ring, p: Plane, e: Event) {
    e.Reconciles? && Contrary(ring, p, e.evidence, e.now)
  }

  /** The contrary observation at step `k` is the first one of the run. */
  ghost predicate FirstDiscordant(ring: Ring, ps: seq<Plane>, es: seq<Event>, k: nat)
    requires |ps| == |es| + 1
  {
    && k < |es| && Discordant(ring, ps[k], es[k])
    && forall m :: 0 <= m < k ==> !Discordant(ring, ps[m], es[m])
  }

  /** The event a contrary observation is audited with: what is stored, beside what was observed. */
  function ConflictWith(ring: Ring, stored: SettlementRecord, e: Evidence): Conflict {
    Conflict(ring.proposalId, stored.outcome, stored.semanticKey, stored.commitment,
             if e.status == Running then ExecutedOutcome else FailedOutcome,
             ring.digest(SemanticV1(e.target, e.status, Canonical(e.controllers))),
             ring.digest(CommitmentV1(e.target, e.status, Canonical(e.controllers), e.observedAt)),
             e.observedAt)
  }

  /**
  At most one conflict event exists; one exists exactly when a valid contrary observation was
  replayed, and it records the first such replay beside the settlement it contradicts.
  */
  lemma {:induction false} ConflictExactlyOnce(ring: Ring, ps: seq<Plane>, es: seq<Event>, n: nat)
    requires Run(ring, ps, es) && n < |ps|
    ensures |ps[n].conflicts| <= 1
    ensures ps[n].conflicts != [] <==> exists k :: 0 <= k < n && Discordant(ring, ps[k], es[k])
    ensures ps[n].conflicts != [] ==>
              exists k :: 0 <= k < n && FirstDiscordant(ring, ps, es, k)
                          && ps[n].conflicts == [ConflictWith(ring, Settled(ps[k]).value, es[k].evidence)]
  {
    RunInv(ring, ps, es, n);
    if n > 0 {
      ConflictExactlyOnce(ring, ps, es, n - 1);
      RunInv(ring, ps, es, n - 1);
      assert ps[n - 1 + 1] == Step(ring, ps[n - 1], es[n - 1]);
      ConflictStep(ring, ps[n - 1], es[n - 1]);
      if ps[n - 1].conflicts == [] && ps[n].conflicts != [] {
        assert FirstDiscordant(ring, ps, es, n - 1);
      }
    }
  }

  /** The evidence check of a reconciliation, if this is one of a start. */
  lemma ReconcileAccepts(ring: Ring, p: Plane, e: Event)
    ensures e.Reconciles? && p.proposal.Some? && p.proposal.value.start.Some? ==>
              (ValidateEvidence(e.evidence, p.proposal.value.start.value.intent, ring.required, e.now).Ok?
               <==> Acceptable(e.evidence, p.proposal.value.start.value.intent, ring.required, e.now))
  {
    if e.Reconciles? && p.proposal.Some? && p.proposal.value.start.Some? {
      AcceptsExactly(e.evidence, p.proposal.value.start.value.intent, ring.required, e.now);
    }
  }

  lemma ConflictStep(ring: Ring, p: Plane, e: Event)
    requires PlaneInv(p) && Enabled(p, e)
    ensures Step(ring, p, e).conflicts != [] <==> p.conflicts != [] || Discordant(ring, p, e)
    ensures p.conflicts != [] ==> Step(ring, p, e).conflicts == p.conflicts
    ensures p.conflicts == [] && Discordant(ring, p, e) ==>
              Step(ring, p, e).conflicts == [ConflictWith(ring, Settled(p).value, e.evidence)]
  {
    ReconcileAccepts(ring, p, e);
  }

  /**
  Once settled, the outcome and the four pinned fields never change while the proposal exists, the
  one-shot bit never returns to false, and the durable outcome stays the settled terminal.
  */
  lemma {:induction false} SettledForever(ring: Ring, ps: seq<Plane>, es: seq<Event>, i: nat, j: nat)
    requires Run(ring, ps, es) && i <= j < |ps| && Settled(ps[i]).Some?
    ensures ps[j].proposal.Some? ==>
              && Settled(ps[j]).Some?
              && Settled(ps[j]).value.Pinned() == Settled(ps[i]).value.Pinned()
              && (Settled(ps[i]).value.conflictRecorded ==> Settled(ps[j]).value.conflictRecorded)
              && ps[j].proposal.value.outcome == (if Settled(ps[i]).value.outcome == ExecutedOutcome then Executed else Failed)
    decreases j
  {
    hide Step, Enabled, Acceptable;
    RunInv(ring, ps, es, j);
    if i < j {
      SettledForever(ring, ps, es, i, j - 1);
      RunInv(ring, ps, es, j - 1);
      assert ps[j - 1 + 1] == Step(ring, ps[j - 1], es[j - 1]);
      SettledStep(ring, ps[j - 1], es[j - 1]);
    }
  }

  lemma SettledStep(ring: Ring, p: Plane, e: Event)
    requires PlaneInv(p) && Enabled(p, e)
    ensures p.proposal.None? ==> Step(ring, p, e).proposal.None?
    ensures Settled(p).Some? && Step(ring, p, e).proposal.Some? ==>
              && Settled(Step(ring, p, e)).Some?
              && Settled(Step(ring, p, e)).value.Pinned() == Settled(p).value.Pinned()
              && (Settled(p).value.conflictRecorded ==> Settled(Step(ring, p, e)).value.conflictRecorded)
  {
  }

  /** An unsettled start of unknown outcome, and acceptable evidence that its target is running or stopped. */
  predicate Settling(ring: Ring, p: Plane, e: Evidence, now: nat) {
    && p.proposal.Some? && p.proposal.value.start.Some?
    && p.proposal.value.outcome == OutcomeUnknown && Settled(p).None?
    && Acceptable(e, p.proposal.value.start.value.intent, ring.required, now) && e.status != Stopping
  }

  predicate SettledAt(ring: Ring, p: Plane, e: Event) {
    e.Reconciles? && Settling(ring, p, e.evidence, e.now)
  }

  /** The stored record describes this observation: executed if it was running, failed if it was stopped. */
  predicate Describes(d: Digest, r: SettlementRecord, e: Evidence) {
    && (r.outcome == ExecutedOutcome <==> e.status == Running) && (r.outcome == FailedOutcome <==> e.status == Stopped)
    && r.semanticKey == d(SemanticV1(e.target, e.status, Canonical(e.controllers)))
    && r.commitment == d(CommitmentV1(e.target, e.status, Canonical(e.controllers), e.observedAt))
    && r.observedAt == e.observedAt
  }

  /** Settled by this observation: executed exactly if it was running, failed exactly if it was stopped. */
  predicate SettledBy(ring: Ring, p: Plane, e: Evidence) {
    && Settled(p).Some? && Describes(ring.digest, Settled(p).value, e)
    && (p.proposal.value.outcome == Executed <==> e.status == Running)
    && (p.proposal.value.outcome == Failed <==> e.status == Stopped)
  }

  /** What one reconciliation does: it settles, it audits the first contrary observation, or it changes nothing. */
  predicate ReconciledTo(ring: Ring, p: Plane, e: Evidence, now: nat, p': Plane) {
    if Settling(ring, p, e, now) then
      && SettledBy(ring, p', e) && !Settled(p').value.conflictRecorded && p'.conflicts == p.conflicts
      && p'.proposal.value.start.value.intent == p.proposal.value.start.value.intent
    else if Contrary(ring, p, e, now) && !Settled(p).value.conflictRecorded then
      var start := p.proposal.value.start.value;
      p' == Plane(
        Some(p.proposal.value.(start := Some(start.(settlement := Some(start.settlement.value.(conflictRecorded := true)))))),
        p.conflicts + [ConflictWith(ring, start.settlement.value, e)])
    else p' == p
  }

  lemma ReconcilesExactly(ring: Ring, p: Plane, e: Evidence, now: nat)
    ensures ReconciledTo(ring, p, e, now, Step(ring, p, Reconciles(e, now)))
  {
    hide Acceptable, ValidateEvidence;
    ReconcileAccepts(ring, p, Reconciles(e, now));
  }

  /** A settlement appears only where one is due, and describes the observation that made it. */
  lemma SettlesOnlyOnEvidence(ring: Ring, p: Plane, e: Event)
    requires Enabled(p, e) && Settled(p).None? && Settled(Step(ring, p, e)).Some?
    ensures SettledAt(ring, p, e) && SettledBy(ring, Step(ring, p, e), e.evidence)
  {
    hide Acceptable, SettledBy;
    if e.Reconciles? {
      ReconcilesExactly(ring, p, e.evidence, e.now);
    }
  }

  /**
  Every settlement of every run goes back to one acceptable observation, which its pinned fields
  describe: as long as the proposal exists its durable outcome is executed exactly if the target was
  observed running, and failed exactly if it was observed stopped. A stopping target never settles.
  */
  lemma {:induction false} SettlementHasEvidence(ring: Ring, ps: seq<Plane>, es: seq<Event>, n: nat)
    requires Run(ring, ps, es) && n < |ps| && Settled(ps[n]).Some?
    ensures exists k :: 0 <= k < n && SettledAt(ring, ps[k], es[k]) && SettledBy(ring, ps[n], es[k].evidence)
  {
    hide Step, Enabled, Acceptable;
    assert n > 0;
    RunInv(ring, ps, es, n - 1);
    RunInv(ring, ps, es, n);
    assert Enabled(ps[n - 1], es[n - 1]) && ps[n - 1 + 1] == Step(ring, ps[n - 1], es[n - 1]);
    if Settled(ps[n - 1]).Some? {
      SettlementHasEvidence(ring, ps, es, n - 1);
      SettledStep(ring, ps[n - 1], es[n - 1]);
    } else {
      SettlesOnlyOnEvidence(ring, ps[n - 1], es[n - 1]);
    }
  }

  /** And none is missed: acceptable evidence for an open start settles it, whatever came before. */
  lemma DueSettlementHappens(ring: Ring, ps: seq<Plane>, es: seq<Event>, k: nat, n: nat)
    requires Run(ring, ps, es) && k < n < |ps| && SettledAt(ring, ps[k], es[k])
    ensures ps[n].proposal.Some? ==> SettledBy(ring, ps[n], es[k].evidence)
  {
    assert ps[k + 1] == Step(ring, ps[k], es[k]);
    ReconcilesExactly(ring, ps[k], es[k].evidence, es[k].now);
    SettledForever(ring, ps, es, k + 1, n);
  }

  /** Rejected evidence, replays without news, and callbacks that arrive late change nothing at all. */
  lemma NothingHappens(ring: Ring, p: Plane, e: Event)
    requires Enabled(p, e) && Quiet(ring, p, e)
    ensures Step(ring, p, e) == p
  {
    ReconcileAccepts(ring, p, e);
  }

  /** Evidence that is refused or brings no news, and callbacks after the fact. */
  ghost predicate Quiet(ring: Ring, p: Plane, e: Event) {
    || (e.Reconciles? && Classify(SourceOf(ring, p), e.evidence, e.now).Err?)
    || (e.Reconciles? && Settled(p).Some? && !Discordant(ring, p, e))
    || (e.Reconciles? && Settled(p).Some? && Settled(p).value.conflictRecorded)
    || (e.Callback? && (p.proposal.Some? ==> p.proposal.value.outcome != Executing))
  }

  /** The plane after a list of events; an event that is not possible where it stands is passed over. */
  function Play(ring: Ring, p: Plane, es: seq<Event>): Plane {
    if es == [] then p
    else
      var before := Play(ring, p, es[..|es| - 1]);
      var e := es[|es| - 1];
      if Enabled(before, e) then Step(ring, before, e) else before
  }

  /** The events that are not quiet where they stand. */
  ghost function News(ring: Ring, p: Plane, es: seq<Event>): seq<Event> {
    if es == [] then []
    else
      var init := es[..|es| - 1];
      News(ring, p, init) + (if Quiet(ring, Play(ring, p, init), es[|es| - 1]) then [] else [es[|es| - 1]])
  }

  /** Over whole histories: leaving out every quiet event, wherever it falls, ends in the same state. */
  lemma {:induction false} QuietEventsErased(ring: Ring, p: Plane, es: seq<Event>)
    ensures Play(ring, p, News(ring, p, es)) == Play(ring, p, es)
  {
    if es != [] {
      var init, e := es[..|es| - 1], es[|es| - 1];
      QuietEventsErased(ring, p, init);
      var before := Play(ring, p, init);
      if Quiet(ring, before, e) {
        if Enabled(before, e) {
          NothingHappens(ring, before, e);
        }
        assert News(ring, p, es) == News(ring, p, init);
      } else {
        assert News(ring, p, es)[..|News(ring, p, init)|] == News(ring, p, init);
      }
    }
  }

  // ---------- the plane in place ----------

  class StartPlane {
    const ring: Ring
    var proposal: Option<Proposal>
    var conflicts: seq<Conflict>

    ghost function State(): Plane
      reads this
    {
      Plane(proposal, conflicts)
    }

    constructor (ring: Ring)
      ensures this.ring == ring && State() == Plane(Some(Proposal(Pending, None)), [])
    {
      this.ring := ring;
      proposal := Some(Proposal(Pending, None));
      conflicts := [];
    }

    method RecordStartIntent(intent: StartIntent)
      requires Enabled(State(), Launch(intent))
      modifies this
      ensures State() == Step(ring, old(State()), Launch(intent))
      ensures proposal == Some(Proposal(Executing, Some(Start(intent, None)))) && conflicts == old(conflicts)
    {
      proposal := Some(Proposal(Executing, Some(Start(intent, None))));
    }

    method OnCallback(succeeded: bool) returns (fenced: bool)
      modifies this
      ensures State() == Step(ring, old(State()), Callback(succeeded))
      ensures fenced <==> old(proposal).None? || old(proposal).value.outcome != Executing
      ensures fenced ==> unchanged(this)
      ensures !fenced ==>
                && conflicts == old(conflicts)
                && proposal == Some(old(proposal).value.(outcome := if succeeded then Executed else OutcomeUnknown))
    {
      if proposal.None? || !CallbackMayWrite(proposal.value.outcome) {
        return true;
      }
      proposal := Some(proposal.value.(outcome := if succeeded then Executed else OutcomeUnknown));
      fenced := false;
    }

    method SweepExecuting()
      modifies this
      ensures State() == Step(ring, old(State()), Sweep)
      ensures conflicts == old(conflicts)
      ensures proposal ==
                if old(proposal).Some? && old(proposal).value.start.Some? && old(proposal).value.outcome == Executing
                then Some(old(proposal).value.(outcome := OutcomeUnknown)) else old(proposal)
    {
      if proposal.None? || proposal.value.start.None? || proposal.value.outcome != Executing {
        return;
      }
      proposal := Some(proposal.value.(outcome := OutcomeUnknown));
    }

    /** Every replay is answered with the settled outcome, never with success. */
    method ExecuteReconcile(e: Evidence, now: nat) returns (alreadySettled: Option<TerminalOutcome>)
      modifies this
      ensures State() == Step(ring, old(State()), Reconciles(e, now))
      ensures ReconciledTo(ring, old(State()), e, now, State())
      ensures alreadySettled.Some? <==>
                && Settled(old(State())).Some?
                && Acceptable(e, old(State()).proposal.value.start.value.intent, ring.required, now)
      ensures alreadySettled.Some? ==> alreadySettled.value == Settled(old(State())).value.outcome
    {
      ReconcilesExactly(ring, State(), e, now);
      ReconcileAccepts(ring, State(), Reconciles(e, now));
      hide Acceptable, ValidateEvidence, ReconciledTo;
      var source := SourceOf(ring, Plane(proposal, conflicts));
      var classified := Classify(source, e, now);
      alreadySettled := None;
      match classified {
        case Err(_) =>
        case Ok(Inconclusive) =>
        case Ok(Settles(o)) =>
          var start := proposal.value.start.value;
          start := start.(settlement := Some(Settle(ring.digest, o, e)));
          proposal := Some(Proposal(ToAction(o), Some(start)));
        case Ok(ReplayConcordant(stored)) =>
          alreadySettled := Some(stored);
        case Ok(ReplayInconclusive(stored)) =>
          alreadySettled := Some(stored);
        case Ok(ReplayDiscordant(stored, mapped, capAvailable)) =>
          if capAvailable {
            var start := proposal.value.start.value;
            var record := start.settlement.value;
            conflicts := conflicts + [NewConflict(ring.proposalId, ring.digest, record, e, mapped)];
            start := start.(settlement := Some(record.(conflictRecorded := true)));
            proposal := Some(proposal.value.(start := Some(start)));
          }
          alreadySettled := Some(stored);
      }
    }
  }

  /** Drives a plane object through one event; pruning and the quorum's decisions write the proposal directly. */
  method Perform(plane: StartPlane, e: Event)
    requires Enabled(plane.State(), e)
    modifies plane
    ensures plane.State() == Step(plane.ring, old(plane.State()), e)
  {
    match e {
      case Withdraw(expired) =>
        plane.proposal := Some(plane.proposal.value.(outcome := if expired then Expired else Cancelled));
      case Launch(intent) => plane.RecordStartIntent(intent);
      case Refuse => plane.proposal := Some(plane.proposal.value.(outcome := Failed));
      case Callback(ok) => var fenced := plane.OnCallback(ok);
      case Sweep => plane.SweepExecuting();
      case Reconciles(evidence, now) => var replayed := plane.ExecuteReconcile(evidence, now);
      case Prune => plane.proposal := None;
    }
  }

  /** Any run of the model is performed by the object, which therefore settles once and audits one conflict at most. */
  method PerformRun(plane: StartPlane, ghost ps: seq<Plane>, es: seq<Event>)
    requires Run(plane.ring, ps, es) && plane.State() == ps[0]
    modifies plane
    ensures plane.State() == ps[|es|] && |plane.conflicts| <= 1
  {
    var i := 0;
    while i < |es|
      invariant 0 <= i <= |es| && plane.State() == ps[i]
    {
      assert Enabled(ps[i], es[i]) && ps[i + 1] == Step(plane.ring, ps[i], es[i]);
      Perform(plane, es[i]);
      i := i + 1;
    }
    RunInv(plane.ring, ps, es, |es|);
  }
}
