/**
The solvency monitor: refresh attempts that overlap, expire and finish late, the generation that
decides which of them may commit, and the certified copy of the current snapshot.
*/
module Monitor {
  import opened Wrappers
  import opened ByteStrings
  import opened SnapshotCodec

  const SCHEMA_VERSION: nat := 3
  const POOL_ATTESTATION_SCHEMA: nat := 1
  const ATTESTATION_BUCKET_NS: nat := 300_000_000_000
  const REFRESH_GUARD_EXPIRY_NS: nat := 5 * 60 * 1_000_000_000
  const MAX_HISTORY_CAPACITY: nat := 4096

  datatype Config = Config(refreshInterval: nat, maxStaleness: nat, historyCapacity: nat) {
    predicate Valid() {
      && 1_000_000_000 <= refreshInterval <= maxStaleness <= U64_MAX
      && 1 <= historyCapacity <= MAX_HISTORY_CAPACITY
    }
  }

  // ---------- what the sources answer ----------

  datatype SupplyReport = SupplyReport(fixedMaxSupply: nat, sumAllBalances: nat, holds: bool, arithmeticError: bool)

  datatype Attestation = Attestation(publicDelta: int, healthy: bool, attestedAt: nat, schemaVersion: nat)

  /** `None` is a rejected call; balances are unbounded numbers. */
  datatype Replies = Replies(
    supply: Option<SupplyReport>,
    balance: Option<nat>,
    attestation: Option<(Attestation, Bytes)>,
    treasury: Option<nat>)
  {
    /** The ranges of the decoded reply types. */
    predicate InRange() {
      && (supply.Some? ==> supply.value.fixedMaxSupply <= U128_MAX && supply.value.sumAllBalances <= U128_MAX)
      && (attestation.Some? ==>
            && -I128_HALF <= attestation.value.0.publicDelta < I128_HALF
            && attestation.value.0.attestedAt <= U64_MAX && attestation.value.0.schemaVersion <= U32_MAX)
    }
  }

  /** The ASCII bytes of "stsh-pool-attestation-v1". */
  const POOL_TAG: Bytes := [
    0x73, 0x74, 0x73, 0x68, 0x2d, 0x70, 0x6f, 0x6f, 0x6c, 0x2d, 0x61, 0x74, 0x74, 0x65, 0x73, 0x74,
    0x61, 0x74, 0x69, 0x6f, 0x6e, 0x2d, 0x76, 0x31]

  function AttestationBytes(a: Attestation): Bytes
    requires -I128_HALF <= a.publicDelta
  {
    POOL_TAG + ToBE(a.schemaVersion, 4) + [Bit(a.healthy)] + ToBE(ToTwos(a.publicDelta), 16) + ToBE(a.attestedAt, 8)
  }

  /** The attested bytes: the tag, the schema, the health bit, the delta in two's complement, and the time. */
  lemma AttestationLayout(a: Attestation)
    requires a.schemaVersion <= U32_MAX && a.attestedAt <= U64_MAX && -I128_HALF <= a.publicDelta < I128_HALF
    ensures
      var b := AttestationBytes(a);
      && |b| == 53 && b[..24] == POOL_TAG && FromBE(b[24..28]) == a.schemaVersion
      && b[28] == (if a.healthy then 1 else 0)
      && FromBE(b[29..45]) == (if a.publicDelta < 0 then a.publicDelta + 2 * I128_HALF else a.publicDelta)
      && FromBE(b[45..53]) == a.attestedAt
  {
    hide FromBE, ToBE;
    var b := AttestationBytes(a);
    Pow256Values();
    BERoundTrip(a.schemaVersion, 4);
    BERoundTrip(ToTwos(a.publicDelta), 16);
    BERoundTrip(a.attestedAt, 8);
    assert b[24..28] == ToBE(a.schemaVersion, 4) && b[29..45] == ToBE(ToTwos(a.publicDelta), 16);
    assert b[45..53] == ToBE(a.attestedAt, 8);
  }

  function AttestationIsStale(now: nat, attestedAt: nat, maxStaleness: nat): bool {
    maxStaleness + ATTESTATION_BUCKET_NS > U64_MAX
    || SatSub(now, attestedAt) > maxStaleness + ATTESTATION_BUCKET_NS
  }

  datatype PoolReading = PoolReading(status: ReadStatus, healthy: bool, delta: int, attestedAt: nat)

  function ReadPool(r: Replies, now: nat, maxStaleness: nat): PoolReading
    requires r.InRange()
  {
    if r.attestation.None? then PoolReading(CallFailed, false, 0, 0)
    else
      var (a, bytes) := r.attestation.value;
      if a.schemaVersion != POOL_ATTESTATION_SCHEMA then PoolReading(Malformed, false, 0, 0)
      else if bytes != AttestationBytes(a) then PoolReading(Malformed, false, 0, a.attestedAt)
      else if AttestationIsStale(now, a.attestedAt, maxStaleness) then PoolReading(ReadStale, false, a.publicDelta, a.attestedAt)
      else PoolReading(ReadOk, a.healthy, a.publicDelta, a.attestedAt)
  }

  function ReadTreasury(r: Replies): (ReadStatus, nat) {
    if r.treasury.None? then (CallFailed, 0)
    else if r.treasury.value > U128_MAX then (Malformed, 0)
    else (ReadOk, r.treasury.value)
  }

  /** A failed attempt keeps the last figures but resets every status to a failure value. */
  function FailureSnapshot(previous: Snapshot, cfg: Config, startedAt: nat, status: SnapshotStatus): Snapshot {
    previous.(
      supplyInvariantHolds := false, poolSource := CallFailed, poolDeltaHealthy := false,
      treasuryRead := CallFailed, supplyInvariantUnavailable := false, refreshedAt := startedAt,
      maxStaleness := cfg.maxStaleness, status := status, healthy := false, schemaVersion := SCHEMA_VERSION)
  }

  function Candidate(previous: Snapshot, cfg: Config, startedAt: nat, completedAt: nat, r: Replies): Snapshot
    requires r.InRange()
  {
    if r.supply.None? || r.balance.None? then FailureSnapshot(previous, cfg, startedAt, SourceCallFailed)
    else if r.balance.value > U128_MAX then FailureSnapshot(previous, cfg, startedAt, RefreshFailed)
    else
      var report := r.supply.value;
      var pool := ReadPool(r, completedAt, cfg.maxStaleness);
      var treasury := ReadTreasury(r);
      var sound := report.holds && !report.arithmeticError;
      var backed := pool.status == ReadOk && pool.healthy;
      Snapshot(sound, report.fixedMaxSupply, report.sumAllBalances, r.balance.value, pool.status, pool.healthy,
               pool.delta, pool.attestedAt, treasury.0, treasury.1, report.arithmeticError, startedAt,
               cfg.maxStaleness, Fresh, sound && backed, SCHEMA_VERSION)
  }

  function EnforceAttemptAge(previous: Snapshot, cfg: Config, startedAt: nat, completedAt: nat, candidate: Snapshot): Snapshot {
    if SatSub(completedAt, startedAt) > cfg.maxStaleness
    then FailureSnapshot(previous, cfg, startedAt, RefreshFailed) else candidate
  }

  function Refreshed(previous: Snapshot, cfg: Config, startedAt: nat, completedAt: nat, r: Replies): Snapshot
    requires r.InRange()
  {
    EnforceAttemptAge(previous, cfg, startedAt, completedAt, Candidate(previous, cfg, startedAt, completedAt, r))
  }

  /** Healthy means latest, a supply invariant that was evaluated and holds, and a soundly read, backed pool. */
  predicate HealthIsEarned(s: Snapshot) {
    s.healthy ==>
      && s.status == Fresh && s.supplyInvariantHolds && !s.supplyInvariantUnavailable
      && s.poolSource == ReadOk && s.poolDeltaHealthy
  }

  /** The pool's attestation was answered, is of the known schema, matches its own bytes and is recent enough. */
  predicate PoolReadSoundly(r: Replies, completedAt: nat, maxStaleness: nat)
    requires r.InRange()
  {
    && r.attestation.Some? && r.attestation.value.0.schemaVersion == POOL_ATTESTATION_SCHEMA
    && r.attestation.value.1 == AttestationBytes(r.attestation.value.0)
    && maxStaleness + ATTESTATION_BUCKET_NS <= U64_MAX
    && completedAt <= r.attestation.value.0.attestedAt + maxStaleness + ATTESTATION_BUCKET_NS
  }

  /** The token answered figures that fit. */
  predicate FiguresAnswered(r: Replies) {
    r.supply.Some? && r.balance.Some? && r.balance.value <= U128_MAX
  }

  /** The one status each set of replies deserves: a late attempt failed, whatever was answered. */
  function StatusFor(cfg: Config, startedAt: nat, completedAt: nat, r: Replies): SnapshotStatus {
    if completedAt > startedAt + cfg.maxStaleness then RefreshFailed
    else if r.supply.None? || r.balance.None? then SourceCallFailed
    else if r.balance.value > U128_MAX then RefreshFailed
    else Fresh
  }

  /** How the attestation was read: not at all, unusable, too old, or soundly. */
  function PoolStatusFor(r: Replies, completedAt: nat, maxStaleness: nat): ReadStatus
    requires r.InRange()
  {
    if r.attestation.None? then CallFailed
    else if PoolReadSoundly(r, completedAt, maxStaleness) then ReadOk
    else if r.attestation.value.0.schemaVersion == 1 && r.attestation.value.1 == AttestationBytes(r.attestation.value.0)
    then ReadStale
    else Malformed
  }

  /** What a snapshot certifies is what the replies of its own refresh justify, field by field. */
  predicate Justified(s: Snapshot, cfg: Config, startedAt: nat, completedAt: nat, r: Replies)
    requires r.InRange()
  {
    && s.status == StatusFor(cfg, startedAt, completedAt, r)
    && (s.supplyInvariantHolds <==> s.status == Fresh && r.supply.value.holds && !r.supply.value.arithmeticError)
    && (s.supplyInvariantUnavailable <==> s.status == Fresh && r.supply.value.arithmeticError)
    && (s.poolDeltaHealthy <==>
          s.status == Fresh && PoolReadSoundly(r, completedAt, cfg.maxStaleness) && r.attestation.value.0.healthy)
    && (s.healthy <==> s.supplyInvariantHolds && s.poolDeltaHealthy)
    && s.poolSource == (if s.status == Fresh then PoolStatusFor(r, completedAt, cfg.maxStaleness) else CallFailed)
    && (s.treasuryRead == ReadOk <==> s.status == Fresh && r.treasury.Some? && r.treasury.value <= U128_MAX)
    && (s.treasuryRead == Malformed <==> s.status == Fresh && r.treasury.Some? && r.treasury.value > U128_MAX)
    && s.treasuryRead != ReadStale
    && s.refreshedAt == startedAt && s.maxStaleness == cfg.maxStaleness && s.schemaVersion == 3
    && (s.status == Fresh ==> FiguresReported(s, r))
  }

  /** A fresh snapshot shows the reported figures; an attestation counts for what of it could be used. */
  predicate FiguresReported(s: Snapshot, r: Replies)
    requires r.InRange()
  {
    && FiguresAnswered(r)
    && s.fixedMaxSupply == r.supply.value.fixedMaxSupply && s.sumAllBalances == r.supply.value.sumAllBalances
    && s.poolBalance == r.balance.value
    && s.treasuryStray == (if s.treasuryRead == ReadOk && r.treasury.Some? then r.treasury.value else 0)
    && s.poolPublicDelta ==
         (if s.poolSource in {ReadOk, ReadStale} && r.attestation.Some? then r.attestation.value.0.publicDelta else 0)
    && s.poolAttestedAt ==
         (if r.attestation.Some? && r.attestation.value.0.schemaVersion == 1 then r.attestation.value.0.attestedAt else 0)
  }

  /**
  Whatever the sources answered, and however late: the snapshot certifies exactly what the replies
  justify, its health is earned, and the treasury read never decides health.
  */
  lemma RefreshedIsHonest(previous: Snapshot, cfg: Config, startedAt: nat, completedAt: nat, r: Replies, treasury: Option<nat>)
    requires previous.InRange() && cfg.Valid() && r.InRange() && startedAt <= completedAt <= U64_MAX
    ensures
      var s := Refreshed(previous, cfg, startedAt, completedAt, r);
      && s.InRange() && HealthIsEarned(s) && Justified(s, cfg, startedAt, completedAt, r)
      && Refreshed(previous, cfg, startedAt, completedAt, r.(treasury := treasury)).healthy == s.healthy
  {
    hide AttestationBytes, Justified;
    RefreshedIsJustified(previous, cfg, startedAt, completedAt, r);
  }

  lemma RefreshedIsJustified(previous: Snapshot, cfg: Config, startedAt: nat, completedAt: nat, r: Replies)
    requires r.InRange() && startedAt <= completedAt <= U64_MAX
    ensures Justified(Refreshed(previous, cfg, startedAt, completedAt, r), cfg, startedAt, completedAt, r)
  {
    hide AttestationBytes;
  }

  /** A refresh that is not fresh keeps every figure on display. */
  lemma FiguresAreKept(previous: Snapshot, cfg: Config, startedAt: nat, completedAt: nat, r: Replies)
    requires r.InRange()
    ensures
      var s := Refreshed(previous, cfg, startedAt, completedAt, r);
      s.status != Fresh ==>
        && s.fixedMaxSupply == previous.fixedMaxSupply && s.sumAllBalances == previous.sumAllBalances
        && s.poolBalance == previous.poolBalance && s.treasuryStray == previous.treasuryStray
        && s.poolPublicDelta == previous.poolPublicDelta && s.poolAttestedAt == previous.poolAttestedAt
  {
  }

  // ---------- the monitor's own state ----------

  datatype Owner = Owner(generation: nat, startedAt: nat)

  datatype State = State(
    config: Config, snapshot: Snapshot, history: seq<Snapshot>, leaf: Bytes,
    owner: Option<Owner>, generations: nat)

  function Placeholder(cfg: Config, now: nat): Snapshot {
    Snapshot(false, 0, 0, 0, CallFailed, false, 0, 0, CallFailed, 0, false, now, cfg.maxStaleness, Stale, false, SCHEMA_VERSION)
  }

  function LastOf(h: seq<Snapshot>, n: nat): seq<Snapshot> {
    if |h| <= n then h else h[|h| - n..]
  }

  /** The last `n` entries, or all of a shorter list. */
  lemma LastOfMeans(h: seq<Snapshot>, n: nat)
    ensures |LastOf(h, n)| == Min(|h|, n) && LastOf(h, n) == h[|h| - Min(|h|, n)..]
  {
  }

  /** An attempt may own the refresh slot unless a younger-than-expiry owner holds it. */
  function Acquire(s: State, now: nat): (State, Option<Owner>) {
    if s.owner.Some? && SatSub(now, s.owner.value.startedAt) < REFRESH_GUARD_EXPIRY_NS then (s, None)
    else if s.generations + 1 > U64_MAX then (s, None)
    else
      var o := Owner(s.generations + 1, now);
      (s.(generations := s.generations + 1, owner := Some(o)), Some(o))
  }

  function Commit(s: State, snapshot: Snapshot): State
    requires snapshot.InRange()
  {
    s.(snapshot := snapshot, history := LastOf(s.history + [snapshot], s.config.historyCapacity), leaf := Encode(snapshot))
  }

  function CommitIfOwner(s: State, o: Owner, snapshot: Snapshot): (State, bool)
    requires snapshot.InRange()
  {
    if s.owner != Some(o) then (s, false) else (Commit(s, snapshot).(owner := None), true)
  }

  function Restore(s: State): State
    requires s.snapshot.InRange()
  {
    s.(history := LastOf(s.history, s.config.historyCapacity), leaf := Encode(s.snapshot), owner := None, generations := 0)
  }

  /** Dropping from the front until one place is free, then appending, keeps the last `n`. */
  lemma RoomForOne(h: seq<Snapshot>, dropped: nat, x: Snapshot, n: nat)
    requires dropped <= |h| && |h| - dropped < n && (dropped == 0 || |h| - dropped == n - 1)
    ensures h[dropped..] + [x] == LastOf(h + [x], n)
  {
  }

  class SolvencyMonitor {
    const config: Config
    var snapshot: Snapshot
    var history: seq<Snapshot>
    var leaf: Bytes
    var owner: Option<Owner>
    var generations: nat

    ghost function View(): State
      reads this
    {
      State(config, snapshot, history, leaf, owner, generations)
    }

    constructor (config: Config, now: nat)
      requires config.Valid() && now <= U64_MAX
      ensures View() == State(config, Placeholder(config, now), [], Encode(Placeholder(config, now)), None, 0)
    {
      this.config := config;
      history := [];
      owner := None;
      generations := 0;
      snapshot := Placeholder(config, now);
      leaf := [];
      new;
      leaf := CanonicalBytes(snapshot);
    }

    method AcquireRefreshOwner(now: nat) returns (acquired: Option<Owner>)
      modifies this`owner, this`generations
      ensures (View(), acquired) == Acquire(old(View()), now)
      ensures acquired.None? <==>
                (old(owner).Some? && now < old(owner).value.startedAt + 300_000_000_000) || old(generations) >= U64_MAX
      ensures acquired.None? ==> unchanged(this)
      ensures acquired.Some? ==>
                acquired == Some(Owner(old(generations) + 1, now)) && owner == acquired && generations == old(generations) + 1
    {
      if owner.Some? && SatSub(now, owner.value.startedAt) < REFRESH_GUARD_EXPIRY_NS {
        return None;
      }
      if generations + 1 > U64_MAX {
        return None;
      }
      generations := generations + 1;
      owner := Some(Owner(generations, now));
      acquired := owner;
    }

    /** Drops the oldest entries until one more fits. */
    method MakeRoom() returns (ghost dropped: nat)
      requires config.Valid()
      modifies this`history
      ensures dropped <= |old(history)| && history == old(history)[dropped..]
      ensures |history| < config.historyCapacity
      ensures dropped == 0 || |history| == config.historyCapacity - 1
    {
      dropped := 0;
      while |history| >= config.historyCapacity
        invariant 0 <= dropped <= |old(history)| && history == old(history)[dropped..]
        invariant dropped == 0 || |history| >= config.historyCapacity - 1
        decreases |history|
      {
        history := history[1..];
        dropped := dropped + 1;
      }
    }

    method CommitSnapshot(latest: Snapshot)
      requires latest.InRange() && config.Valid() && |history| <= config.historyCapacity
      modifies this`snapshot, this`history, this`leaf
      ensures View() == Commit(old(View()), latest)
      ensures snapshot == latest && Decode(leaf) == Some(latest)
      ensures |history| == Min(|old(history)| + 1, config.historyCapacity)
      ensures history == (old(history) + [latest])[|old(history)| + 1 - |history|..]
    {
      hide Encode, Decode, LastOf, Snapshot.InRange;
      ghost var was := history;
      var dropped := MakeRoom();
      RoomForOne(was, dropped, latest, config.historyCapacity);
      LastOfMeans(was + [latest], config.historyCapacity);
      history := history + [latest];
      var bytes := CanonicalBytes(latest);
      snapshot := latest;
      leaf := bytes;
      SnapshotRoundTrip(latest);
    }

    method CommitAndReleaseIfOwner(attempt: Owner, latest: Snapshot) returns (committed: bool)
      requires latest.InRange() && config.Valid() && |history| <= config.historyCapacity
      modifies this
      ensures (View(), committed) == CommitIfOwner(old(View()), attempt, latest)
      ensures committed <==> old(owner) == Some(attempt)
      ensures if committed then owner == None && snapshot == latest else unchanged(this)
    {
      if owner != Some(attempt) {
        return false;
      }
      CommitSnapshot(latest);
      owner := None;
      committed := true;
    }

    /** After an upgrade the heap starts over; the checkpoint is trimmed and certified again. */
    method PostUpgrade()
      requires snapshot.InRange() && config.Valid()
      modifies this
      ensures View() == Restore(old(View()))
      ensures snapshot == old(snapshot) && owner == None && generations == 0
      ensures |history| == Min(|old(history)|, config.historyCapacity)
      ensures history == old(history)[|old(history)| - |history|..]
    {
      while |history| > config.historyCapacity
        invariant |history| <= |old(history)| && history == old(history)[|old(history)| - |history|..]
        invariant |history| >= config.historyCapacity || history == old(history)
        invariant snapshot == old(snapshot)
        decreases |history|
      {
        history := history[1..];
      }
      owner := None;
      generations := 0;
      leaf := CanonicalBytes(snapshot);
    }
  }

  // ---------- overlapping refreshes over whole runs ----------

  /** A refresh that awaits its sources, with what it captured before the first await. */
  datatype Attempt = Attempt(owner: Owner, previous: Snapshot)

  /** A committed refresh, by heap lifetime and generation, with the replies it was computed from. */
  datatype Committed = Committed(boot: nat, owner: Owner, completedAt: nat, replies: Replies, snapshot: Snapshot)

  datatype World = World(state: State, attempts: seq<Option<Attempt>>, log: seq<Committed>, boot: nat, clock: nat)

  datatype Event =
    | StartRefresh(now: nat)
    | FinishRefresh(attempt: nat, now: nat, replies: Replies)
    | LoseAttempt(attempt: nat)
    | Upgrade(now: nat)

  predicate Enabled(w: World, e: Event) {
    match e
    case StartRefresh(now) => w.clock <= now <= U64_MAX
    case FinishRefresh(a, now, r) =>
      w.clock <= now <= U64_MAX && a < |w.attempts| && w.attempts[a].Some? && r.InRange()
    case LoseAttempt(a) => a < |w.attempts|
    case Upgrade(now) => w.clock <= now <= U64_MAX && w.state.snapshot.InRange()
  }

  function Outcome(w: World, a: Attempt, now: nat, r: Replies): Snapshot
    requires r.InRange()
  {
    Refreshed(a.previous, w.state.config, a.owner.startedAt, now, r)
  }

  function Step(w: World, e: Event): World
    requires Enabled(w, e)
    requires e.FinishRefresh? ==> Outcome(w, w.attempts[e.attempt].value, e.now, e.replies).InRange()
  {
    match e
    case StartRefresh(now) =>
      var (s, o) := Acquire(w.state, now);
      w.(state := s, clock := now,
         attempts := if o.Some? then w.attempts + [Some(Attempt(o.value, w.state.snapshot))] else w.attempts)
    case FinishRefresh(k, now, r) =>
      var a := w.attempts[k].value;
      var latest := Outcome(w, a, now, r);
      var (s, committed) := CommitIfOwner(w.state, a.owner, latest);
      w.(state := s, clock := now, attempts := w.attempts[k := None],
         log := if committed then w.log + [Committed(w.boot, a.owner, now, r, latest)] else w.log)
    case LoseAttempt(k) => w.(attempts := w.attempts[k := None])
    case Upgrade(now) =>
      World(Restore(w.state), [], w.log, w.boot + 1, now)
  }

  ghost predicate Init(w: World) {
    && w.state.config.Valid() && w.clock <= U64_MAX
    && w.state == State(w.state.config, Placeholder(w.state.config, w.clock), [],
                        Encode(Placeholder(w.state.config, w.clock)), None, 0)
    && w.attempts == [] && w.log == [] && w.boot == 0
  }

  function Snapshots(log: seq<Committed>): (s: seq<Snapshot>)
    ensures |s| == |log|
  {
    seq(|log|, i requires 0 <= i < |log| => log[i].snapshot)
  }

  /** Later in the log means a later heap lifetime, or the same one and a larger generation. */
  predicate Earlier(c: Committed, d: Committed) {
    c.boot < d.boot || (c.boot == d.boot && c.owner.generation < d.owner.generation)
  }

  ghost predicate LogOk(log: seq<Committed>, cfg: Config, boot: nat, generations: nat, owner: Option<Owner>) {
    && (forall i, j :: 0 <= i < j < |log| ==> Earlier(log[i], log[j]))
    && (forall i :: 0 <= i < |log| ==> CommitOk(log[i], cfg) && log[i].boot <= boot)
    && (forall i :: 0 <= i < |log| && log[i].boot == boot ==>
          log[i].owner.generation <= generations && (owner.Some? ==> log[i].owner.generation < owner.value.generation))
  }

  /** What every commit in the log satisfies. */
  predicate CommitOk(c: Committed, cfg: Config) {
    && c.snapshot.InRange() && HealthIsEarned(c.snapshot)
    && c.owner.startedAt <= c.completedAt && c.snapshot.refreshedAt == c.owner.startedAt
    && (c.snapshot.status == Fresh ==> c.completedAt - c.owner.startedAt <= cfg.maxStaleness)
    && c.replies.InRange() && Justified(c.snapshot, cfg, c.owner.startedAt, c.completedAt, c.replies)
  }

  ghost predicate AttemptsOk(w: World) {
    && (forall k :: 0 <= k < |w.attempts| && w.attempts[k].Some? ==>
          && w.attempts[k].value.owner.generation <= w.state.generations
          && w.attempts[k].value.owner.startedAt <= w.clock
          && w.attempts[k].value.previous.InRange())
    && (forall j, k :: 0 <= j < k < |w.attempts| && w.attempts[j].Some? && w.attempts[k].Some? ==>
          w.attempts[j].value.owner.generation < w.attempts[k].value.owner.generation)
    && (w.state.owner.Some? ==> w.state.owner.value.generation <= w.state.generations)
  }

  /**
  An outstanding attempt either owns the slot, and then the snapshot it started from is still on
  display, or it was superseded after its five minutes.
  */
  ghost predicate TurnOk(w: World) {
    forall k :: 0 <= k < |w.attempts| && w.attempts[k].Some? ==>
      if w.state.owner == Some(w.attempts[k].value.owner)
      then w.attempts[k].value.previous == w.state.snapshot
      else w.attempts[k].value.owner.startedAt + REFRESH_GUARD_EXPIRY_NS <= w.clock
  }

  /** The amounts a snapshot displays. */
  datatype Figures = Figures(
    fixedMaxSupply: nat, sumAllBalances: nat, poolBalance: nat, poolPublicDelta: int, poolAttestedAt: nat, treasuryStray: nat)

  function FiguresOf(s: Snapshot): Figures {
    Figures(s.fixedMaxSupply, s.sumAllBalances, s.poolBalance, s.poolPublicDelta, s.poolAttestedAt, s.treasuryStray)
  }

  /** The figures of the last fresh commit; zeros before the first one. */
  function LastFreshFigures(log: seq<Committed>): Figures {
    if log == [] then Figures(0, 0, 0, 0, 0, 0)
    else
      var last := log[|log| - 1].snapshot;
      if last.status == Fresh then FiguresOf(last) else LastFreshFigures(log[..|log| - 1])
  }

  /** The placeholder claims nothing: neither fresh nor healthy, no invariant, no source read. */
  predicate NothingCertified(s: Snapshot) {
    && s.status == Stale && !s.healthy && !s.supplyInvariantHolds && !s.supplyInvariantUnavailable
    && !s.poolDeltaHealthy && s.poolSource == CallFailed && s.treasuryRead == CallFailed
  }

  ghost predicate Inv(w: World) {
    && w.state.config.Valid() && w.clock <= U64_MAX
    && w.state.snapshot.InRange() && HealthIsEarned(w.state.snapshot)
    && w.state.leaf == Encode(w.state.snapshot)
    && w.state.history == LastOf(Snapshots(w.log), w.state.config.historyCapacity)
    && (w.log != [] ==> w.state.snapshot == w.log[|w.log| - 1].snapshot)
    && AttemptsOk(w) && TurnOk(w)
    && FiguresOf(w.state.snapshot) == LastFreshFigures(w.log)
    && (w.log == [] ==> NothingCertified(w.state.snapshot))
    && LogOk(w.log, w.state.config, w.boot, w.state.generations, w.state.owner)
  }

  /** Keeping the last `n` of a list that grows by one depends only on the last `n` so far. */
  lemma LastOfStep(h: seq<Snapshot>, x: Snapshot, n: nat)
    requires n >= 1
    ensures LastOf(LastOf(h, n) + [x], n) == LastOf(h + [x], n)
    ensures LastOf(LastOf(h, n), n) == LastOf(h, n)
  {
  }

  lemma ResultInRange(w: World, e: Event)
    requires Inv(w) && Enabled(w, e) && e.FinishRefresh?
    ensures Outcome(w, w.attempts[e.attempt].value, e.now, e.replies).InRange()
  {
    var a := w.attempts[e.attempt].value;
    RefreshedIsHonest(a.previous, w.state.config, a.owner.startedAt, e.now, e.replies, None);
  }

  /** A commit appends to the log; everything the log promises follows from the attempt's ownership. */
  lemma CommitKeepsLog(log: seq<Committed>, c: Committed, cfg: Config, generations: nat)
    requires LogOk(log, cfg, c.boot, generations, Some(c.owner)) && CommitOk(c, cfg)
    requires c.owner.generation <= generations
    ensures LogOk(log + [c], cfg, c.boot, generations, None)
    ensures Snapshots(log + [c]) == Snapshots(log) + [c.snapshot]
  {
    hide CommitOk;
  }

  lemma FinishKeeps(w: World, e: Event)
    requires Enabled(w, e) && e.FinishRefresh?
    requires Outcome(w, w.attempts[e.attempt].value, e.now, e.replies).InRange()
    requires Inv(w)
    ensures Inv(Step(w, e))
  {
    hide Encode, Refreshed, LogOk, CommitOk, LastOf, Snapshots, HealthIsEarned, LastFreshFigures, FiguresOf;
    var a := w.attempts[e.attempt].value;
    var latest := Outcome(w, a, e.now, e.replies);
    RefreshedIsHonest(a.previous, w.state.config, a.owner.startedAt, e.now, e.replies, None);
    var c := Committed(w.boot, a.owner, e.now, e.replies, latest);
    if w.state.owner == Some(a.owner) {
      CommitIsHonest(w, a, e.now, e.replies);
      LastOfStep(Snapshots(w.log), latest, w.state.config.historyCapacity);
      CommitKeepsLog(w.log, c, w.state.config, w.state.generations);
      FiguresCarried(w.log, a.previous, w.state.config, c, e.replies);
    }
  }

  /** A commit that is not fresh keeps the figures on display, which are those of the last fresh commit. */
  lemma FiguresCarried(log: seq<Committed>, previous: Snapshot, cfg: Config, c: Committed, r: Replies)
    requires r.InRange() && FiguresOf(previous) == LastFreshFigures(log)
    requires c.snapshot == Refreshed(previous, cfg, c.owner.startedAt, c.completedAt, r)
    ensures FiguresOf(c.snapshot) == LastFreshFigures(log + [c])
  {
    FiguresAreKept(previous, cfg, c.owner.startedAt, c.completedAt, r);
    assert (log + [c])[..|log|] == log;
  }

  lemma CommitIsHonest(w: World, a: Attempt, now: nat, r: Replies)
    requires a.previous.InRange() && w.state.config.Valid() && r.InRange() && a.owner.startedAt <= now <= U64_MAX
    ensures CommitOk(Committed(w.boot, a.owner, now, r, Outcome(w, a, now, r)), w.state.config)
  {
    RefreshedIsHonest(a.previous, w.state.config, a.owner.startedAt, now, r, None);
  }

  /** A running attempt is superseded only once it is five minutes old, and by a larger generation. */
  lemma OwnerKeepsItsTurn(s: State, now: nat)
    requires s.owner.Some? && Acquire(s, now).1.Some?
    ensures now >= s.owner.value.startedAt + REFRESH_GUARD_EXPIRY_NS
    ensures Acquire(s, now).1.value.generation > s.generations
  {
  }

  lemma StartKeeps(w: World, e: Event)
    requires Enabled(w, e) && e.StartRefresh?
    requires Inv(w)
    ensures Inv(Step(w, e))
  {
    hide Encode, LastOf, Snapshots, HealthIsEarned, CommitOk, Snapshot.InRange, LastFreshFigures, FiguresOf;
    if w.state.owner.Some? && Acquire(w.state, e.now).1.Some? {
      OwnerKeepsItsTurn(w.state, e.now);
    }
  }

  lemma LoseKeeps(w: World, e: Event)
    requires Enabled(w, e) && e.LoseAttempt?
    requires Inv(w)
    ensures Inv(Step(w, e))
  {
    hide Encode, LastOf, Snapshots, HealthIsEarned, LogOk, Snapshot.InRange, LastFreshFigures, FiguresOf;
  }

  lemma UpgradeKeeps(w: World, e: Event)
    requires Enabled(w, e) && e.Upgrade?
    requires Inv(w)
    ensures Inv(Step(w, e))
  {
    hide Encode, LastOf, Snapshots, HealthIsEarned, CommitOk, LastFreshFigures, FiguresOf;
    LastOfStep(Snapshots(w.log), w.state.snapshot, w.state.config.historyCapacity);
  }

  lemma StepKeepsInv(w: World, e: Event)
    requires Enabled(w, e)
    requires e.FinishRefresh? ==> Outcome(w, w.attempts[e.attempt].value, e.now, e.replies).InRange()
    requires Inv(w)
    ensures Inv(Step(w, e))
  {
    hide *;
    match e
    case StartRefresh(_) => StartKeeps(w, e);
    case FinishRefresh(_, _, _) => FinishKeeps(w, e);
    case LoseAttempt(_) => LoseKeeps(w, e);
    case Upgrade(_) => UpgradeKeeps(w, e);
  }

  ghost predicate StepTo(w: World, e: Event, w': World) {
    && Enabled(w, e)
    && (e.FinishRefresh? ==> Outcome(w, w.attempts[e.attempt].value, e.now, e.replies).InRange())
    && w' == Step(w, e)
  }

  ghost predicate Run(ws: seq<World>, es: seq<Event>) {
    && |ws| == |es| + 1 && Init(ws[0])
    && forall i :: 0 <= i < |es| ==> StepTo(ws[i], es[i], ws[i + 1])
  }

  lemma {:induction false} RunInv(ws: seq<World>, es: seq<Event>, n: nat)
    requires Run(ws, es) && n < |ws|
    ensures Inv(ws[n])
  {
    if n > 0 {
      RunInv(ws, es, n - 1);
      assert StepTo(ws[n - 1], es[n - 1], ws[n - 1 + 1]);
      StepKeepsInv(ws[n - 1], es[n - 1]);
    }
  }

  /** No reachable state blocks a finishing refresh: its result always fits the encoding. */
  lemma FinishNeverStuck(ws: seq<World>, es: seq<Event>, n: nat, e: Event)
    requires Run(ws, es) && n < |ws| && e.FinishRefresh? && Enabled(ws[n], e)
    ensures exists w' :: StepTo(ws[n], e, w')
  {
    RunInv(ws, es, n);
    ResultInRange(ws[n], e);
    assert StepTo(ws[n], e, Step(ws[n], e));
  }

  /** Committed refreshes carry strictly increasing generations within a heap lifetime, lifetimes in order. */
  lemma GenerationsIncrease(ws: seq<World>, es: seq<Event>, n: nat, i: nat, j: nat)
    requires Run(ws, es) && n < |ws| && i < j < |ws[n].log|
    ensures Earlier(ws[n].log[i], ws[n].log[j])
  {
    RunInv(ws, es, n);
  }

  /**
  Certified agreement: in every reachable state the certified leaf decodes to exactly the current
  snapshot, and the history is the last `historyCapacity` committed refreshes in order.
  */
  lemma CertifiedAgreement(ws: seq<World>, es: seq<Event>, n: nat)
    requires Run(ws, es) && n < |ws|
    ensures Decode(ws[n].state.leaf) == Some(ws[n].state.snapshot)
    ensures ws[n].state.history == LastOf(Snapshots(ws[n].log), ws[n].state.config.historyCapacity)
    ensures ws[n].log != [] ==> ws[n].state.snapshot == ws[n].log[|ws[n].log| - 1].snapshot
  {
    RunInv(ws, es, n);
    SnapshotRoundTrip(ws[n].state.snapshot);
  }

  /**
  Every commit ever made certifies exactly what its own replies justify, and what is on display is
  the last commit, or before the first one a snapshot that claims nothing.
  */
  lemma CommitsAreHonest(ws: seq<World>, es: seq<Event>, n: nat)
    requires Run(ws, es) && n < |ws|
    ensures HealthIsEarned(ws[n].state.snapshot)
    ensures forall i :: 0 <= i < |ws[n].log| ==> CommitOk(ws[n].log[i], ws[n].state.config)
    ensures forall i :: 0 <= i < |ws[n].log| ==>
              var c := ws[n].log[i];
              c.replies.InRange() && Justified(c.snapshot, ws[n].state.config, c.owner.startedAt, c.completedAt, c.replies)
    ensures if ws[n].log == [] then NothingCertified(ws[n].state.snapshot)
            else ws[n].state.snapshot == ws[n].log[|ws[n].log| - 1].snapshot
  {
    hide Run, Justified;
    RunInv(ws, es, n);
  }

  /**
  A refresh may start exactly if nobody is refreshing, or the one who is started at least five
  minutes ago and is thereby superseded; it then owns the slot under the next generation.
  */
  lemma StartsExactly(w: World, now: nat, next: World)
    requires StepTo(w, StartRefresh(now), next)
    ensures
      var busy := w.state.owner.Some? && now < w.state.owner.value.startedAt + 300_000_000_000;
      var o := Owner(w.state.generations + 1, now);
      if busy || w.state.generations >= U64_MAX then next == w.(clock := now)
      else next == w.(state := w.state.(owner := Some(o), generations := o.generation), clock := now,
                      attempts := w.attempts + [Some(Attempt(o, w.state.snapshot))])
  {
  }

  /**
  An attempt that no longer owns the slot commits nothing and releases nobody; at most one
  outstanding attempt owns it.
  */
  lemma SupersededChangesNothing(ws: seq<World>, es: seq<Event>, n: nat, e: Event)
    requires Run(ws, es) && n < |ws| && e.FinishRefresh? && Enabled(ws[n], e)
    ensures forall j, k :: 0 <= j < k < |ws[n].attempts| && ws[n].attempts[j].Some? && ws[n].attempts[k].Some?
                           && ws[n].state.owner == Some(ws[n].attempts[j].value.owner) ==>
              ws[n].state.owner != Some(ws[n].attempts[k].value.owner)
    ensures forall w' :: StepTo(ws[n], e, w') && ws[n].state.owner != Some(ws[n].attempts[e.attempt].value.owner) ==>
              w'.state == ws[n].state && w'.log == ws[n].log
  {
    RunInv(ws, es, n);
  }

  /** A refresh that finishes within five minutes of its start is never superseded: it commits, and releases the slot. */
  lemma PromptRefreshCommits(ws: seq<World>, es: seq<Event>, n: nat, e: Event, next: World)
    requires Run(ws, es) && n < |ws| && e.FinishRefresh? && StepTo(ws[n], e, next)
    requires e.now < ws[n].attempts[e.attempt].value.owner.startedAt + REFRESH_GUARD_EXPIRY_NS
    ensures
      var a := ws[n].attempts[e.attempt].value;
      && next.log == ws[n].log + [Committed(ws[n].boot, a.owner, e.now, e.replies, Outcome(ws[n], a, e.now, e.replies))]
      && next.state.owner == None && next.state.snapshot == Outcome(ws[n], a, e.now, e.replies)
  {
    hide Run, Refreshed, LogOk;
    RunInv(ws, es, n);
  }

  /**
  In every reachable state the figures on display are those of the last fresh commit: refreshes that
  failed, overlapped or were superseded in between changed none of them.
  */
  lemma FiguresAreLastFresh(ws: seq<World>, es: seq<Event>, n: nat)
    requires Run(ws, es) && n < |ws|
    ensures FiguresOf(ws[n].state.snapshot) == LastFreshFigures(ws[n].log)
  {
    hide Run;
    RunInv(ws, es, n);
  }

  // ---------- the object over whole runs ----------

  /** Drives a monitor object through one event; what a finishing attempt captured is passed along. */
  method Perform(m: SolvencyMonitor, w: World, e: Event)
    requires m.View() == w.state && Inv(w) && Enabled(w, e)
    requires e.FinishRefresh? ==> Outcome(w, w.attempts[e.attempt].value, e.now, e.replies).InRange()
    modifies m
    ensures m.View() == Step(w, e).state
  {
    hide Encode, Refreshed, LogOk, TurnOk, AttemptsOk, LastFreshFigures, Snapshot.InRange;
    match e {
      case StartRefresh(now) => var acquired := m.AcquireRefreshOwner(now);
      case FinishRefresh(k, now, r) =>
        var a := w.attempts[k].value;
        var committed := m.CommitAndReleaseIfOwner(a.owner, Outcome(w, a, now, r));
      case LoseAttempt(k) =>
      case Upgrade(now) => m.PostUpgrade();
    }
  }

  /** Any run of the model is performed by the object, whose certified leaf therefore always decodes to its snapshot. */
  method PerformRun(m: SolvencyMonitor, ws: seq<World>, es: seq<Event>)
    requires Run(ws, es) && m.View() == ws[0].state
    modifies m
    ensures m.View() == ws[|es|].state && Decode(m.leaf) == Some(m.snapshot)
  {
    hide Inv, Step, Enabled, Decode;
    var i := 0;
    while i < |es|
      invariant 0 <= i <= |es| && m.View() == ws[i].state
    {
      assert StepTo(ws[i], es[i], ws[i + 1]);
      RunInv(ws, es, i);
      Perform(m, ws[i], es[i]);
      i := i + 1;
    }
    CertifiedAgreement(ws, es, |es|);
  }
}
