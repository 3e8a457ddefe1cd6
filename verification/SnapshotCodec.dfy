/**
The solvency snapshot and the bytes the certified tree commits to: 131 bytes, fixed width,
big-endian. The monitor's own header comment still describes the older 89-byte layout.
*/
module SnapshotCodec {
  import opened Wrappers
  import opened ByteStrings

  datatype SnapshotStatus = Fresh | Stale | RefreshFailed | SourceCallFailed {
    function Code(): byte {
      match this
      case Fresh => 0
      case Stale => 1
      case RefreshFailed => 2
      case SourceCallFailed => 3
    }
  }

  function StatusOf(code: byte): Option<SnapshotStatus> {
    match code
    case 0 => Some(Fresh)
    case 1 => Some(Stale)
    case 2 => Some(RefreshFailed)
    case 3 => Some(SourceCallFailed)
    case _ => None
  }

  datatype ReadStatus = ReadOk | CallFailed | Malformed | ReadStale {
    function Code(): byte {
      match this
      case ReadOk => 0
      case CallFailed => 1
      case Malformed => 2
      case ReadStale => 3
    }
  }

  function ReadStatusOf(code: byte): Option<ReadStatus> {
    match code
    case 0 => Some(ReadOk)
    case 1 => Some(CallFailed)
    case 2 => Some(Malformed)
    case 3 => Some(ReadStale)
    case _ => None
  }

  const I128_HALF: int := 0x8000_0000_0000_0000_0000_0000_0000_0000

  datatype Snapshot = Snapshot(
    supplyInvariantHolds: bool,
    fixedMaxSupply: nat,
    sumAllBalances: nat,
    poolBalance: nat,
    poolSource: ReadStatus,
    poolDeltaHealthy: bool,
    poolPublicDelta: int,
    poolAttestedAt: nat,
    treasuryRead: ReadStatus,
    treasuryStray: nat,
    supplyInvariantUnavailable: bool,
    refreshedAt: nat,
    maxStaleness: nat,
    status: SnapshotStatus,
    healthy: bool,
    schemaVersion: nat)
  {
    /** The ranges of the field types. */
    predicate InRange() {
      && fixedMaxSupply <= U128_MAX && sumAllBalances <= U128_MAX && poolBalance <= U128_MAX
      && -I128_HALF <= poolPublicDelta < I128_HALF
      && poolAttestedAt <= U64_MAX && treasuryStray <= U128_MAX
      && refreshedAt <= U64_MAX && maxStaleness <= U64_MAX && schemaVersion <= U32_MAX
    }
  }

  /** The ASCII bytes of "stsh-smoke-alarm-v1". */
  const DOMAIN_TAG: Bytes := [
    0x73, 0x74, 0x73, 0x68, 0x2d, 0x73, 0x6d, 0x6f, 0x6b, 0x65, 0x2d, 0x61, 0x6c, 0x61, 0x72, 0x6d,
    0x2d, 0x76, 0x31]

  const CANONICAL_LEN: nat := 131

  const FIELD_WIDTHS: seq<nat> := [19, 4, 1, 1] + [16, 16, 16, 8] + [8, 1, 1, 16] + [8, 16]

  function Bit(b: bool): nat {
    if b then 1 else 0
  }

  /** Bit 3 is a presence bit derived from the stray amount; bits 5 to 7 stay clear. */
  function Flags(s: Snapshot): (f: byte)
    ensures f < 32
  {
    Bit(s.supplyInvariantHolds) + 2 * Bit(s.healthy) + 4 * Bit(s.poolDeltaHealthy)
    + 8 * Bit(s.treasuryStray > 0) + 16 * Bit(s.supplyInvariantUnavailable)
  }

  function ToTwos(i: int): nat
    requires -I128_HALF <= i
  {
    if i < 0 then i + 2 * I128_HALF else i
  }

  function FromTwos(n: nat): int {
    if n as int < I128_HALF then n else n - 2 * I128_HALF
  }

  function Parts(s: Snapshot): (p: seq<Bytes>)
    requires s.InRange()
    ensures |p| == 14
  {
    [DOMAIN_TAG, ToBE(s.schemaVersion, 4), [s.status.Code()], [Flags(s)],
     ToBE(s.fixedMaxSupply, 16), ToBE(s.sumAllBalances, 16), ToBE(s.poolBalance, 16),
     ToBE(s.refreshedAt, 8), ToBE(s.maxStaleness, 8),
     [s.poolSource.Code()], [s.treasuryRead.Code()], ToBE(ToTwos(s.poolPublicDelta), 16),
     ToBE(s.poolAttestedAt, 8), ToBE(s.treasuryStray, 16)]
  }

  function Encode(s: Snapshot): Bytes
    requires s.InRange()
  {
    Join(Parts(s))
  }

  /** The bytes as the canister builds them, field appended to field. */
  method CanonicalBytes(s: Snapshot) returns (out: Bytes)
    requires s.InRange()
    ensures out == Encode(s) && |out| == CANONICAL_LEN
  {
    hide Join, ToBE;
    out := DOMAIN_TAG;
    out := out + ToBE(s.schemaVersion, 4);
    out := out + [s.status.Code()];
    out := out + [Flags(s)];
    out := out + ToBE(s.fixedMaxSupply, 16);
    out := out + ToBE(s.sumAllBalances, 16);
    out := out + ToBE(s.poolBalance, 16);
    out := out + ToBE(s.refreshedAt, 8);
    out := out + ToBE(s.maxStaleness, 8);
    out := out + [s.poolSource.Code()];
    out := out + [s.treasuryRead.Code()];
    out := out + ToBE(ToTwos(s.poolPublicDelta), 16);
    out := out + ToBE(s.poolAttestedAt, 8);
    out := out + ToBE(s.treasuryStray, 16);
    JoinedParts(Parts(s));
    SnapshotRoundTrip(s);
  }

  /** Fourteen fields appended one after the other. */
  lemma JoinedParts(p: seq<Bytes>)
    requires |p| == 14
    ensures Join(p) == p[0] + p[1] + p[2] + p[3] + p[4] + p[5] + p[6] + p[7] + p[8] + p[9] + p[10] + p[11] + p[12] + p[13]
  {
    hide Join;
    assert Join(p[..0]) == [] by {
      Nothing(p[..0]);
    }
    forall k | 0 <= k < 14 ensures Join(p[..k + 1]) == Join(p[..k]) + p[k] {
      JoinNext(p, k);
    }
    assert Join(p[..0 + 1]) == p[0] && Join(p[..1 + 1]) == p[0] + p[1];
    assert Join(p[..2 + 1]) == p[0] + p[1] + p[2] && Join(p[..3 + 1]) == p[0] + p[1] + p[2] + p[3];
    assert p[..14] == p;
  }

  /** The leaf byte by byte: where each of the sixteen fields stands, and in which form. */
  lemma LeafLayout(s: Snapshot)
    requires s.InRange()
    ensures
      var b := Encode(s);
      && |b| == 131 && b[0..19] == DOMAIN_TAG && FromBE(b[19..23]) == s.schemaVersion
      && b[23] == (match s.status case Fresh => 0 case Stale => 1 case RefreshFailed => 2 case SourceCallFailed => 3)
      && FromBE(b[25..41]) == s.fixedMaxSupply && FromBE(b[41..57]) == s.sumAllBalances && FromBE(b[57..73]) == s.poolBalance
      && FromBE(b[73..81]) == s.refreshedAt && FromBE(b[81..89]) == s.maxStaleness
      && b[89] == ReadCode(s.poolSource) && b[90] == ReadCode(s.treasuryRead)
      && FromBE(b[91..107]) == (if s.poolPublicDelta < 0 then s.poolPublicDelta + 2 * I128_HALF else s.poolPublicDelta)
      && FromBE(b[107..115]) == s.poolAttestedAt && FromBE(b[115..131]) == s.treasuryStray
    ensures
      Encode(s)[24] == (if s.supplyInvariantHolds then 1 else 0) + (if s.healthy then 2 else 0)
        + (if s.poolDeltaHealthy then 4 else 0) + (if s.treasuryStray > 0 then 8 else 0)
        + (if s.supplyInvariantUnavailable then 16 else 0)
  {
    hide FromBE, ToBE, Join;
    var b, p := Encode(s), Parts(s);
    JoinedParts(p);
    Pow256Values();
    BERoundTrip(s.schemaVersion, 4);
    assert b[0..19] == p[0] && b[19..23] == p[1] && b[23] == p[2][0] && b[24] == p[3][0];
    BERoundTrip(s.fixedMaxSupply, 16);
    BERoundTrip(s.sumAllBalances, 16);
    BERoundTrip(s.poolBalance, 16);
    assert b[25..41] == p[4] && b[41..57] == p[5] && b[57..73] == p[6];
    BERoundTrip(s.refreshedAt, 8);
    BERoundTrip(s.maxStaleness, 8);
    assert b[73..81] == p[7] && b[81..89] == p[8] && b[89] == p[9][0] && b[90] == p[10][0];
    BERoundTrip(ToTwos(s.poolPublicDelta), 16);
    BERoundTrip(s.poolAttestedAt, 8);
    BERoundTrip(s.treasuryStray, 16);
    assert b[91..107] == p[11] && b[107..115] == p[12] && b[115..131] == p[13];
  }

  function ReadCode(r: ReadStatus): byte {
    match r
    case ReadOk => 0
    case CallFailed => 1
    case Malformed => 2
    case ReadStale => 3
  }

  lemma Nothing(p: seq<Bytes>)
    requires p == []
    ensures Join(p) == []
  {
  }

  // ---------- reading the bytes back ----------

  function HasBit(flags: nat, bit: nat): bool
    requires bit > 0
  {
    flags / bit % 2 == 1
  }

  function FromParts(p: seq<Bytes>): Option<Snapshot>
    requires |p| == 14 && Widths(p) == FIELD_WIDTHS
  {
    assert forall i :: 0 <= i < 14 ==> |p[i]| == Widths(p)[i];
    var flags := p[3][0];
    var status, pool, treasury := StatusOf(p[2][0]), ReadStatusOf(p[9][0]), ReadStatusOf(p[10][0]);
    var stray := FromBE(p[13]);
    if p[0] != DOMAIN_TAG || status.None? || pool.None? || treasury.None? || flags >= 32
       || HasBit(flags, 8) != (stray > 0)
    then None
    else Some(Snapshot(
      HasBit(flags, 1), FromBE(p[4]), FromBE(p[5]), FromBE(p[6]), pool.value, HasBit(flags, 4),
      FromTwos(FromBE(p[11])), FromBE(p[12]), treasury.value, stray, HasBit(flags, 16),
      FromBE(p[7]), FromBE(p[8]), status.value, HasBit(flags, 2), FromBE(p[1])))
  }

  /** What a reader of the verified leaf can recover; anything malformed is rejected. */
  function Decode(b: Bytes): Option<Snapshot> {
    if |b| != CANONICAL_LEN then None
    else
      WidthsTotal();
      JoinSplit(b, FIELD_WIDTHS);
      FromParts(Split(b, FIELD_WIDTHS))
  }

  lemma WidthsTotal()
    ensures Total(FIELD_WIDTHS) == CANONICAL_LEN && |FIELD_WIDTHS| == 14
  {
    hide Total;
    TotalOf4([19, 4, 1, 1]);
    TotalOf4([16, 16, 16, 8]);
    TotalOf4([8, 1, 1, 16]);
    TotalOf2([8, 16]);
    TotalConcat([19, 4, 1, 1], [16, 16, 16, 8]);
    TotalConcat([19, 4, 1, 1] + [16, 16, 16, 8], [8, 1, 1, 16]);
    TotalConcat([19, 4, 1, 1] + [16, 16, 16, 8] + [8, 1, 1, 16], [8, 16]);
  }

  lemma PartsWidths(s: Snapshot)
    requires s.InRange()
    ensures Widths(Parts(s)) == FIELD_WIDTHS
  {
  }

  lemma FlagBits(s: Snapshot)
    ensures HasBit(Flags(s), 1) == s.supplyInvariantHolds
    ensures HasBit(Flags(s), 2) == s.healthy
    ensures HasBit(Flags(s), 4) == s.poolDeltaHealthy
    ensures HasBit(Flags(s), 8) == (s.treasuryStray > 0)
    ensures HasBit(Flags(s), 16) == s.supplyInvariantUnavailable
  {
  }

  lemma PartsRoundTrip(s: Snapshot)
    requires s.InRange()
    ensures Widths(Parts(s)) == FIELD_WIDTHS && FromParts(Parts(s)) == Some(s)
  {
    hide FromBE, ToBE, HasBit, Flags;
    PartsWidths(s);
    FlagBits(s);
    Pow256Values();
    BERoundTrip(s.schemaVersion, 4);
    BERoundTrip(s.fixedMaxSupply, 16);
    BERoundTrip(s.sumAllBalances, 16);
    BERoundTrip(s.poolBalance, 16);
    BERoundTrip(s.refreshedAt, 8);
    BERoundTrip(s.maxStaleness, 8);
    BERoundTrip(ToTwos(s.poolPublicDelta), 16);
    BERoundTrip(s.poolAttestedAt, 8);
    BERoundTrip(s.treasuryStray, 16);
  }

  /** Every one of the 16 fields is recovered from the 131 bytes. */
  lemma SnapshotRoundTrip(s: Snapshot)
    requires s.InRange()
    ensures |Encode(s)| == CANONICAL_LEN
    ensures Decode(Encode(s)) == Some(s)
  {
    PartsRoundTrip(s);
    SplitJoin(Parts(s));
    WidthsTotal();
  }

  /** Two different snapshots never share a certified leaf. */
  lemma EncodeInjective(s: Snapshot, s': Snapshot)
    requires s.InRange() && s'.InRange() && Encode(s) == Encode(s')
    ensures s == s'
  {
    SnapshotRoundTrip(s);
    SnapshotRoundTrip(s');
  }

  /** The reader accepts nothing but encodings: what decodes re-encodes to the same bytes. */
  lemma DecodeIsStrict(b: Bytes)
    requires Decode(b).Some?
    ensures Decode(b).value.InRange() && Encode(Decode(b).value) == b
  {
    WidthsTotal();
    JoinSplit(b, FIELD_WIDTHS);
    var p := Split(b, FIELD_WIDTHS);
    PartsReencode(p);
  }

  lemma FieldsFit(p: seq<Bytes>)
    requires |p| == 14 && Widths(p) == FIELD_WIDTHS
    ensures forall i :: 0 <= i < 14 ==> |p[i]| == FIELD_WIDTHS[i] && ToBE(FromBE(p[i]), |p[i]|) == p[i]
    ensures forall i :: 0 <= i < 14 && |p[i]| == 16 ==> FromBE(p[i]) <= U128_MAX
    ensures forall i :: 0 <= i < 14 && |p[i]| == 8 ==> FromBE(p[i]) <= U64_MAX
    ensures forall i :: 0 <= i < 14 && |p[i]| == 4 ==> FromBE(p[i]) <= U32_MAX
  {
    Pow256Values();
    forall i | 0 <= i < 14 ensures |p[i]| == FIELD_WIDTHS[i] && ToBE(FromBE(p[i]), |p[i]|) == p[i] && FromBE(p[i]) < Pow256(|p[i]|) {
      assert |p[i]| == Widths(p)[i];
      BEReencode(p[i]);
      FromBEBound(p[i]);
    }
  }

  lemma PartsReencode(p: seq<Bytes>)
    requires |p| == 14 && Widths(p) == FIELD_WIDTHS && FromParts(p).Some?
    ensures FromParts(p).value.InRange() && Parts(FromParts(p).value) == p
  {
    hide FromBE, ToBE, HasBit, Flags;
    FieldsFit(p);
    var s := FromParts(p).value;
    var q := Parts(s);
    FlagsReencode(p[3][0], s);
    forall i | 0 <= i < 14 ensures q[i] == p[i] {
    }
  }

  lemma FlagsReencode(flags: byte, s: Snapshot)
    requires flags < 32
    requires s.supplyInvariantHolds == HasBit(flags, 1) && s.healthy == HasBit(flags, 2)
    requires s.poolDeltaHealthy == HasBit(flags, 4) && (s.treasuryStray > 0) == HasBit(flags, 8)
    requires s.supplyInvariantUnavailable == HasBit(flags, 16)
    ensures Flags(s) == flags
  {
  }
}
