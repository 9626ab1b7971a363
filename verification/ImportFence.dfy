/** The commit fence and the import sequence: two decimal markers kept in the
    settings table (internal/api/configsync_apply.go, configsync_apply_models.go,
    configsync_import.go). */
module ImportFence {
  import opened Wrappers
  import opened MemberTables

  // A primary counts generations in a 32-bit column.
  const MAX_SOURCE_GEN := 0x7fff_ffff

  // A stored sequence of more than 18 digits is not advanced but restarted.
  const SEQ_LIMIT := 1_000_000_000_000_000_000

  predicate GenInRange(n: int) {
    0 <= n <= MAX_SOURCE_GEN
  }

  /** A header that is absent, unparseable or out of range is no header. */
  function ParseSourceGen(header: StoredNumber): (gen: Option<int>)
    ensures gen.Some? ==> GenInRange(gen.value) && header == Number(gen.value)
  {
    if header.Number? && GenInRange(header.n) then Some(header.n) else None
  }

  /** The highest applied generation; None while no fenced import has run. A marker
      that cannot be trusted floors to 0 but still fences. */
  function AppliedGen(marker: StoredNumber): (gen: Option<int>)
    ensures gen.None? <==> marker.NoRow?
    ensures gen.Some? ==> GenInRange(gen.value)
  {
    match marker
    case NoRow => None
    case Unparseable => Some(0)
    case Number(n) => if GenInRange(n) then Some(n) else Some(0)
  }

  /** A fenced push must not be older than the marker; an unfenced one needs no marker at all. */
  predicate Admits(marker: StoredNumber, gen: Option<int>) {
    match gen
    case Some(g) => AppliedGen(marker).None? || AppliedGen(marker).value <= g
    case None => AppliedGen(marker).None?
  }

  function Advanced(marker: StoredNumber, gen: Option<int>): StoredNumber {
    if gen.Some? then Number(gen.value) else marker
  }

  /** The number the next import takes. */
  function NextSeq(stored: StoredNumber): int {
    match stored
    case Number(n) => if 0 <= n < SEQ_LIMIT then n + 1 else 1
    case _ => 1
  }

  /** The latest committed import's number as a section reads it. */
  function ReadSeq(stored: StoredNumber): int {
    if stored.Number? then stored.n else 0
  }

  /** Refused exactly: an unfenced import once there is any marker, and a fenced one that is older
      than the marker, which counts as 0 unless it is a 32-bit generation. */
  lemma RefusedExactly(marker: StoredNumber, gen: Option<int>)
    ensures !Admits(marker, gen)
            <==> !marker.NoRow?
                 && (gen.None? || gen.value < if marker.Number? && 0 <= marker.n <= 0x7fff_ffff then marker.n else 0)
  {
  }

  /** An admitted import never lowers the generation the member reads back. */
  lemma FenceMonotone(marker: StoredNumber, gen: Option<int>)
    requires Admits(marker, gen) && (gen.Some? ==> GenInRange(gen.value))
    ensures AppliedGen(marker).Some? ==>
              AppliedGen(Advanced(marker, gen)).Some? && gen.Some?
              && AppliedGen(marker).value <= AppliedGen(Advanced(marker, gen)).value == gen.value
  {
  }
}
