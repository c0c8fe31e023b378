/** The reservation table of the cache service and its four atomic statements. */
module ReservationTable {
  import opened Base
  import opened Words

  datatype Row = Row(owner: string, heartbeatSeconds: int, expiresAt: int)

  type Table = map<string, Row>

  datatype RepoError = NotFound | AlreadyExists | NotClaimable | Failure

  /** SELECT by key */
  function Get(t: Table, key: string): Result<Row, RepoError> {
    if key in t then Ok(t[key]) else Err(NotFound)
  }

  /** INSERT ... ON CONFLICT DO NOTHING */
  function Create(t: Table, key: string, row: Row): Result<Table, RepoError> {
    if key in t then Err(AlreadyExists) else Ok(t[key := row])
  }

  /** UPDATE ... WHERE expires_at <= now OR owner_id = owner */
  function UpdateIfExpiredOrOwned(t: Table, key: string, row: Row, now: int): Result<Table, RepoError> {
    if key in t && (t[key].expiresAt <= now || t[key].owner == row.owner) then Ok(t[key := row]) else Err(NotClaimable)
  }

  /** DELETE ... WHERE owner_id = owner */
  function DeleteByKeyAndOwner(t: Table, key: string, owner: string): Result<Table, RepoError> {
    if key in t && t[key].owner == owner then Ok(t - {key}) else Err(NotFound)
  }

  const SECOND := 1_000_000_000

  datatype Config = Config(maxHeartbeat: GoInt, grace: GoInt) {
    /** New replaces values that are not positive. */
    predicate Valid() {
      maxHeartbeat > 0 && grace > 0
    }
  }

  function NewConfig(maxHeartbeat: GoInt, grace: GoInt): (c: Config)
    ensures c.Valid()
    ensures c.maxHeartbeat == maxHeartbeat <==> maxHeartbeat > 0
    ensures c.grace == grace <==> grace > 0
    ensures maxHeartbeat <= 0 ==> c.maxHeartbeat == 10_000_000_000
    ensures grace <= 0 ==> c.grace == 3
  {
    Config(if maxHeartbeat <= 0 then 10 * SECOND else maxHeartbeat, if grace <= 0 then 3 else grace)
  }

  function ResolvedHeartbeat(c: Config, requested: Option<int>): (h: int)
    requires c.Valid()
    ensures 0 < h <= c.maxHeartbeat
    ensures requested.Some? && 0 < requested.value <= c.maxHeartbeat ==> h == requested.value
    ensures requested.None? || requested.value <= 0 || requested.value >= c.maxHeartbeat ==> h == c.maxHeartbeat
  {
    if requested.Some? && 0 < requested.value < c.maxHeartbeat then requested.value else c.maxHeartbeat
  }

  /** How long a granted lease runs; the product of two Go integers may wrap round. */
  function Term(c: Config, requested: Option<int>): GoInt
    requires c.Valid()
  {
    Wrap64(ResolvedHeartbeat(c, requested) * c.grace)
  }

  /** It is the whole product, and positive, exactly if the product is a Go integer. */
  lemma TermIsExact(c: Config, requested: Option<int>)
    requires c.Valid()
    ensures Term(c, requested) == ResolvedHeartbeat(c, requested) * c.grace <==>
      ResolvedHeartbeat(c, requested) * c.grace <= MAX_INT64
    ensures ResolvedHeartbeat(c, requested) * c.grace >= 1
  {
    hide Wrap64;
    var h := ResolvedHeartbeat(c, requested);
    hide ResolvedHeartbeat;
    ProductIsPositive(h, c.grace);
  }

  lemma ProductIsPositive(h: int, grace: int)
    requires h > 0 && grace > 0
    ensures h * grace >= 1
  {
  }

  /** Every configuration grants the shortest request. */
  lemma ShortestTerm(c: Config)
    requires c.Valid()
    ensures Term(c, Some(1)) == c.grace > 0
  {
    assert ResolvedHeartbeat(c, Some(1)) == 1;
  }

  /** A configuration whose leases end before they begin. */
  lemma HugeTermIsNegative()
    ensures Config(0x4000_0000_0000_0000, 2).Valid() && Term(Config(0x4000_0000_0000_0000, 2), None) < 0
  {
    assert 0x4000_0000_0000_0000 * 2 == MAX_INT64 + 1;
  }

  /** The row a call writes when it may own the key; the stored heartbeat drops fractions of a second. */
  function OwnRow(c: Config, owner: string, requested: Option<int>, now: int): Row
    requires c.Valid()
  {
    var h := ResolvedHeartbeat(c, requested);
    Row(owner, h / SECOND, now + Term(c, requested))
  }
}
