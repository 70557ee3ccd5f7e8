// The refresh_tokens table and the five statements that touch it
// (internal/db/queries/refresh_tokens.sql).

module RefreshTokens {
  import opened Core

  datatype Row = Row(
    user: UserId,
    family: FamilyId,
    platform: Option<Platform>,
    usedAt: Option<Time>,
    revokedAt: Option<Time>,
    expiresAt: Time)

  type Table = map<Hash, Row>

  // Days a row outlives its expiry (internal/auth/sweep.go).
  const GRACE_DAYS: nat := 30
  const GRACE: Time := GRACE_DAYS * DAY

  predicate Live(r: Row) {
    r.usedAt.None? && r.revokedAt.None?
  }

  // The WHERE clause of UseRefreshToken.
  predicate Spendable(t: Table, h: Hash, now: Time) {
    h in t && Live(t[h]) && t[h].expiresAt > now
  }

  function Use(t: Table, h: Hash, now: Time): Table
    requires h in t
  {
    t[h := t[h].(usedAt := Some(now))]
  }

  function RevokeRow(r: Row, f: FamilyId, now: Time): Row {
    if r.family == f && r.revokedAt.None? then r.(revokedAt := Some(now)) else r
  }

  function RevokeFamily(t: Table, f: FamilyId, now: Time): Table {
    map h | h in t :: RevokeRow(t[h], f, now)
  }

  function DeleteExpired(t: Table, now: Time): Table {
    map h | h in t && t[h].expiresAt > now - GRACE :: t[h]
  }
}
