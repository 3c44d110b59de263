/** The one-time token ledger entry: its shape, the type enum, the
    defaults, consumption, and the TTL index that deletes entries once
    `expiresAt` has passed. Times are milliseconds since the epoch. */
module TokenModel {
  import opened Documents

  datatype TokenType = EmailVerify | PasswordReset

  /** A ledger entry. Only the hash of the raw token is kept. */
  datatype Token = Token(
    userId: ObjectId,
    tokenHash: string,
    tokenType: TokenType,
    used: bool,
    expiresAt: nat,
    createdAt: nat,
    consumedAt: Option<nat>)

  /** What holds of every entry the ledger has: `used` and `consumedAt`
      are set together. */
  predicate ConsumedConsistently(t: Token)
  {
    t.used <==> t.consumedAt.Some?
  }

  /** `Token.create({userId, tokenHash, type, expiresAt})` at time `now`:
      `used` false, no `consumedAt`, `createdAt` the creation time. */
  function NewToken(userId: ObjectId, tokenHash: string, tokenType: TokenType,
                    expiresAt: nat, now: nat): (t: Token)
    ensures !t.used && t.consumedAt.None? && t.createdAt == now
    ensures ConsumedConsistently(t)
  {
    Token(userId, tokenHash, tokenType, false, expiresAt, now, None)
  }

  /** `used = true; consumedAt = now`. */
  function Consume(t: Token, now: nat): (r: Token)
    ensures r.used && r.consumedAt == Some(now) && ConsumedConsistently(r)
    ensures r.(used := t.used, consumedAt := t.consumedAt) == t
  {
    t.(used := true, consumedAt := Some(now))
  }

  /** The TTL index with `expireAfterSeconds: 0` deletes an entry once
      `expiresAt` lies strictly in the past. */
  predicate Expired(t: Token, now: nat)
  {
    t.expiresAt < now
  }

  /** One pass of the TTL deleter: the ledger with every expired entry
      removed, the rest in their order. */
  function Sweep(ts: seq<Token>, now: nat): (r: seq<Token>)
    ensures |r| <= |ts|
    ensures forall t :: t in r <==> t in ts && !Expired(t, now)
    ensures forall t {:trigger multiset(r)[t]} :: multiset(r)[t] == if Expired(t, now) then 0 else multiset(ts)[t]
    ensures SubsequenceOf(r, ts)
  {
    if ts == [] then []
    else
      assert ts == [ts[0]] + ts[1..];
      if Expired(ts[0], now) then Sweep(ts[1..], now)
      else [ts[0]] + Sweep(ts[1..], now)
  }

  /** A second pass at the same time deletes nothing more. */
  lemma {:induction false} SweepIdempotent(ts: seq<Token>, now: nat)
    ensures Sweep(Sweep(ts, now), now) == Sweep(ts, now)
  {
    if ts != [] {
      SweepIdempotent(ts[1..], now);
    }
  }

  /** The sweep never makes a lookup miss a live entry it found before:
      if the first match of a filter is unexpired, it is still the first
      match after the sweep. */
  lemma {:induction false} SweepKeepsLiveMatch(ts: seq<Token>, p: Token -> bool, now: nat, i: nat)
    requires FindFirst(ts, p) == Some(i) && !Expired(ts[i], now)
    ensures exists j :: FindFirst(Sweep(ts, now), p) == Some(j) && Sweep(ts, now)[j] == ts[i]
  {
    var r := Sweep(ts, now);
    if i == 0 {
      assert r == [ts[0]] + Sweep(ts[1..], now);
      FindFirstUnique(r, p, 0);
    } else {
      var tail := ts[1..];
      FirstAfterHead(ts, p, i);
      SweepKeepsLiveMatch(tail, p, now, i - 1);
      var j :| FindFirst(Sweep(tail, now), p) == Some(j) && Sweep(tail, now)[j] == tail[i - 1];
      if Expired(ts[0], now) {
        assert r == Sweep(tail, now);
      } else {
        assert r == [ts[0]] + Sweep(tail, now);
        SkipHead(r, p, j);
      }
    }
  }
}
