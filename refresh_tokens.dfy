/**
 * The refresh-token table and the service over it. Times are instants in
 * milliseconds; the token digest (SHA-256 then base64url) is an arbitrary
 * function fixed when the service is built; the random raw token is a
 * parameter. Rows are addressed by their position in the table.
 */
module RefreshTokens {
  import opened Wrappers
  import Finite

  /** `MAX_TOKENS_PER_USER`. */
  const MaxTokensPerUser: nat := 5
  const DayMillis: int := 86_400_000
  /** Revoked tokens are deleted this long after their last update. */
  const RevokedRetention: int := 30 * DayMillis

  /** A stored refresh token. */
  datatype Token = Token(hash: string, user: nat, expiresAt: int, revoked: bool, createdAt: int, updatedAt: int)

  /** A token that still works: not revoked and not expired. */
  predicate IsValidAt(t: Token, now: int)
  {
    !t.revoked && t.expiresAt > now
  }

  /** The filter of the active-token query for one user. */
  predicate ActiveFor(t: Token, user: nat, now: int)
  {
    t.user == user && IsValidAt(t, now)
  }

  /** Rows in creation order: the table is appended to as the clock advances. */
  ghost predicate CreatedSorted(rows: seq<Token>)
  {
    forall i, j :: 0 <= i < j < |rows| ==> rows[i].createdAt <= rows[j].createdAt
  }

  // ---------------------------------------------------------------------------
  // Queries

  /** `findByTokenHash`: the row with that hash. */
  function FindByTokenHash(rows: seq<Token>, h: string): (r: Option<nat>)
    ensures r.Some? ==> r.value < |rows| && rows[r.value].hash == h
    ensures r.Some? ==> forall j :: 0 <= j < r.value ==> rows[j].hash != h
    ensures r.None? ==> forall j :: 0 <= j < |rows| ==> rows[j].hash != h
  {
    if rows == [] then None
    else if rows[0].hash == h then Some(0)
    else
      var r := FindByTokenHash(rows[1..], h);
      if r.Some? then Some(r.value + 1) else None
  }

  /**
   * `findActiveTokensByUserAccountOrderByCreatedAtDesc`: the positions of the
   * user's active tokens, newest row first.
   */
  function ActiveTokens(rows: seq<Token>, user: nat, now: int): (r: seq<nat>)
    ensures forall k :: 0 <= k < |r| ==> r[k] < |rows| && ActiveFor(rows[r[k]], user, now)
    ensures forall i :: 0 <= i < |rows| && ActiveFor(rows[i], user, now) ==> i in r
    ensures forall k, l :: 0 <= k < l < |r| ==> r[k] > r[l]
  {
    if rows == [] then []
    else
      var n := |rows| - 1;
      var rest := ActiveTokens(rows[..n], user, now);
      if ActiveFor(rows[n], user, now) then [n] + rest else rest
  }

  /** The query's `ORDER BY createdAt DESC`. */
  lemma ActiveTokensNewestFirst(rows: seq<Token>, user: nat, now: int)
    requires CreatedSorted(rows)
    ensures var r := ActiveTokens(rows, user, now);
      forall k, l :: 0 <= k < l < |r| ==> rows[r[k]].createdAt >= rows[r[l]].createdAt
  {
  }

  /** The number of the user's active tokens. */
  ghost function ActiveCount(rows: seq<Token>, user: nat, now: int): nat
  {
    |set i | 0 <= i < |rows| && ActiveFor(rows[i], user, now)|
  }

  /** The ordered listing holds every active token once. */
  lemma ActiveTokensCount(rows: seq<Token>, user: nat, now: int)
    ensures |ActiveTokens(rows, user, now)| == ActiveCount(rows, user, now)
  {
    var r := ActiveTokens(rows, user, now);
    assert (set i | 0 <= i < |rows| && ActiveFor(rows[i], user, now)) == (set k | 0 <= k < |r| :: r[k]);
    DecreasingCard(r);
  }

  /** A strictly decreasing sequence has as many elements as values. */
  lemma {:induction false} DecreasingCard(r: seq<nat>)
    requires forall k, l :: 0 <= k < l < |r| ==> r[k] > r[l]
    ensures |set k | 0 <= k < |r| :: r[k]| == |r|
  {
    if r != [] {
      var tail := r[1..];
      DecreasingCard(tail);
      assert (set k | 0 <= k < |r| :: r[k]) == {r[0]} + (set k | 0 <= k < |tail| :: tail[k]);
      assert r[0] !in (set k | 0 <= k < |tail| :: tail[k]);
    }
  }

  /** `countByIsRevokedFalseAndExpiresAtAfter`. */
  function CountActive(rows: seq<Token>, now: int): (n: nat)
    ensures n <= |rows|
  {
    if rows == [] then 0 else CountActive(rows[1..], now) + (if IsValidAt(rows[0], now) then 1 else 0)
  }

  /** `countByExpiresAtBefore`. */
  function CountExpiredBefore(rows: seq<Token>, now: int): (n: nat)
    ensures n <= |rows|
  {
    if rows == [] then 0 else CountExpiredBefore(rows[1..], now) + (if rows[0].expiresAt < now then 1 else 0)
  }

  /** `countByIsRevokedTrue`. */
  function CountRevoked(rows: seq<Token>): (n: nat)
    ensures n <= |rows|
  {
    if rows == [] then 0 else CountRevoked(rows[1..]) + (if rows[0].revoked then 1 else 0)
  }

  /** An active token is neither revoked nor expired, so the health counts never overlap. */
  lemma {:induction false} CountsDisjoint(rows: seq<Token>, now: int)
    ensures CountActive(rows, now) + CountRevoked(rows) <= |rows|
    ensures CountActive(rows, now) + CountExpiredBefore(rows, now) <= |rows|
  {
    if rows != [] {
      CountsDisjoint(rows[1..], now);
    }
  }

  // ---------------------------------------------------------------------------
  // Bulk statements

  /** The table after `UPDATE ... SET isRevoked = true WHERE userAccount = :user`. */
  function RevokedAll(rows: seq<Token>, user: nat): (r: seq<Token>)
    ensures |r| == |rows|
    ensures forall i :: 0 <= i < |rows| && rows[i].user != user ==> r[i] == rows[i]
    ensures forall i :: 0 <= i < |rows| && rows[i].user == user ==> r[i] == rows[i].(revoked := true)
  {
    seq(|rows|, i requires 0 <= i < |rows| => if rows[i].user == user then rows[i].(revoked := true) else rows[i])
  }

  /** After revoking all, the user has no active token at any time, and other users keep theirs. */
  lemma RevokedAllDeactivates(rows: seq<Token>, user: nat, other: nat, now: int)
    requires other != user
    ensures ActiveTokens(RevokedAll(rows, user), user, now) == []
    ensures ActiveTokens(RevokedAll(rows, user), other, now) == ActiveTokens(rows, other, now)
  {
    var r := RevokedAll(rows, user);
    assert forall i :: 0 <= i < |r| ==> !ActiveFor(r[i], user, now);
    ActiveTokensEmpty(r, user, now);
    forall i | 0 <= i < |rows|
      ensures ActiveFor(r[i], other, now) == ActiveFor(rows[i], other, now)
    {
    }
    ActiveTokensSameFilter(rows, r, other, now);
  }

  lemma {:induction false} ActiveTokensEmpty(rows: seq<Token>, user: nat, now: int)
    requires forall i :: 0 <= i < |rows| ==> !ActiveFor(rows[i], user, now)
    ensures ActiveTokens(rows, user, now) == []
  {
    if rows != [] {
      ActiveTokensEmpty(rows[..|rows| - 1], user, now);
    }
  }

  /** The listing depends only on which rows pass the filter. */
  lemma {:induction false} ActiveTokensSameFilter(a: seq<Token>, b: seq<Token>, user: nat, now: int)
    requires |a| == |b|
    requires forall i :: 0 <= i < |a| ==> ActiveFor(a[i], user, now) == ActiveFor(b[i], user, now)
    ensures ActiveTokens(a, user, now) == ActiveTokens(b, user, now)
  {
    if a != [] {
      var n := |a| - 1;
      ActiveTokensSameFilter(a[..n], b[..n], user, now);
    }
  }

  /** The table after `DELETE ... WHERE expiresAt < :now`. */
  function Unexpired(rows: seq<Token>, now: int): (r: seq<Token>)
    ensures forall t :: t in r <==> t in rows && t.expiresAt >= now
    ensures |r| + CountExpiredBefore(rows, now) == |rows|
  {
    if rows == [] then []
    else if rows[0].expiresAt < now then Unexpired(rows[1..], now)
    else [rows[0]] + Unexpired(rows[1..], now)
  }

  /** A revoked token whose last update is older than the cutoff. */
  predicate StaleRevoked(t: Token, cutoff: int)
  {
    t.revoked && t.updatedAt < cutoff
  }

  /** The table after `DELETE ... WHERE isRevoked = true AND updatedAt < :cutoff`. */
  function NotStale(rows: seq<Token>, cutoff: int): (r: seq<Token>)
    ensures forall t :: t in r <==> t in rows && !StaleRevoked(t, cutoff)
    ensures |rows| - CountRevoked(rows) <= |r| <= |rows|
  {
    if rows == [] then []
    else if StaleRevoked(rows[0], cutoff) then NotStale(rows[1..], cutoff)
    else [rows[0]] + NotStale(rows[1..], cutoff)
  }

  /** Rows at the listed positions marked revoked and stamped, as `save`/`saveAll` write them. */
  function MarkRevoked(rows: seq<Token>, idx: seq<nat>, now: int): (r: seq<Token>)
    ensures |r| == |rows|
    ensures forall i :: 0 <= i < |rows| && i !in idx ==> r[i] == rows[i]
    ensures forall i :: 0 <= i < |rows| && i in idx ==> r[i] == rows[i].(revoked := true, updatedAt := now)
  {
    seq(|rows|, i requires 0 <= i < |rows| => if i in idx then rows[i].(revoked := true, updatedAt := now) else rows[i])
  }

  /** Marking one more listed position, not listed before, extends the marking by that row. */
  lemma MarkRevokedStep(rows: seq<Token>, revoke: seq<nat>, k: nat, now: int)
    requires k < |revoke| && revoke[k] < |rows|
    requires forall a, b :: 0 <= a < b < |revoke| ==> revoke[a] > revoke[b]
    ensures var before := MarkRevoked(rows, revoke[..k], now);
      before[revoke[k] := before[revoke[k]].(revoked := true, updatedAt := now)] == MarkRevoked(rows, revoke[..k + 1], now)
  {
    var before := MarkRevoked(rows, revoke[..k], now);
    assert revoke[k] !in revoke[..k];
    assert revoke[..k + 1] == revoke[..k] + [revoke[k]];
  }

  /** The table after `cleanupUserTokens`: with five or more active tokens, all but the four newest are revoked. */
  function Capped(rows: seq<Token>, user: nat, now: int): seq<Token>
  {
    var active := ActiveTokens(rows, user, now);
    if |active| >= MaxTokensPerUser then MarkRevoked(rows, active[MaxTokensPerUser - 1..], now) else rows
  }

  /**
   * The cap: afterwards the user has at most four active tokens, the ones
   * kept are newer than the ones revoked, and nobody else's token changes.
   */
  lemma CappedBound(rows: seq<Token>, user: nat, now: int)
    requires CreatedSorted(rows)
    ensures ActiveCount(Capped(rows, user, now), user, now) < MaxTokensPerUser
    ensures var active := ActiveTokens(rows, user, now);
      forall k, l :: 0 <= k < MaxTokensPerUser - 1 <= l < |active| ==> rows[active[k]].createdAt >= rows[active[l]].createdAt
    ensures forall i :: 0 <= i < |rows| && rows[i].user != user ==> Capped(rows, user, now)[i] == rows[i]
    ensures CreatedSorted(Capped(rows, user, now))
  {
    ActiveTokensNewestFirst(rows, user, now);
    CappedFew(rows, user, now);
    var c := Capped(rows, user, now);
    assert |c| == |rows| && forall i :: 0 <= i < |rows| ==> c[i].createdAt == rows[i].createdAt;
  }

  lemma CappedFew(rows: seq<Token>, user: nat, now: int)
    ensures ActiveCount(Capped(rows, user, now), user, now) < MaxTokensPerUser
  {
    var active := ActiveTokens(rows, user, now);
    ActiveTokensCount(rows, user, now);
    if |active| >= MaxTokensPerUser {
      var c := MarkRevoked(rows, active[MaxTokensPerUser - 1..], now);
      var keep := active[..MaxTokensPerUser - 1];
      var kept := set k | 0 <= k < |keep| :: keep[k];
      var after := set i | 0 <= i < |c| && ActiveFor(c[i], user, now);
      forall i | i in after
        ensures i in kept
      {
        assert i !in active[MaxTokensPerUser - 1..];
        assert ActiveFor(rows[i], user, now);
        var k :| 0 <= k < |active| && active[k] == i;
        assert k < MaxTokensPerUser - 1;
        assert keep[k] == i;
      }
      CardAtMost(keep);
      Finite.SubsetCount(after, kept);
    }
  }

  lemma {:induction false} CardAtMost(r: seq<nat>)
    ensures |set k | 0 <= k < |r| :: r[k]| <= |r|
  {
    if r != [] {
      var tail := r[1..];
      CardAtMost(tail);
      assert (set k | 0 <= k < |r| :: r[k]) == {r[0]} + (set k | 0 <= k < |tail| :: tail[k]);
    }
  }

  // ---------------------------------------------------------------------------
  // The table and the service

  class TokenService {
    var rows: seq<Token>
    /** `hashToken`. */
    const digest: string -> string
    /** `jwtProperties.getRefreshExpiration()`, in milliseconds. */
    const refreshExpiration: nat

    constructor (digest: string -> string, refreshExpiration: nat)
      ensures rows == [] && this.digest == digest && this.refreshExpiration == refreshExpiration
    {
      this.digest := digest;
      this.refreshExpiration := refreshExpiration;
      rows := [];
    }

    ghost predicate Valid()
      reads this
    {
      CreatedSorted(rows)
    }

    /** The clock has not run backwards past any stored token. */
    ghost predicate NotBefore(now: int)
      reads this
    {
      forall i :: 0 <= i < |rows| ==> rows[i].createdAt <= now
    }

    /** `expiresAt` of a token created at `now`: whole seconds of the configured lifetime. */
    function ExpiryFrom(now: int): int
      reads this
    {
      now + refreshExpiration / 1000 * 1000
    }

    /** `revokeAllByUserAccount`, and `revokeAllUserTokens` which only delegates to it. */
    method RevokeAllByUserAccount(user: nat)
      modifies this
      ensures rows == RevokedAll(old(rows), user)
    {
      var i := 0;
      while i < |rows|
        invariant 0 <= i <= |rows| == |old(rows)|
        invariant forall j :: 0 <= j < i ==> rows[j] == RevokedAll(old(rows), user)[j]
        invariant forall j :: i <= j < |rows| ==> rows[j] == old(rows)[j]
      {
        if rows[i].user == user {
          rows := rows[i := rows[i].(revoked := true)];
        }
        i := i + 1;
      }
    }

    /** `deleteByExpiresAtBefore`. */
    method DeleteByExpiresAtBefore(now: int)
      modifies this
      ensures rows == Unexpired(old(rows), now)
    {
      var kept: seq<Token> := [];
      var i := |rows|;
      while i > 0
        invariant 0 <= i <= |rows| && rows == old(rows)
        invariant kept == Unexpired(rows[i..], now)
      {
        i := i - 1;
        assert rows[i..][1..] == rows[i + 1..];
        if rows[i].expiresAt >= now {
          kept := [rows[i]] + kept;
        }
      }
      rows := kept;
    }

    /** `deleteRevokedTokensOlderThan`. */
    method DeleteRevokedTokensOlderThan(cutoff: int)
      modifies this
      ensures rows == NotStale(old(rows), cutoff)
    {
      var kept: seq<Token> := [];
      var i := |rows|;
      while i > 0
        invariant 0 <= i <= |rows| && rows == old(rows)
        invariant kept == NotStale(rows[i..], cutoff)
      {
        i := i - 1;
        assert rows[i..][1..] == rows[i + 1..];
        if !StaleRevoked(rows[i], cutoff) {
          kept := [rows[i]] + kept;
        }
      }
      rows := kept;
    }

    /** `cleanupUserTokens`: revoke the sub-list from the fifth-newest active token on. */
    method CleanupUserTokens(user: nat, now: int)
      modifies this
      ensures rows == Capped(old(rows), user, now)
    {
      var active := ActiveTokens(rows, user, now);
      if |active| >= MaxTokensPerUser {
        var revoke := active[MaxTokensPerUser - 1..];
        assert forall a, b :: 0 <= a < b < |revoke| ==> revoke[a] > revoke[b] by {
          forall a, b | 0 <= a < b < |revoke|
            ensures revoke[a] > revoke[b]
          {
            assert revoke[a] == active[a + MaxTokensPerUser - 1] && revoke[b] == active[b + MaxTokensPerUser - 1];
          }
        }
        var rs := rows;
        var k := 0;
        while k < |revoke|
          invariant 0 <= k <= |revoke|
          invariant rs == MarkRevoked(old(rows), revoke[..k], now)
        {
          assert revoke[k] == active[k + MaxTokensPerUser - 1];
          MarkRevokedStep(old(rows), revoke, k, now);
          rs := rs[revoke[k] := rs[revoke[k]].(revoked := true, updatedAt := now)];
          k := k + 1;
        }
        assert revoke[..k] == revoke;
        rows := rs;
      }
    }

    /**
     * `createRefreshToken`: cap the user's active tokens, then store only the
     * digest of the raw token, which is returned.
     */
    method CreateRefreshToken(user: nat, raw: string, now: int) returns (token: string)
      requires Valid() && NotBefore(now)
      modifies this
      ensures Valid() && NotBefore(now)
      ensures token == raw
      ensures rows == Capped(old(rows), user, now) + [Token(digest(raw), user, ExpiryFrom(now), false, now, now)]
      ensures ActiveCount(rows, user, now) <= MaxTokensPerUser
    {
      ghost var before := rows;
      CappedBound(rows, user, now);
      CleanupUserTokens(user, now);
      ghost var capped := rows;
      rows := rows + [Token(digest(raw), user, ExpiryFrom(now), false, now, now)];
      token := raw;
      ActiveCountAppend(capped, rows[|rows| - 1], user, now);
      assert forall i :: 0 <= i < |capped| ==> capped[i].createdAt == before[i].createdAt;
    }

    /** `validateRefreshToken`: the stored token with that digest, when it is still valid. */
    method ValidateRefreshToken(raw: string, now: int) returns (r: Option<nat>)
      ensures r.Some? <==> FindByTokenHash(rows, digest(raw)).Some? && IsValidAt(rows[FindByTokenHash(rows, digest(raw)).value], now)
      ensures r.Some? ==> r == FindByTokenHash(rows, digest(raw))
    {
      var found := FindByTokenHash(rows, digest(raw));
      if found.Some? && IsValidAt(rows[found.value], now) {
        r := found;
      } else {
        r := None;
      }
    }

    /** `rotateRefreshToken`: revoke the old token, then create one for the same user. */
    method RotateRefreshToken(at: nat, raw: string, now: int) returns (token: string)
      requires at < |rows| && Valid() && NotBefore(now)
      modifies this
      ensures Valid() && NotBefore(now)
      ensures token == raw
      ensures var revoked := MarkRevoked(old(rows), [at], now);
        rows == Capped(revoked, old(rows)[at].user, now) + [Token(digest(raw), old(rows)[at].user, ExpiryFrom(now), false, now, now)]
    {
      var user := rows[at].user;
      rows := rows[at := rows[at].(revoked := true, updatedAt := now)];
      assert rows == MarkRevoked(old(rows), [at], now);
      token := CreateRefreshToken(user, raw, now);
    }

    /** `revokeRefreshToken`: an unknown token changes nothing. */
    method RevokeRefreshToken(raw: string, now: int)
      modifies this
      ensures var found := FindByTokenHash(old(rows), digest(raw));
        rows == if found.Some? then MarkRevoked(old(rows), [found.value], now) else old(rows)
    {
      var found := FindByTokenHash(rows, digest(raw));
      if found.Some? {
        rows := rows[found.value := rows[found.value].(revoked := true, updatedAt := now)];
      }
    }

    /** `cleanupExpiredTokens`: drop expired tokens, then revoked ones untouched for 30 days. */
    method CleanupExpiredTokens(now: int)
      modifies this
      ensures rows == NotStale(Unexpired(old(rows), now), now - RevokedRetention)
    {
      DeleteByExpiresAtBefore(now);
      DeleteRevokedTokensOlderThan(now - RevokedRetention);
    }
  }

  /** Appending one token adds at most one to the user's active count. */
  lemma ActiveCountAppend(rows: seq<Token>, t: Token, user: nat, now: int)
    ensures ActiveCount(rows + [t], user, now) <= ActiveCount(rows, user, now) + 1
  {
    var r := rows + [t];
    var a := set i | 0 <= i < |rows| && ActiveFor(rows[i], user, now);
    var b := set i | 0 <= i < |r| && ActiveFor(r[i], user, now);
    assert b <= a + {|rows|};
    Finite.SubsetCount(b, a + {|rows|});
  }
}
