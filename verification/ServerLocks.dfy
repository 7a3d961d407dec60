/**
  The per-host backup mutex: a table from host to token with an expiry time.
  A key is in force while its expiry lies ahead.
*/
module ServerLocks {
  import opened Wrappers

  type Host = nat

  const MIN_TTL := 30
  const DEFAULT_TTL := 7200

  /** A token names its holder and the acquisition that drew it. */
  datatype Token = Token(holder: nat, serial: nat)

  datatype Key = Key(token: Token, until: nat)

  type Locks = map<Host, Key>

  function Effective(ttl: nat): nat {
    if ttl < MIN_TTL then MIN_TTL else ttl
  }

  predicate Free(locks: Locks, host: Host, now: nat) {
    host in locks ==> locks[host].until <= now
  }

  /** Release works only with the token that holds the key. */
  function Released(locks: Locks, host: Host, token: Token): Locks {
    if host in locks && locks[host].token == token then locks - {host} else locks
  }

  /** The keys that still count. */
  function InForce(locks: Locks, now: nat): Locks {
    map host | host in locks && locks[host].until > now :: locks[host]
  }

  /** A dual acquire with both keys drawn, or nothing. */
  function BothTaken(locks: Locks, first: Host, t1: Token, second: Host, t2: Token, until: nat): Locks {
    locks[first := Key(t1, until)][second := Key(t2, until)]
  }

  function DualReleased(locks: Locks, a: Host, ta: Token, b: Host, tb: Token): Locks {
    if a == b then Released(locks, a, ta) else Released(Released(locks, a, ta), b, tb)
  }

  /** Hosts in the order a task takes them: lower id first, one key when both are the same. */
  function Ascending(a: Host, b: Host): seq<Host> {
    if a == b then [a] else if a < b then [a, b] else [b, a]
  }

  /** A lock lives at least thirty seconds, and otherwise as long as it is asked to. */
  lemma EffectiveIsAtLeastThirty(ttl: nat)
    ensures Effective(ttl) >= 30 && Effective(ttl) >= ttl && Effective(ttl) in {30, ttl}
  {
  }

  /** A host is free exactly when no key for it is in force: from the second its expiry is reached. */
  lemma FreeIffNotInForce(locks: Locks, host: Host, now: nat)
    ensures Free(locks, host, now) <==> host !in InForce(locks, now)
    ensures host in locks && locks[host].until == now ==> Free(locks, host, now)
    ensures host in locks && locks[host].until == now + 1 ==> !Free(locks, host, now)
  {
  }

  /** Both hosts, once each, the lower id first. */
  lemma AscendingIsSorted(a: Host, b: Host)
    ensures var hosts := Ascending(a, b);
            && (forall h :: h in hosts <==> h == a || h == b)
            && (forall i, j :: 0 <= i < j < |hosts| ==> hosts[i] < hosts[j])
  {
  }

  /** A release with the right token undoes the acquire that gave it, as far as keys in force go. */
  lemma ReleaseUndoesAcquire(locks: Locks, host: Host, token: Token, now: nat, until: nat)
    requires Free(locks, host, now)
    ensures InForce(Released(locks[host := Key(token, until)], host, token), now) == InForce(locks, now)
  {
  }

  /** The same for a pair of hosts, released in the caller's order, and for a pair on one host. */
  lemma DualReleaseUndoesAcquire(locks: Locks, a: Host, ta: Token, b: Host, tb: Token, now: nat, until: nat)
    requires Free(locks, a, now) && Free(locks, b, now)
    requires a == b ==> ta == tb
    ensures InForce(DualReleased(BothTaken(locks, a, ta, b, tb, until), a, ta, b, tb), now) == InForce(locks, now)
  {
  }

  /** Without its token nobody can release a key. */
  lemma ForeignReleaseIsNoOp(locks: Locks, host: Host, token: Token)
    requires host in locks && locks[host].token != token
    ensures Released(locks, host, token) == locks
  {
  }

  class LockStore {
    var locks: Locks
    var drawn: nat

    /** Tokens are unique: no stored token has a serial that is still to be drawn. */
    ghost predicate Valid()
      reads this
    {
      forall host :: host in locks ==> locks[host].token.serial < drawn
    }

    constructor ()
      ensures Valid() && locks == map[]
    {
      locks := map[];
      drawn := 0;
    }

    method TryAcquire(host: Host, holder: nat, now: nat, ttl: nat) returns (token: Option<Token>)
      requires Valid()
      modifies this
      ensures Valid() && drawn == old(drawn) + 1
      ensures token.Some? <==> Free(old(locks), host, now)
      ensures token.Some? ==> token.value == Token(holder, old(drawn))
      ensures token.Some? ==> host in locks && locks[host].until >= now + 30
      ensures locks == if token.Some? then old(locks)[host := Key(token.value, now + Effective(ttl))] else old(locks)
    {
      var life := if ttl < MIN_TTL then MIN_TTL else ttl;
      var drawnToken := Token(holder, drawn);
      drawn := drawn + 1;
      if host in locks && locks[host].until > now && locks[host].token != drawnToken {
        return None;
      }
      locks := locks[host := Key(drawnToken, now + life)];
      return Some(drawnToken);
    }

    method Release(host: Host, token: Token) returns (done: bool)
      requires Valid()
      modifies this`locks
      ensures Valid()
      ensures done <==> host in old(locks) && old(locks)[host].token == token
      ensures locks == Released(old(locks), host, token)
    {
      if host !in locks || locks[host].token != token {
        return false;
      }
      locks := locks - {host};
      return true;
    }

    /**
      Both hosts or none. The lower id is tried first, and given back when the
      other host is busy. On a refusal every key in force is as before.
    */
    method TryAcquireDual(a: Host, b: Host, holder: nat, now: nat, ttl: nat) returns (tokens: Option<(Token, Token)>)
      requires Valid()
      modifies this
      ensures Valid()
      ensures tokens.Some? <==> Free(old(locks), a, now) && Free(old(locks), b, now)
      ensures tokens.Some? ==> tokens.value.0.holder == tokens.value.1.holder == holder
      ensures tokens.Some? && a == b ==> tokens.value.0 == tokens.value.1
      ensures tokens.Some? && a != b ==> (a < b <==> tokens.value.0.serial < tokens.value.1.serial)
      ensures tokens.Some? ==>
                forall host :: host in old(locks) ==> old(locks)[host].token !in {tokens.value.0, tokens.value.1}
      ensures tokens.Some? ==>
                locks == BothTaken(old(locks), a, tokens.value.0, b, tokens.value.1, now + Effective(ttl))
      ensures tokens.None? ==> InForce(locks, now) == InForce(old(locks), now)
    {
      if a == b {
        var tok := TryAcquire(a, holder, now, ttl);
        if tok.None? {
          return None;
        }
        return Some((tok.value, tok.value));
      }
      var first, second := a, b;
      if b < a {
        first, second := b, a;
      }
      var t1 := TryAcquire(first, holder, now, ttl);
      if t1.None? {
        return None;
      }
      var t2 := TryAcquire(second, holder, now, ttl);
      if t2.None? {
        var _ := Release(first, t1.value);
        ReleaseUndoesAcquire(old(locks), first, t1.value, now, now + Effective(ttl));
        return None;
      }
      if a < b {
        return Some((t1.value, t2.value));
      }
      assert old(locks)[first := Key(t1.value, now + Effective(ttl))][second := Key(t2.value, now + Effective(ttl))]
          == BothTaken(old(locks), a, t2.value, b, t1.value, now + Effective(ttl));
      return Some((t2.value, t1.value));
    }

    /** Gives back both tokens. A pair on one host is released once. */
    method ReleaseDual(a: Host, ta: Token, b: Host, tb: Token)
      requires Valid()
      modifies this`locks
      ensures Valid()
      ensures locks == DualReleased(old(locks), a, ta, b, tb)
    {
      var _ := Release(a, ta);
      if a != b {
        var _ := Release(b, tb);
      }
    }
  }
}
