/** The lock on an idempotency key: set if absent, with a time to live. */
module IdempotencyService {
  import opened Contracts

  // The text the lock is stored under.
  function ScopedKey(scope: Scope): string {
    scope.merchant + ":" + scope.key
  }

  // When each held lock goes away.
  type Locks = map<string, Time>

  predicate Held(locks: Locks, scope: Scope, now: Time) {
    ScopedKey(scope) in locks && now < locks[ScopedKey(scope)]
  }

  class IdempotencyService {
    var redis: Locks
    const ttl: nat

    constructor (ttl: nat)
      ensures redis == map[] && this.ttl == ttl
    {
      redis := map[];
      this.ttl := ttl;
    }

    // Whoever asks while the store does not answer is let through.
    method Acquire(scope: Scope, now: Time, answers: bool) returns (acquired: bool)
      modifies this
      ensures acquired <==> !answers || !Held(old(redis), scope, now)
      ensures redis == AfterAsking(old(redis), ttl, Asking(scope, now, answers))
    {
      if !answers {
        return true;
      }
      var scoped := ScopedKey(scope);
      acquired := !(scoped in redis && now < redis[scoped]);
      if acquired {
        redis := redis[scoped := now + ttl];
      }
    }
  }

  // ----- How often a lock is granted -----

  datatype Asking = Asking(scope: Scope, now: Time, answers: bool)

  predicate Granted(locks: Locks, a: Asking) {
    !a.answers || !Held(locks, a.scope, a.now)
  }

  function AfterAsking(locks: Locks, ttl: nat, a: Asking): Locks {
    if a.answers && Granted(locks, a) then locks[ScopedKey(a.scope) := a.now + ttl] else locks
  }

  function Replay(ttl: nat, asked: seq<Asking>): Locks {
    var n := |asked|;
    if n == 0 then map[] else AfterAsking(Replay(ttl, asked[..n - 1]), ttl, asked[n - 1])
  }

  ghost predicate InOrder(asked: seq<Asking>) {
    forall i, j | 0 <= i < j < |asked| :: asked[i].now <= asked[j].now
  }

  // The store granted the lock to the i-th request.
  predicate Took(ttl: nat, asked: seq<Asking>, i: nat)
    requires i < |asked|
  {
    asked[i].answers && Granted(Replay(ttl, asked[..i]), asked[i])
  }

  // A granted lock stays at least until its time to live has passed.
  lemma {:induction false} LockLasts(ttl: nat, asked: seq<Asking>, i: nat, key: string)
    requires InOrder(asked) && i < |asked| && Took(ttl, asked, i) && key == ScopedKey(asked[i].scope)
    ensures key in Replay(ttl, asked) && Replay(ttl, asked)[key] >= asked[i].now + ttl
    decreases |asked|
  {
    var n := |asked|;
    if i < n - 1 {
      assert asked[..n - 1][..i] == asked[..i];
      LockLasts(ttl, asked[..n - 1], i, key);
    }
  }

  // The store never grants one key to two requests less than the time to live apart.
  lemma GrantsAreApart(ttl: nat, asked: seq<Asking>, i: nat, j: nat)
    requires InOrder(asked) && i < j < |asked| && ScopedKey(asked[i].scope) == ScopedKey(asked[j].scope)
    requires Took(ttl, asked, i) && Took(ttl, asked, j)
    ensures asked[j].now >= asked[i].now + ttl
  {
    assert asked[..j][..i] == asked[..i];
    LockLasts(ttl, asked[..j], i, ScopedKey(asked[i].scope));
  }

  lemma {:induction false} LockIsThatOfAGrant(ttl: nat, asked: seq<Asking>, key: string) returns (i: nat)
    requires key in Replay(ttl, asked)
    ensures i < |asked| && ScopedKey(asked[i].scope) == key && Took(ttl, asked, i)
    ensures Replay(ttl, asked)[key] == asked[i].now + ttl
  {
    var n := |asked| - 1;
    if ScopedKey(asked[n].scope) == key && Took(ttl, asked, n) {
      i := n;
    } else {
      i := LockIsThatOfAGrant(ttl, asked[..n], key);
      assert asked[..n][..i] == asked[..i];
    }
  }

  // The store grants a lock if and only if it granted that key to nobody within the last time to live.
  lemma GrantedExactlyWhen(ttl: nat, asked: seq<Asking>, n: nat)
    requires InOrder(asked) && n < |asked| && asked[n].answers
    ensures Took(ttl, asked, n)
      <==> forall i | 0 <= i < n && ScopedKey(asked[i].scope) == ScopedKey(asked[n].scope) && Took(ttl, asked, i) ::
             asked[n].now >= asked[i].now + ttl
  {
    if Took(ttl, asked, n) {
      forall i | 0 <= i < n && ScopedKey(asked[i].scope) == ScopedKey(asked[n].scope) && Took(ttl, asked, i)
        ensures asked[n].now >= asked[i].now + ttl
      {
        GrantsAreApart(ttl, asked, i, n);
      }
    } else {
      var i := LockIsThatOfAGrant(ttl, asked[..n], ScopedKey(asked[n].scope));
      assert asked[..n][..i] == asked[..i];
      assert Took(ttl, asked, i);
    }
  }

  // ----- Which requests share a lock -----

  // `a` names a longer merchant, and `b` has the rest of that name in front of its key.
  ghost predicate Overlaps(a: Scope, b: Scope) {
    exists x :: a.merchant == b.merchant + ":" + x && b.key == x + ":" + a.key
  }

  lemma OverlapCollides(a: Scope, b: Scope)
    requires Overlaps(a, b)
    ensures ScopedKey(a) == ScopedKey(b)
  {
    var x :| a.merchant == b.merchant + ":" + x && b.key == x + ":" + a.key;
    assert (b.merchant + ":" + x) + ":" + a.key == b.merchant + ":" + (x + ":" + a.key);
  }

  lemma CollisionOverlaps(a: Scope, b: Scope)
    requires ScopedKey(a) == ScopedKey(b) && |a.merchant| > |b.merchant|
    ensures Overlaps(a, b)
  {
    var s, m, n := ScopedKey(a), |a.merchant|, |b.merchant|;
    var x := a.merchant[n + 1..];
    assert s[..m] == a.merchant && s[..n] == b.merchant;
    assert a.merchant[..n] == b.merchant && a.merchant[n] == s[n] == ':';
    assert a.merchant == b.merchant + ":" + x;
    assert s[n + 1..] == b.key && s[n + 1..] == x + ":" + a.key;
  }

  // Two different scopes share a lock exactly when the merchant of one continues that of the other with
  // a colon. The lock then makes one wait for the other in vain; the tables still keep them apart.
  lemma LocksCollideExactlyWhen(a: Scope, b: Scope)
    ensures ScopedKey(a) == ScopedKey(b) <==> a == b || Overlaps(a, b) || Overlaps(b, a)
  {
    if Overlaps(a, b) {
      OverlapCollides(a, b);
    }
    if Overlaps(b, a) {
      OverlapCollides(b, a);
    }
    if ScopedKey(a) == ScopedKey(b) {
      if |a.merchant| > |b.merchant| {
        CollisionOverlaps(a, b);
      } else if |b.merchant| > |a.merchant| {
        CollisionOverlaps(b, a);
      } else {
        SameLengthsAgree(a, b);
      }
    }
  }

  lemma SameLengthsAgree(a: Scope, b: Scope)
    requires ScopedKey(a) == ScopedKey(b) && |a.merchant| == |b.merchant|
    ensures a == b
  {
    var n := |a.merchant|;
    assert ScopedKey(a)[..n] == a.merchant && ScopedKey(b)[..n] == b.merchant;
    assert ScopedKey(a)[n + 1..] == a.key && ScopedKey(b)[n + 1..] == b.key;
  }

  lemma TwoMerchantsOneLock()
    ensures var a, b := Scope("m:1", "k"), Scope("m", "1:k"); a != b && ScopedKey(a) == ScopedKey(b)
  {
    assert ScopedKey(Scope("m:1", "k")) == "m:1:k" == ScopedKey(Scope("m", "1:k"));
  }
}
