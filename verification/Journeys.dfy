/** What one actor does at its accesses to the database, while the others change the rows in between. */
module Journeys {
  import opened Contracts
  import opened Protocol

  // One access: the committed rows and the actor's phase before it, what it does, and rows and phase after it.
  datatype Move<P, A> = Move(before: Tables, phase: P, act: A, after: Tables, next: P)

  // The committed rows as the other actors left them at the k-th access.
  type Others = nat -> Tables

  // The first `n` moves lead from the phase `first` to the phase `last`, at the accesses from `from` on.
  ghost predicate Leads<P, A>(first: P, moves: seq<Move<P, A>>, n: nat, last: P, others: Others, from: nat)
    requires n <= |moves|
    decreases n
  {
    if n == 0 then last == first
    else
      && moves[n - 1].next == last && moves[n - 1].before == others(from + n - 1)
      && Leads(first, moves, n - 1, moves[n - 1].phase, others, from)
  }

  ghost predicate Journey<P, A>(first: P, moves: seq<Move<P, A>>, last: P, others: Others, from: nat) {
    Leads(first, moves, |moves|, last, others, from)
  }

  // The rows as the last of the moves left them.
  ghost predicate Leaves<P, A>(moves: seq<Move<P, A>>, now: Tables) {
    |moves| > 0 && now == moves[|moves| - 1].after
  }

  lemma OneMove<P, A>(m: Move<P, A>, others: Others, from: nat)
    requires m.before == others(from)
    ensures Journey(m.phase, [m], m.next, others, from)
  {
    assert Leads(m.phase, [m], 0, m.phase, others, from);
  }

  lemma {:induction false} LeadsInFront<P, A>(first: P, a: seq<Move<P, A>>, b: seq<Move<P, A>>, n: nat, last: P,
                                              others: Others, from: nat)
    requires n <= |a| && Leads(first, a, n, last, others, from)
    ensures Leads(first, a + b, n, last, others, from)
  {
    if n > 0 {
      LeadsInFront(first, a, b, n - 1, a[n - 1].phase, others, from);
    }
  }

  lemma {:induction false} LeadsBehind<P, A>(first: P, a: seq<Move<P, A>>, middle: P, b: seq<Move<P, A>>, n: nat,
                                             last: P, others: Others, from: nat)
    requires Journey(first, a, middle, others, from)
    requires n <= |b| && Leads(middle, b, n, last, others, from + |a|)
    ensures Leads(first, a + b, |a| + n, last, others, from)
    decreases n
  {
    if n == 0 {
      LeadsInFront(first, a, b, |a|, middle, others, from);
    } else {
      LeadsBehind(first, a, middle, b, n - 1, b[n - 1].phase, others, from);
      assert (a + b)[|a| + n - 1] == b[n - 1];
    }
  }

  // One journey after another is a journey.
  lemma Join<P, A>(first: P, a: seq<Move<P, A>>, middle: P, b: seq<Move<P, A>>, last: P, others: Others, from: nat,
                   at: nat)
    requires at == from + |a| && Journey(first, a, middle, others, from) && Journey(middle, b, last, others, at)
    ensures Journey(first, a + b, last, others, from)
  {
    LeadsBehind(first, a, middle, b, |b|, last, others, from);
  }

  lemma {:induction false} PrefixIsNumbered<P, A>(first: P, moves: seq<Move<P, A>>, n: nat, last: P, others: Others,
                                                  from: nat, k: nat)
    requires k < n <= |moves| && Leads(first, moves, n, last, others, from)
    ensures moves[k].before == others(from + k)
  {
    if k < n - 1 {
      PrefixIsNumbered(first, moves, n - 1, moves[n - 1].phase, others, from, k);
    }
  }

  lemma MovesAreNumbered<P, A>(first: P, moves: seq<Move<P, A>>, last: P, others: Others, from: nat)
    requires Journey(first, moves, last, others, from)
    ensures forall k | 0 <= k < |moves| :: moves[k].before == others(from + k)
  {
    forall k | 0 <= k < |moves| ensures moves[k].before == others(from + k) {
      PrefixIsNumbered(first, moves, |moves|, last, others, from, k);
    }
  }

  // Nobody else changed a row between two of the moves.
  ghost predicate Undisturbed<P, A>(moves: seq<Move<P, A>>)
    decreases |moves|
  {
    var n := |moves|;
    n <= 1 || (moves[n - 1].before == moves[n - 2].after && Undisturbed(moves[..n - 1]))
  }

  lemma {:induction false} UndisturbedParts<P, A>(a: seq<Move<P, A>>, b: seq<Move<P, A>>)
    requires Undisturbed(a + b) && |a| > 0 && |b| > 0
    ensures Undisturbed(a) && Undisturbed(b) && b[0].before == a[|a| - 1].after
    decreases |b|
  {
    var n := |b|;
    assert (a + b)[..|a| + n - 1] == a + b[..n - 1];
    if n == 1 {
      assert a + b[..0] == a;
    } else {
      UndisturbedParts(a, b[..n - 1]);
    }
  }

  // ----- Enabled steps of the protocol -----

  // A request that stays takes an enabled step.
  ghost predicate IsRequestMove(m: Move<Request, RequestAction>) {
    && !m.act.Vanish? && ActEnabled(m.before, m.phase, m.act)
    && m.after == ActTables(m.before, m.phase, m.act) && m.next == ActPhase(m.before, m.phase, m.act)
  }

  type RequestMove = m: Move<Request, RequestAction> | IsRequestMove(m)
    ghost witness var q := Looking(Scope("", "")); Move(EMPTY, q, LookSnapshot, EMPTY, Locking(q.scope))

  // A worker that does not crash takes an enabled step.
  ghost predicate IsWorkerMove(cfg: Settings, m: Move<Worker, WorkerAction>) {
    && !m.act.Crash? && WorkEnabled(cfg, m.before, m.phase, m.act)
    && m.after == WorkTables(cfg, m.before, m.phase, m.act) && m.next == WorkPhase(m.before, m.phase, m.act)
  }

  ghost predicate AreWorkerMoves(cfg: Settings, moves: seq<Move<Worker, WorkerAction>>)
    decreases |moves|
  {
    var n := |moves|;
    n == 0 || (IsWorkerMove(cfg, moves[n - 1]) && AreWorkerMoves(cfg, moves[..n - 1]))
  }

  lemma {:induction false} WorkerMovesTogether(cfg: Settings, a: seq<Move<Worker, WorkerAction>>,
                                               b: seq<Move<Worker, WorkerAction>>)
    requires AreWorkerMoves(cfg, a) && AreWorkerMoves(cfg, b)
    ensures AreWorkerMoves(cfg, a + b)
    decreases |b|
  {
    var n := |b|;
    if n == 0 {
      assert a + b == a;
    } else {
      WorkerMovesTogether(cfg, a, b[..n - 1]);
      assert (a + b)[..|a| + n - 1] == a + b[..n - 1];
    }
  }

  lemma OneWorkerMove(cfg: Settings, m: Move<Worker, WorkerAction>)
    requires IsWorkerMove(cfg, m)
    ensures AreWorkerMoves(cfg, [m])
  {
    assert [m][..0] == [];
  }

  lemma {:induction false} EachIsWorkerMove(cfg: Settings, moves: seq<Move<Worker, WorkerAction>>, k: nat)
    requires AreWorkerMoves(cfg, moves) && k < |moves|
    ensures IsWorkerMove(cfg, moves[k])
    decreases |moves|
  {
    if k < |moves| - 1 {
      EachIsWorkerMove(cfg, moves[..|moves| - 1], k);
    }
  }

  // ----- Such steps are steps of the whole system -----

  lemma RequestMoveIsStep(s: State, r: nat, m: RequestMove)
    requires r in s.requests && s.requests[r] == m.phase && s.db == m.before
    ensures RequestEnabled(s, r, m.act)
    ensures ApplyRequest(s, r, m.act).db == m.after && r in ApplyRequest(s, r, m.act).requests
    ensures ApplyRequest(s, r, m.act).requests[r] == m.next
  {
  }

  lemma WorkerMoveIsStep(cfg: Settings, s: State, w: nat, m: Move<Worker, WorkerAction>)
    requires IsWorkerMove(cfg, m) && WorkerOf(s, w) == m.phase && s.db == m.before
    ensures WorkerEnabled(cfg, s, w, m.act)
    ensures ApplyWorker(cfg, s, w, m.act).db == m.after && WorkerOf(ApplyWorker(cfg, s, w, m.act), w) == m.next
  {
  }
}
