/** A journey of one actor, woven together with what all the others do between its moves, is a run of the
    state machine. So whatever is proved of all runs holds of the use case and of the worker's iteration. */
module Interleaving {
  import opened Contracts
  import opened Protocol
  import opened Journeys
  import Idempotency
  import Ledger
  import SingleWorker

  // A run of the others, from what one move left to the next access.
  datatype Gap = Gap(states: seq<State>, steps: seq<Step>)

  ghost predicate IsGap(cfg: Settings, g: Gap) {
    IsRun(cfg, g.states, g.steps)
  }

  function Start(g: Gap): State
    requires |g.states| > 0
  {
    g.states[0]
  }

  function End(g: Gap): State
    requires |g.states| > 0
  {
    g.states[|g.states| - 1]
  }

  // One run after another.
  lemma Concatenate(cfg: Settings, states: seq<State>, steps: seq<Step>, g: Gap)
    returns (states': seq<State>, steps': seq<Step>)
    requires IsRun(cfg, states, steps) && IsGap(cfg, g) && Start(g) == states[|steps|]
    ensures IsRun(cfg, states', steps') && states <= states' && states'[|steps'|] == End(g)
    ensures steps' == steps + g.steps
  {
    states', steps' := states + g.states[1..], steps + g.steps;
    forall k | 0 <= k < |steps'|
      ensures Enabled(cfg, states'[k], steps'[k]) && states'[k + 1] == Apply(cfg, states'[k], steps'[k])
    {
      if k < |steps| {
        assert states'[k] == states[k] && states'[k + 1] == states[k + 1] && steps'[k] == steps[k];
      } else {
        var j := k - |steps|;
        assert steps'[k] == g.steps[j] && states'[k] == g.states[j] && states'[k + 1] == g.states[j + 1];
      }
    }
  }

  lemma AndOneStep(cfg: Settings, states: seq<State>, steps: seq<Step>, step: Step)
    returns (states': seq<State>, steps': seq<Step>)
    requires IsRun(cfg, states, steps) && Enabled(cfg, states[|steps|], step)
    ensures IsRun(cfg, states', steps') && states <= states'
    ensures states'[|steps'|] == Apply(cfg, states[|steps|], step) && steps' == steps + [step]
  {
    var s := states[|steps|];
    var g := Gap([s, Apply(cfg, s, step)], [step]);
    states', steps' := Concatenate(cfg, states, steps, g);
  }

  // ----- A request -----

  predicate OfRequest(step: Step, r: nat) {
    step.Request? && step.r == r
  }

  lemma {:induction false} OthersSpareRequest(cfg: Settings, g: Gap, r: nat, k: nat)
    requires IsGap(cfg, g) && (forall i | 0 <= i < |g.steps| :: !OfRequest(g.steps[i], r))
    requires k <= |g.steps| && r in Start(g).requests
    ensures r in g.states[k].requests && g.states[k].requests[r] == Start(g).requests[r]
  {
    if k > 0 {
      OthersSpareRequest(cfg, g, r, k - 1);
      StepSparesRequest(cfg, g.states[k - 1], g.steps[k - 1], r);
    }
  }

  lemma StepSparesRequest(cfg: Settings, s: State, step: Step, r: nat)
    requires Enabled(cfg, s, step) && !OfRequest(step, r) && r in s.requests
    ensures r in Apply(cfg, s, step).requests && Apply(cfg, s, step).requests[r] == s.requests[r]
  {
  }

  // `s` is what the first `n` moves of request `r` make of `s0`, with the gaps in front of each.
  ghost predicate RequestWoven(cfg: Settings, s0: State, r: nat, moves: seq<RequestMove>, n: nat, gaps: seq<Gap>,
                               s: State)
    requires n <= |moves| && |gaps| == |moves|
    decreases n
  {
    if n == 0 then s == s0
    else
      var g, m := gaps[n - 1], moves[n - 1];
      && IsGap(cfg, g) && (forall i | 0 <= i < |g.steps| :: !OfRequest(g.steps[i], r))
      && RequestWoven(cfg, s0, r, moves, n - 1, gaps, Start(g))
      && End(g).db == m.before
      && (RequestEnabled(End(g), r, m.act) ==> s == ApplyRequest(End(g), r, m.act))
  }

  lemma {:induction false} RequestPrefixIsRun(cfg: Settings, states: seq<State>, steps: seq<Step>, r: nat,
                                              first: Request, moves: seq<RequestMove>, n: nat, last: Request,
                                              others: Others, from: nat, gaps: seq<Gap>, s: State)
    returns (states': seq<State>, steps': seq<Step>)
    requires IsRun(cfg, states, steps) && r in states[|steps|].requests && states[|steps|].requests[r] == first
    requires n <= |moves| && |gaps| == |moves| && Leads(first, moves, n, last, others, from)
    requires RequestWoven(cfg, states[|steps|], r, moves, n, gaps, s)
    ensures IsRun(cfg, states', steps') && states <= states' && states'[|steps'|] == s
    ensures r in s.requests && s.requests[r] == last && (n > 0 ==> s.db == moves[n - 1].after)
    decreases n
  {
    states', steps' := states, steps;
    if n > 0 {
      var g, m := gaps[n - 1], moves[n - 1];
      states', steps' :=
        RequestPrefixIsRun(cfg, states, steps, r, first, moves, n - 1, m.phase, others, from, gaps, Start(g));
      OthersSpareRequest(cfg, g, r, |g.steps|);
      states', steps' := Concatenate(cfg, states', steps', g);
      RequestMoveIsStep(End(g), r, m);
      states', steps' := AndOneStep(cfg, states', steps', Request(r, m.act));
    }
  }

  // The journey of a create request is part of a run of the whole system that ends as the journey does.
  lemma RequestJourneyIsRun(cfg: Settings, states: seq<State>, steps: seq<Step>, r: nat, first: Request,
                            moves: seq<RequestMove>, last: Request, others: Others, from: nat, gaps: seq<Gap>, s: State)
    returns (states': seq<State>, steps': seq<Step>)
    requires IsRun(cfg, states, steps) && r in states[|steps|].requests && states[|steps|].requests[r] == first
    requires Journey(first, moves, last, others, from) && |gaps| == |moves|
    requires RequestWoven(cfg, states[|steps|], r, moves, |moves|, gaps, s)
    ensures IsRun(cfg, states', steps') && states <= states' && states'[|steps'|] == s
    ensures r in s.requests && s.requests[r] == last && (|moves| > 0 ==> Leaves(moves, s.db))
  {
    states', steps' := RequestPrefixIsRun(cfg, states, steps, r, first, moves, |moves|, last, others, from, gaps, s);
  }

  // So what the use case replies agrees with every reply its key ever got before.
  lemma JourneyRepliesAgree(cfg: Settings, states: seq<State>, steps: seq<Step>, r: nat, first: Request,
                            moves: seq<RequestMove>, last: Request, others: Others, from: nat, gaps: seq<Gap>, s: State,
                            earlier: nat, a: nat)
    requires IsRun(cfg, states, steps) && states[0] == START
    requires r in states[|steps|].requests && states[|steps|].requests[r] == first
    requires Journey(first, moves, last, others, from) && |gaps| == |moves|
    requires RequestWoven(cfg, states[|steps|], r, moves, |moves|, gaps, s)
    requires last.Replied? && earlier <= |steps| && a in states[earlier].requests
    requires states[earlier].requests[a].Replied? && states[earlier].requests[a].scope == last.scope
    ensures Idempotency.SameAnswer(states[earlier].requests[a].reply, last.reply)
    ensures states[earlier].requests[a].source != FromPayment && last.source != FromPayment
      ==> states[earlier].requests[a].reply == last.reply
  {
    var states', steps' := RequestJourneyIsRun(cfg, states, steps, r, first, moves, last, others, from, gaps, s);
    assert states'[0] == states[0] && states'[earlier] == states[earlier];
    Idempotency.AllRepliesAgree(cfg, states', steps', earlier, |steps'|, a, r);
  }

  // ----- A worker -----

  predicate OfWorker(step: Step, w: nat) {
    step.Work? && step.w == w
  }

  lemma {:induction false} OthersSpareWorker(cfg: Settings, g: Gap, w: nat, k: nat)
    requires IsGap(cfg, g) && (forall i | 0 <= i < |g.steps| :: !OfWorker(g.steps[i], w))
    requires k <= |g.steps|
    ensures WorkerOf(g.states[k], w) == WorkerOf(Start(g), w)
  {
    if k > 0 {
      OthersSpareWorker(cfg, g, w, k - 1);
      StepSparesWorker(cfg, g.states[k - 1], g.steps[k - 1], w);
    }
  }

  lemma StepSparesWorker(cfg: Settings, s: State, step: Step, w: nat)
    requires Enabled(cfg, s, step) && !OfWorker(step, w)
    ensures WorkerOf(Apply(cfg, s, step), w) == WorkerOf(s, w)
  {
  }

  ghost predicate WorkerWoven(cfg: Settings, s0: State, w: nat, moves: seq<Move<Worker, WorkerAction>>, n: nat,
                              gaps: seq<Gap>, s: State)
    requires n <= |moves| && |gaps| == |moves|
    decreases n
  {
    if n == 0 then s == s0
    else
      var g, m := gaps[n - 1], moves[n - 1];
      && IsGap(cfg, g) && (forall i | 0 <= i < |g.steps| :: !OfWorker(g.steps[i], w))
      && WorkerWoven(cfg, s0, w, moves, n - 1, gaps, Start(g))
      && End(g).db == m.before
      && (WorkerEnabled(cfg, End(g), w, m.act) ==> s == ApplyWorker(cfg, End(g), w, m.act))
  }

  // No other worker is running.
  predicate AllSolo(steps: seq<Step>) {
    forall i | 0 <= i < |steps| :: Solo(steps[i])
  }

  predicate SoloGaps(gaps: seq<Gap>, n: nat)
    requires n <= |gaps|
  {
    forall k | 0 <= k < n :: AllSolo(gaps[k].steps)
  }

  lemma SoloTogether(a: seq<Step>, b: seq<Step>)
    requires AllSolo(a) && AllSolo(b)
    ensures AllSolo(a + b)
  {
  }

  lemma {:induction false} WorkerPrefixIsRun(cfg: Settings, states: seq<State>, steps: seq<Step>, w: nat, first: Worker,
                                             moves: seq<Move<Worker, WorkerAction>>, n: nat, last: Worker,
                                             others: Others, from: nat, gaps: seq<Gap>, s: State)
    returns (states': seq<State>, steps': seq<Step>)
    requires IsRun(cfg, states, steps) && WorkerOf(states[|steps|], w) == first && AreWorkerMoves(cfg, moves)
    requires n <= |moves| && |gaps| == |moves| && Leads(first, moves, n, last, others, from)
    requires WorkerWoven(cfg, states[|steps|], w, moves, n, gaps, s)
    ensures IsRun(cfg, states', steps') && states <= states' && states'[|steps'|] == s
    ensures WorkerOf(s, w) == last && (n > 0 ==> s.db == moves[n - 1].after)
    ensures w == 0 && AllSolo(steps) && SoloGaps(gaps, n) ==> AllSolo(steps')
    decreases n
  {
    states', steps' := states, steps;
    if n > 0 {
      var g, m := gaps[n - 1], moves[n - 1];
      states', steps' :=
        WorkerPrefixIsRun(cfg, states, steps, w, first, moves, n - 1, m.phase, others, from, gaps, Start(g));
      OthersSpareWorker(cfg, g, w, |g.steps|);
      if w == 0 && AllSolo(steps) && SoloGaps(gaps, n) {
        SoloTogether(steps', g.steps);
        SoloTogether(steps' + g.steps, [Work(w, m.act)]);
      }
      states', steps' := Concatenate(cfg, states', steps', g);
      EachIsWorkerMove(cfg, moves, n - 1);
      WorkerMoveIsStep(cfg, End(g), w, m);
      states', steps' := AndOneStep(cfg, states', steps', Work(w, m.act));
    }
  }

  // The journey of a worker through an iteration, whatever requests, reviews and other workers do between
  // its transactions, is part of a run of the whole system that ends as the journey does.
  lemma WorkerJourneyIsRun(cfg: Settings, states: seq<State>, steps: seq<Step>, w: nat, first: Worker,
                           moves: seq<Move<Worker, WorkerAction>>, last: Worker, others: Others, from: nat,
                           gaps: seq<Gap>, s: State)
    returns (states': seq<State>, steps': seq<Step>)
    requires IsRun(cfg, states, steps) && WorkerOf(states[|steps|], w) == first && AreWorkerMoves(cfg, moves)
    requires Journey(first, moves, last, others, from) && |gaps| == |moves|
    requires WorkerWoven(cfg, states[|steps|], w, moves, |moves|, gaps, s)
    ensures IsRun(cfg, states', steps') && states <= states' && states'[|steps'|] == s
    ensures WorkerOf(s, w) == last && (|moves| > 0 ==> Leaves(moves, s.db))
    ensures w == 0 && AllSolo(steps) && SoloGaps(gaps, |gaps|) ==> IsSoloRun(cfg, states', steps')
  {
    states', steps' := WorkerPrefixIsRun(cfg, states, steps, w, first, moves, |moves|, last, others, from, gaps, s);
  }

  // So an iteration of the only worker leaves the ledger sound, whatever requests and reviews do between
  // its transactions.
  lemma OnlyWorkerKeepsLedger(cfg: Settings, states: seq<State>, steps: seq<Step>, first: Worker,
                              moves: seq<Move<Worker, WorkerAction>>, last: Worker, others: Others, from: nat,
                              gaps: seq<Gap>, s: State)
    requires IsSoloRun(cfg, states, steps) && states[0] == START && WorkerOf(states[|steps|], 0) == first
    requires Journey(first, moves, last, others, from) && |gaps| == |moves| && AreWorkerMoves(cfg, moves)
    requires WorkerWoven(cfg, states[|steps|], 0, moves, |moves|, gaps, s) && SoloGaps(gaps, |gaps|)
    ensures Ledger.Sound(cfg, s.db)
  {
    var states', steps' := WorkerJourneyIsRun(cfg, states, steps, 0, first, moves, last, others, from, gaps, s);
    assert states'[0] == states[0];
    SingleWorker.LedgerInvariant(cfg, states', steps', |steps'|);
  }
}
