/**
 * The process runner of src/utils.rs.  `exec_command(cmd, args)` starts a child
 * process, waits for it and reports whether it exited successfully.  Here the
 * outside world is a Runner: a log of every invocation made so far and an oracle
 * telling whether the n-th process it starts succeeds.
 */
module Shell {

  datatype Invocation = Invocation(program: string, args: seq<string>)

  /** Whether every invocation in `log` starts `program`. */
  predicate RunsOnly(log: seq<Invocation>, program: string)
  {
    forall inv <- log :: inv.program == program
  }

  /** What a chain of steps joined by early returns did: the steps it ran and the result it returned. */
  datatype Chained<T> = Chained(ran: seq<T>, ok: bool)

  /**
   * Runs `plan` step by step, the step at index k being the (at + k)-th process,
   * and stops at the first step that fails: the shape of every
   * `if !exec(..) { return false; }` sequence in the source.
   */
  function Chain<T>(plan: seq<T>, succeeds: nat -> bool, at: nat): (r: Chained<T>)
    decreases |plan|
    // the steps run are the first ones of the plan, in order, at least one if there is one
    ensures r.ran <= plan
    ensures plan != [] ==> r.ran != []
    // every step but the last one run succeeded
    ensures forall j | at <= j < at + |r.ran| - 1 :: succeeds(j)
    // the result is that of the last step run
    ensures r.ran != [] ==> r.ok == succeeds(at + |r.ran| - 1)
    // a chain that stops early has failed
    ensures |r.ran| < |plan| ==> !r.ok
  {
    if plan == [] then Chained([], true)
    else if !succeeds(at) then Chained([plan[0]], false)
    else
      var rest := Chain(plan[1..], succeeds, at + 1);
      Chained([plan[0]] + rest.ran, rest.ok)
  }

  /** A chain succeeds exactly when the whole plan runs and every step of it succeeds. */
  lemma ChainSucceeds<T>(plan: seq<T>, succeeds: nat -> bool, at: nat)
    ensures Chain(plan, succeeds, at).ok <==> forall j | at <= j < at + |plan| :: succeeds(j)
    ensures Chain(plan, succeeds, at).ok ==> Chain(plan, succeeds, at).ran == plan
  {
  }

  /** A chain stops as soon as a step fails: no step after the first failure runs. */
  lemma {:induction false} ChainStopsAtFirstFailure<T>(plan: seq<T>, succeeds: nat -> bool, at: nat, k: nat)
    requires k < |plan| && !succeeds(at + k)
    ensures |Chain(plan, succeeds, at).ran| <= k + 1
    ensures !Chain(plan, succeeds, at).ok
    decreases |plan|
  {
    if k > 0 && succeeds(at) {
      ChainStopsAtFirstFailure(plan[1..], succeeds, at + 1, k - 1);
    }
  }

  /** When every step but the last succeeds, the whole plan runs and the result is the last step's. */
  lemma {:induction false} ChainRunsAll<T>(plan: seq<T>, succeeds: nat -> bool, at: nat)
    requires plan != []
    requires forall j | at <= j < at + |plan| - 1 :: succeeds(j)
    ensures Chain(plan, succeeds, at) == Chained(plan, succeeds(at + |plan| - 1))
    decreases |plan|
  {
    if |plan| > 1 {
      ChainRunsAll(plan[1..], succeeds, at + 1);
      assert [plan[0]] + plan[1..] == plan;
    }
  }

  class Runner {
    /** Every invocation started so far, oldest first. */
    var log: seq<Invocation>
    /** Whether the n-th process started (counting from 0) exits successfully. */
    const succeeds: nat -> bool

    constructor (succeeds: nat -> bool)
      ensures log == [] && this.succeeds == succeeds
    {
      log := [];
      this.succeeds := succeeds;
    }

    /** exec_command: start `program` with `args`, wait for it, report its success. */
    method Exec(program: string, args: seq<string>) returns (ok: bool)
      modifies this
      ensures log == old(log) + [Invocation(program, args)]
      ensures ok == succeeds(|old(log)|)
    {
      ok := succeeds(|log|);
      log := log + [Invocation(program, args)];
    }
  }
}
