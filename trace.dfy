/**
 * The world the engine acts on. Every external call (storage start/stop,
 * rsync transfer, idmap shift, snapshot creation) is an event appended to
 * the host's trace; an oracle decides which calls fail.
 */
module Trace {
  import opened Types

  /**
   * What the engine cannot see: fails(p) says whether the external call
   * recorded at trace position p returns an error, and entityPath(n) is the
   * filesystem path of the entity named n once it has been created.
   */
  datatype Env = Env(fails: nat -> bool, entityPath: string -> string)

  /** No external call at a trace position in [lo, hi) fails. */
  ghost predicate NoFailure(fails: nat -> bool, lo: nat, hi: nat) {
    forall p :: lo <= p < hi ==> !fails(p)
  }

  /** The first k steps of plan were issued from position |t0| on, and none of them failed. */
  ghost predicate Reached(trace: seq<Event>, t0: seq<Event>, plan: seq<Event>, fails: nat -> bool, k: nat) {
    k <= |plan| && trace == t0 + plan[..k] && NoFailure(fails, |t0|, |t0| + k)
  }

  /** The steps actually issued, and the one whose error ended the run, if any. */
  datatype Ran = Ran(done: seq<Event>, failed: Option<Event>)

  /**
   * Issuing the steps of plan one after the other from trace position at,
   * returning at the first step that fails: the Go idiom
   * `if err := step(); err != nil { return err }` repeated along the plan.
   */
  function Run(plan: seq<Event>, fails: nat -> bool, at: nat): (r: Ran)
    ensures |r.done| <= |plan| && r.done == plan[..|r.done|]
    ensures r.failed.None? ==> r.done == plan && NoFailure(fails, at, at + |plan|)
    ensures r.failed.Some? ==>
              && |r.done| > 0
              && r.failed.value == plan[|r.done| - 1]
              && fails(at + |r.done| - 1)
              && NoFailure(fails, at, at + |r.done| - 1)
    decreases |plan|
  {
    if plan == [] then Ran([], None)
    else if fails(at) then Ran([plan[0]], Some(plan[0]))
    else
      var rest := Run(plan[1..], fails, at + 1);
      Ran([plan[0]] + rest.done, rest.failed)
  }

  /** The calls of one invocation and the error it returns. */
  datatype Session = Session(trace: seq<Event>, err: Option<Error>)

  /** The error a run returns: that of the step that failed, if any. */
  function ErrorOf(failed: Option<Event>): Option<Error> {
    if failed.Some? then Some(StepFailed(failed.value)) else None
  }

  /** When step k is the first to fail, the run ends with it and nothing after it is issued. */
  lemma RunFailsAt(plan: seq<Event>, fails: nat -> bool, at: nat, k: nat)
    requires k < |plan|
    requires NoFailure(fails, at, at + k) && fails(at + k)
    ensures Run(plan, fails, at) == Ran(plan[..k + 1], Some(plan[k]))
  {
  }

  /** When no step fails, the whole plan is issued and the run succeeds. */
  lemma RunSucceeds(plan: seq<Event>, fails: nat -> bool, at: nat)
    requires NoFailure(fails, at, at + |plan|)
    ensures Run(plan, fails, at) == Ran(plan, None)
  {
  }

  /** Appending to a trace one part after the other appends their concatenation. */
  lemma Appended(t: seq<Event>, a: seq<Event>, b: seq<Event>)
    ensures t + a + b == t + (a + b)
  {
  }

  /** The host: the record of external calls made so far, and the oracle. */
  class Host {
    var trace: seq<Event>
    const env: Env

    constructor (env: Env)
      ensures this.env == env && trace == []
    {
      this.env := env;
      trace := [];
    }

    /** Makes the external call e; ok reports whether it succeeded. */
    method Call(e: Event) returns (ok: bool)
      modifies this
      ensures trace == old(trace) + [e]
      ensures ok == !env.fails(|old(trace)|)
    {
      ok := !env.fails(|trace|);
      trace := trace + [e];
    }

    /**
     * Makes the call e as step k of plan, the steps before it having been
     * issued from position |t0| on and succeeded.
     */
    method Perform(e: Event, ghost t0: seq<Event>, ghost plan: seq<Event>, k: nat) returns (ok: bool)
      requires k < |plan| && plan[k] == e
      requires Reached(trace, t0, plan, env.fails, k)
      modifies this
      ensures trace == t0 + plan[..k + 1]
      ensures ok == !env.fails(|t0| + k)
      ensures ok ==> Reached(trace, t0, plan, env.fails, k + 1)
    {
      ok := Call(e);
      assert plan[..k + 1] == plan[..k] + [e];
    }
  }
}
