/** A database outage never loses a source observation, among any other work.

`CaptureCall` proves this of the capture call itself: what its calls leave in Bronze does not depend on
the ledger.  Here the captures are steps that bring their finished entry, and what is added is that
workers of every kind may be interleaved with them in any way.
*/
module Outage {
  import opened Types
  import opened Ledger
  import opened CaptureLog
  import opened System
  import opened Traces
  import Reconcile

  /** The steps that touch Bronze, in order; everything else is ledger work or its loss. */
  function BronzeSteps(actions: seq<Action>): seq<Action> {
    if actions == [] then []
    else
      var before := BronzeSteps(actions[..|actions| - 1]);
      var a := actions[|actions| - 1];
      if a.LogCapture? || a.Decide? then before + [a] else before
  }

  function BronzeAfter(b: Bronze, steps: seq<Action>): Bronze {
    if steps == [] then b
    else
      var before := BronzeAfter(b, steps[..|steps| - 1]);
      match steps[|steps| - 1]
      case LogCapture(e) => before.(log := before.log[e.id := e], blobs := before.blobs + {e.payload})
      case Decide(d) => before.(decisions := before.decisions + {d})
      case _ => before
  }

  lemma BronzeStep(cat: Catalog, sys: System, a: Action)
    requires Enabled(sys, a)
    ensures Apply(cat, sys, a).bronze ==
      if a.LogCapture? || a.Decide? then BronzeAfter(sys.bronze, [a]) else sys.bronze
  {
    assert [a][..0] == [];
  }

  /** In any interleaving, Bronze is what its captures and decisions made of it. */
  lemma {:induction false} BronzeIsItsSteps(cat: Catalog, tr: Trace, n: nat)
    requires Valid(cat, tr) && n < |tr.states|
    ensures tr.states[n].bronze == BronzeAfter(tr.states[0].bronze, BronzeSteps(tr.actions[..n]))
  {
    if n > 0 {
      BronzeIsItsSteps(cat, tr, n - 1);
      var a := tr.actions[n - 1];
      assert Steps(cat, tr, n - 1);
      BronzeStep(cat, tr.states[n - 1], a);
      assert tr.actions[..n][..n - 1] == tr.actions[..n - 1];
      var steps := BronzeSteps(tr.actions[..n - 1]);
      if a.LogCapture? || a.Decide? {
        assert (steps + [a])[..|steps|] == steps;
        assert [a][..0] == [];
      }
    }
  }

  /** Whatever the ledger did or lost, the same captures (`CaptureCall.CallsDetermineBronze` says when they
      are the same) leave the same Bronze; and one full reconcile, with no invalidations, then gives every
      logged instant of the target a run naming the payload of its newest attempt. */
  lemma OutageIndependence(cat: Catalog, tr: Trace, n: nat, other: Trace, k: nat, target: TargetId, d: DerivationId,
                           es: seq<CaptureEntry>, now: Instant, c: CaptureId)
    requires Valid(cat, tr) && n < |tr.states| && Valid(cat, other) && k < |other.states|
    requires tr.states[0].bronze == other.states[0].bronze
    requires BronzeSteps(tr.actions[..n]) == BronzeSteps(other.actions[..k])
    requires Listing(tr.states[n].bronze.log, target, None, None, es)
    requires forall dec :: dec in tr.states[n].bronze.decisions ==> dec.capture.target != target
    requires c in tr.states[n].bronze.log && c.target == target
    ensures other.states[k].bronze == tr.states[n].bronze
    ensures var q := other.states[k];
      Reconcile.NamesNewest(Reconcile.ReconcileFrom(q.ledger, q.bronze, target, d, es, now),
                            tr.states[n].bronze, target, c.scheduledFor)
  {
    BronzeIsItsSteps(cat, tr, n);
    BronzeIsItsSteps(cat, other, k);
    Reachable(cat, other, k);
    Reconcile.ReconcileNamesNewest(cat, other.states[k], target, d, es, now, c);
  }
}
