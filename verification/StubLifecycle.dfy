/** Bounded reconnection of the plugin to containerd (pkg/nri/stub_lifecycle.go). */
module StubLifecycle {
  import opened Strings

  type Stub = nat

  /** What happens in one round: whether building its stub works, whether shutdown comes while
      the stub runs, and whether it comes while waiting to build the next one. */
  datatype Round = Round(built: bool, cancelledInRun: bool, cancelledInWait: bool)

  type Oracle = nat -> Round

  datatype Exit =
    | Cancelled               // the only one that is no error
    | InitialFailure
    | Exhausted
    | ReconnectFailure

  class Lifecycle {
    const backoff: seq<nat>
    var current: seq<Stub>           // the registered stub, if any
    var factoryCalls: nat
    var waits: seq<nat>              // completed ones
    var stopped: seq<Stub>
    var attempted: nat
    var succeeded: nat
    var exhausted: nat

    constructor (backoff: seq<nat>)
      ensures this.backoff == backoff && current == [] && factoryCalls == 0 && waits == [] && stopped == []
      ensures attempted == succeeded == exhausted == 0
    {
      this.backoff, current, factoryCalls, waits, stopped := backoff, [], 0, [], [];
      attempted, succeeded, exhausted := 0, 0, 0;
    }

    /** Stubs are numbered in the order of the calls that build them. */
    method Factory(works: bool) returns (s: Stub)
      modifies this`factoryCalls
      ensures s == old(factoryCalls) && factoryCalls == old(factoryCalls) + 1
    {
      s := factoryCalls;
      factoryCalls := factoryCalls + 1;
    }

    /** run. */
    method Run(o: Oracle) returns (exit: Exit)
      requires factoryCalls == 0 && current == [] && waits == [] && stopped == []
      requires attempted == succeeded == exhausted == 0
      modifies this
      ensures exit == ExitOf(o, backoff)
      ensures factoryCalls == FactoryCalls(o, backoff)
      ensures waits == backoff[..Waits(o, backoff)]
      ensures succeeded == (if o(0).built then Reconnects(o, backoff, 0) else 0)
      ensures attempted == succeeded + if exit.InitialFailure? || o(succeeded).cancelledInRun then 0 else 1
      ensures exhausted == if exit.Exhausted? || exit.ReconnectFailure? then 1 else 0
      ensures current == if exit.InitialFailure? then [] else [succeeded]
      ensures |stopped| == Waits(o, backoff) + if exit.Cancelled? && !o(succeeded).cancelledInRun then 1 else 0
      ensures forall i | 0 <= i < |stopped| :: stopped[i] == i
    {
      var s := Factory(o(0).built);
      if !o(0).built {
        return InitialFailure;
      }
      current := [s];
      var attempt := 0;
      while true
        invariant attempt <= |backoff| && current == [attempt]
        invariant factoryCalls == attempt + 1 && waits == backoff[..attempt]
        invariant attempted == succeeded == attempt && exhausted == 0
        invariant Reconnects(o, backoff, 0) == Reconnects(o, backoff, attempt)
        invariant |stopped| == attempt && forall i | 0 <= i < |stopped| :: stopped[i] == i
        decreases |backoff| - attempt
      {
        EndsIn(o, backoff, attempt);
        var end := OneRound(o, attempt);
        if end.Some? {
          return end.value;
        }
        attempt := attempt + 1;
      }
    }

    /** The body of the loop. */
    method OneRound(o: Oracle, attempt: nat) returns (end: Option<Exit>)
      requires attempt <= |backoff| && current == [attempt] && factoryCalls == attempt + 1
      modifies this
      ensures end == if Survives(o, backoff, attempt) then None else Some(EndOf(o, backoff, attempt))
      ensures factoryCalls == old(factoryCalls) + if Rebuilds(o, backoff, attempt) then 1 else 0
      ensures waits == old(waits) + if Rebuilds(o, backoff, attempt) then [backoff[attempt]] else []
      ensures stopped == old(stopped) + if !o(attempt).cancelledInRun && attempt < |backoff| then [attempt] else []
      ensures attempted == old(attempted) + if o(attempt).cancelledInRun then 0 else 1
      ensures succeeded == old(succeeded) + if Survives(o, backoff, attempt) then 1 else 0
      ensures current == if Survives(o, backoff, attempt) then [attempt + 1] else [attempt]
      ensures exhausted == old(exhausted) + if end == Some(Exhausted) || end == Some(ReconnectFailure) then 1 else 0
    {
      if o(attempt).cancelledInRun {
        return Some(Cancelled);
      }
      attempted := attempted + 1;
      if attempt >= |backoff| {
        exhausted := exhausted + 1;
        return Some(Exhausted);
      }
      var wait := backoff[attempt];
      stopped := stopped + current;
      if o(attempt).cancelledInWait {
        return Some(Cancelled);
      }
      waits := waits + [wait];
      var built := o(attempt + 1).built;
      var next := Factory(built);
      if !built {
        exhausted := exhausted + 1;
        return Some(ReconnectFailure);
      }
      current := [next];
      succeeded := succeeded + 1;
      return None;
    }
  }

  // ---- Independent account of a run ----

  /** Round `i` gets as far as building another stub. */
  predicate Rebuilds(o: Oracle, backoff: seq<nat>, i: nat) {
    !o(i).cancelledInRun && i < |backoff| && !o(i).cancelledInWait
  }

  predicate Survives(o: Oracle, backoff: seq<nat>, i: nat) {
    Rebuilds(o, backoff, i) && o(i + 1).built
  }

  /** The round the run ends in: the first, from `i` on, that it does not survive. */
  function Reconnects(o: Oracle, backoff: seq<nat>, i: nat): nat
    decreases |backoff| - i
  {
    if Survives(o, backoff, i) then Reconnects(o, backoff, i + 1) else i
  }

  lemma EndsIn(o: Oracle, backoff: seq<nat>, i: nat)
    requires i <= |backoff| && o(0).built && Reconnects(o, backoff, 0) == Reconnects(o, backoff, i)
    ensures !Survives(o, backoff, i) ==> Reconnects(o, backoff, 0) == i
    ensures Survives(o, backoff, i) ==> Reconnects(o, backoff, 0) == Reconnects(o, backoff, i + 1)
  {
  }

  /** How the run ends in round `n`, when it does. */
  function EndOf(o: Oracle, backoff: seq<nat>, n: nat): Exit {
    if o(n).cancelledInRun then Cancelled
    else if n >= |backoff| then Exhausted
    else if o(n).cancelledInWait then Cancelled
    else ReconnectFailure
  }

  function ExitOf(o: Oracle, backoff: seq<nat>): Exit {
    if !o(0).built then InitialFailure else EndOf(o, backoff, Reconnects(o, backoff, 0))
  }

  function Waits(o: Oracle, backoff: seq<nat>): (w: nat)
    ensures w <= |backoff|
  {
    RoundsAreBounded(o, backoff, 0);
    if !o(0).built then 0
    else Reconnects(o, backoff, 0) + if ExitOf(o, backoff).ReconnectFailure? then 1 else 0
  }

  function FactoryCalls(o: Oracle, backoff: seq<nat>): nat { Waits(o, backoff) + 1 }

  lemma {:induction false} RoundsAreBounded(o: Oracle, backoff: seq<nat>, i: nat)
    requires i <= |backoff|
    ensures i <= Reconnects(o, backoff, i) <= |backoff|
    ensures !Survives(o, backoff, Reconnects(o, backoff, i))
    ensures forall j | i <= j < Reconnects(o, backoff, i) :: Survives(o, backoff, j)
    decreases |backoff| - i
  {
    if Survives(o, backoff, i) {
      RoundsAreBounded(o, backoff, i + 1);
    }
  }

  /** Whatever disconnects and cancellations come, the factory is called at most once more than
      the schedule is long; a run that gives up has used the whole schedule or failed to build
      a stub. */
  lemma FactoryCallsAreBounded(o: Oracle, backoff: seq<nat>)
    ensures FactoryCalls(o, backoff) <= |backoff| + 1
    ensures ExitOf(o, backoff).Exhausted? ==> Waits(o, backoff) == |backoff|
    ensures ExitOf(o, backoff).Exhausted? || ExitOf(o, backoff).Cancelled? ==>
      forall i | 0 <= i < FactoryCalls(o, backoff) :: o(i).built
  {
    RoundsAreBounded(o, backoff, 0);
    if o(0).built {
      forall i | 0 < i <= Reconnects(o, backoff, 0) ensures o(i).built {
        assert Survives(o, backoff, i - 1);
      }
    }
  }

  /** The other ends: nothing was built at the start; the schedule was used up while every stub on
      it was built; or a stub on the schedule was not built after its wait. */
  lemma OtherEnds(o: Oracle, backoff: seq<nat>)
    ensures ExitOf(o, backoff).InitialFailure? <==> !o(0).built
    ensures ExitOf(o, backoff).Exhausted?
       <==> o(0).built && (forall i | 0 <= i < |backoff| :: Survives(o, backoff, i)) && !o(|backoff|).cancelledInRun
    ensures ExitOf(o, backoff).ReconnectFailure?
       <==> o(0).built && exists n ::
              && 0 <= n < |backoff| && (forall i | 0 <= i < n :: Survives(o, backoff, i))
              && !o(n).cancelledInRun && !o(n).cancelledInWait && !o(n + 1).built
  {
    RoundsAreBounded(o, backoff, 0);
    var m := Reconnects(o, backoff, 0);
    if n :| 0 <= n < |backoff| && (forall i | 0 <= i < n :: Survives(o, backoff, i))
            && !o(n).cancelledInRun && !o(n).cancelledInWait && !o(n + 1).built {
      assert !Survives(o, backoff, n);
    }
  }

  /** The run ends without an error exactly when shutdown came while the stub of the last round
      was running, or while waiting after it. */
  lemma NilOnlyOnCancellation(o: Oracle, backoff: seq<nat>)
    ensures ExitOf(o, backoff).Cancelled?
       <==> o(0).built && exists n ::
              && 0 <= n <= |backoff| && (forall i | 0 <= i < n :: Survives(o, backoff, i))
              && (o(n).cancelledInRun || (n < |backoff| && o(n).cancelledInWait))
  {
    RoundsAreBounded(o, backoff, 0);
    var m := Reconnects(o, backoff, 0);
    if ExitOf(o, backoff).Cancelled? {
      assert o(m).cancelledInRun || (m < |backoff| && o(m).cancelledInWait);
    }
    if n :| 0 <= n <= |backoff| && (forall i | 0 <= i < n :: Survives(o, backoff, i))
            && (o(n).cancelledInRun || (n < |backoff| && o(n).cancelledInWait)) {
      assert !Survives(o, backoff, n);
    }
  }
}
