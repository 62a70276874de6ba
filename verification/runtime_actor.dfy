/** The runtime handle and its actor as fields changed step by step; each method is one
    uninterrupted stretch of the original coroutines and does what ActorProtocol.Next says. */
module RuntimeActor {
  import opened Prelude
  import opened ActorProtocol

  class ManagedToolsetRuntime {
    var kinds: seq<Kind>
    var futures: seq<Future>
    var queue: seq<nat>
    var phase: Phase
    var currentFuture: Option<nat>
    var closed: bool
    var cancelling: bool
    var expired: set<nat>
    var bootstrap: Future
    ghost var served: seq<nat>
    ghost var lost: Option<nat>

    constructor ()
      ensures Snap() == NEW
    {
      kinds, futures, queue, phase := [], [], [], Booting;
      currentFuture, closed, cancelling, expired := None, false, false, {};
      bootstrap, served, lost := Pending, [], None;
    }

    ghost function Snap(): Actor
      reads this
    {
      Actor(kinds, futures, queue, phase, currentFuture, closed, cancelling, expired, bootstrap, served, lost)
    }

    /** The bootstrap future is set by the actor, unless its waiter has cancelled it. */
    method Booted()
      requires Inv(Snap()) && Enabled(Snap(), BootSucceeds)
      modifies this`bootstrap, this`phase
      ensures Snap() == Next(old(Snap()), BootSucceeds) && Inv(Snap())
    {
      StepKeeps(Snap(), BootSucceeds);
      if bootstrap.Pending? {
        bootstrap := Fulfilled;
        phase := Idle;
      } else {
        phase := Unwinding;
      }
    }

    /** call_tool and probe: the check and the enqueueing are one step. */
    method Enqueue(kind: Kind) returns (accepted: bool)
      requires !kind.CloseCommand?
      requires Inv(Snap()) && Enabled(Snap(), Submit(kind))
      modifies this`kinds, this`futures, this`queue
      ensures Snap() == Next(old(Snap()), Submit(kind)) && Inv(Snap())
      ensures accepted == IsRunning(old(Snap()))
    {
      StepKeeps(Snap(), Submit(kind));
      accepted := !phase.Dead? && !closed;
      if accepted {
        queue := queue + [|futures|];
        kinds := kinds + [kind];
        futures := futures + [Pending];
      }
    }

    method Close()
      requires Inv(Snap()) && Enabled(Snap(), Submit(CloseCommand))
      modifies this`kinds, this`futures, this`queue, this`closed
      ensures Snap() == Next(old(Snap()), Submit(CloseCommand)) && Inv(Snap())
    {
      StepKeeps(Snap(), Submit(CloseCommand));
      if closed {
        return;
      }
      closed := true;
      if phase.Dead? {
        return;
      }
      queue := queue + [|futures|];
      kinds := kinds + [CloseCommand];
      futures := futures + [Pending];
    }

    /** The actor's turn at the queue. */
    method TakeCommand()
      requires Inv(Snap()) && Enabled(Snap(), Take)
      modifies this`queue, this`currentFuture, this`futures, this`phase, this`served
      ensures Snap() == Next(old(Snap()), Take) && Inv(Snap())
    {
      StepKeeps(Snap(), Take);
      var id := queue[0];
      queue := queue[1..];
      served := served + [id];
      currentFuture := Some(id);
      if kinds[id].CloseCommand? {
        if futures[id].Pending? {
          futures := futures[id := Fulfilled];
        }
        currentFuture := None;
        phase := Unwinding;
      } else {
        phase := Serving(id);
      }
    }

    /** The session answered, or raised; the inner `finally` clears the current future. */
    method Answered(ok: bool)
      requires Inv(Snap()) && Enabled(Snap(), Reply(ok))
      modifies this`currentFuture, this`futures, this`phase
      ensures Snap() == Next(old(Snap()), Reply(ok)) && Inv(Snap())
    {
      StepKeeps(Snap(), Reply(ok));
      var id := phase.id;
      if futures[id].Pending? {
        futures := futures[id := if ok then Fulfilled else Failed];
      }
      currentFuture := None;
      phase := Idle;
    }

    /** A cancellation lands at whatever the actor is awaiting. */
    method Interrupted()
      requires Inv(Snap()) && Enabled(Snap(), Deliver)
      modifies this`currentFuture, this`cancelling, this`phase, this`lost
      ensures Snap() == Next(old(Snap()), Deliver) && Inv(Snap())
    {
      StepKeeps(Snap(), Deliver);
      if phase.Serving? {
        lost := Some(phase.id);
      }
      currentFuture := None;
      cancelling := false;
      phase := Unwinding;
    }

    /** The outer `finally`: fail what is current, if anything, and drain the queue.  Under the
        invariant nothing is ever current here (ActorProtocol.NothingCurrentWhenUnwound). */
    method Finish(raised: bool)
      requires WellFormed(Snap()) && Enabled(Snap(), Unwound(raised))
      modifies this`futures, this`queue, this`phase, this`bootstrap
      ensures Snap() == Next(old(Snap()), Unwound(raised))
    {
      if raised && bootstrap.Pending? {
        bootstrap := Failed;
      }
      if currentFuture.Some? && futures[currentFuture.value].Pending? {
        futures := futures[currentFuture.value := Failed];
      }
      FailPendingCommands();
      phase := Dead;
    }

    method FailPendingCommands()
      requires forall k :: 0 <= k < |queue| ==> queue[k] < |futures|
      modifies this`futures, this`queue
      ensures queue == [] && futures == SettleAll(old(futures), old(queue))
    {
      while |queue| > 0
        invariant forall k :: 0 <= k < |queue| ==> queue[k] < |futures|
        invariant SettleAll(futures, queue) == SettleAll(old(futures), old(queue))
        decreases |queue|
      {
        var id := queue[0];
        queue := queue[1..];
        if futures[id].Pending? {
          futures := futures[id := Failed];
        }
      }
    }

    /** A caller's wait ends: its future is cancelled at once, the abort follows later. */
    method WaitExpired(id: nat)
      requires Inv(Snap()) && Enabled(Snap(), Expire(id))
      modifies this`futures, this`expired
      ensures Snap() == Next(old(Snap()), Expire(id)) && Inv(Snap())
    {
      StepKeeps(Snap(), Expire(id));
      futures := futures[id := Cancelled];
      expired := expired + {id};
    }

    method AbortFor(id: nat)
      requires Inv(Snap()) && Enabled(Snap(), Abort(id))
      modifies this`expired, this`closed, this`cancelling
      ensures Snap() == Next(old(Snap()), Abort(id)) && Inv(Snap())
    {
      StepKeeps(Snap(), Abort(id));
      expired := expired - {id};
      closed := true;
      if !phase.Dead? {
        cancelling := true;
      }
    }
  }
}
