/** When a handle is closed, what is accepted after that, and what an abort leads to.  None of
    these statements names what a step stores. */
module ActorClosing {
  import opened ActorProtocol

  /** The action at position k of the run happens: it is enabled in the state reached before it. */
  predicate Happens(s: Actor, actions: seq<Action>, k: int) {
    0 <= k < |actions| && var t := Run(s, actions[..k]); WellFormed(t) && Enabled(t, actions[k])
  }

  /** A caller closes the handle, or one whose wait ended aborts the actor task. */
  predicate Closes(a: Action) {
    a.Abort? || a == Submit(CloseCommand)
  }

  /** The action at position k of the run happens and closes the handle. */
  predicate ClosesAt(s: Actor, actions: seq<Action>, k: int) {
    Happens(s, actions, k) && Closes(actions[k])
  }

  lemma {:induction false} RunTo(s: Actor, actions: seq<Action>, k: nat)
    requires k <= |actions|
    ensures Run(s, actions) == Run(Run(s, actions[..k]), actions[k..])
    decreases |actions|
  {
    if k == 0 {
      assert actions[..0] == [] && actions[0..] == actions;
    } else {
      assert actions[..k][0] == actions[0] && actions[..k][1..] == actions[1..][..k - 1];
      assert actions[1..][k - 1..] == actions[k..];
      RunTo(if WellFormed(s) && Enabled(s, actions[0]) then Next(s, actions[0]) else s, actions[1..], k - 1);
    }
  }

  lemma RunLast(s: Actor, actions: seq<Action>)
    requires actions != []
    ensures var n := |actions| - 1;
      Run(s, actions) ==
        if Happens(s, actions, n) then Next(Run(s, actions[..n]), actions[n]) else Run(s, actions[..n])
  {
    RunTo(s, actions, |actions| - 1);
    assert actions[|actions| - 1..] == [actions[|actions| - 1]];
  }

  lemma StepCloses(s: Actor, a: Action)
    requires WellFormed(s) && Enabled(s, a)
    ensures Next(s, a).closed <==> s.closed || Closes(a)
  {}

  lemma ClosesInPrefix(s: Actor, actions: seq<Action>, n: nat, k: int)
    requires 0 <= k < n <= |actions|
    ensures ClosesAt(s, actions[..n], k) <==> ClosesAt(s, actions, k)
  {
    assert actions[..n][..k] == actions[..k] && actions[..n][k] == actions[k];
  }

  /** In every interleaving the handle is closed exactly if someone has closed it or a caller whose
      wait ended has aborted. */
  lemma {:induction false} ClosedIff(s: Actor, actions: seq<Action>)
    ensures Run(s, actions).closed <==> s.closed || exists k :: ClosesAt(s, actions, k)
    decreases |actions|
  {
    if actions != [] {
      var n := |actions| - 1;
      ClosedIff(s, actions[..n]);
      RunLast(s, actions);
      if Happens(s, actions, n) {
        StepCloses(Run(s, actions[..n]), actions[n]);
      }
      hide Run, Next, Enabled, WellFormed;
      assert Run(s, actions).closed <==> Run(s, actions[..n]).closed || ClosesAt(s, actions, n);
      ClosedBefore(s, actions, n);
      hide ClosesAt;
    }
  }

  lemma ClosedBefore(s: Actor, actions: seq<Action>, n: nat)
    requires n + 1 == |actions|
    ensures (exists k :: ClosesAt(s, actions, k)) <==>
      ClosesAt(s, actions, n) || exists k :: ClosesAt(s, actions[..n], k)
  {
    if k :| ClosesAt(s, actions, k) && k < n {
      ClosesInPrefix(s, actions, n, k);
    }
    if k :| ClosesAt(s, actions[..n], k) {
      ClosesInPrefix(s, actions, n, k);
    }
    hide Run, Closes, WellFormed, Enabled;
  }

  /** A command is accepted exactly if it is submitted while the handle is open and the actor task
      lives; it then waits, unanswered, behind everything accepted before.  No other action
      accepts anything. */
  lemma AcceptsIff(s: Actor, a: Action)
    requires Inv(s) && Enabled(s, a)
    ensures var t := Next(s, a);
      if a.Submit? && !s.closed && !s.phase.Dead? then
        t.kinds == s.kinds + [a.kind] && t.futures == s.futures + [Pending] && t.queue == s.queue + [|s.futures|]
      else
        t.kinds == s.kinds && |t.futures| == |s.futures|
  {
    if a.Unwound? {
      UnwoundKeeps(s, a);
      SettleAllFacts(s.futures, s.queue);
    }
  }

  /** Nothing is ever accepted by a handle that is closed, or whose actor task is done. */
  lemma {:induction false} ClosedForGood(s: Actor, actions: seq<Action>)
    requires Inv(s) && (s.closed || s.phase.Dead?)
    ensures var t := Run(s, actions); t.kinds == s.kinds && |t.futures| == |s.futures|
    decreases |actions|
  {
    if actions != [] {
      if Enabled(s, actions[0]) {
        StepKeeps(s, actions[0]);
        AcceptsIff(s, actions[0]);
        ClosedForGood(Next(s, actions[0]), actions[1..]);
      } else {
        ClosedForGood(s, actions[1..]);
      }
      hide Inv, Next, Enabled;
    }
  }

  /** A caller whose wait ends is answered no more and may abort; until it does, nothing else moves. */
  lemma ExpiryOwesAbort(s: Actor, id: nat)
    requires Inv(s) && Enabled(s, Expire(id))
    ensures var t := Next(s, Expire(id));
      && t.futures[id].Cancelled? && Enabled(t, Abort(id))
      && t.futures == s.futures[id := Cancelled] && t.queue == s.queue && t.phase == s.phase
      && t.cancelling == s.cancelling && t.closed == s.closed && t.kinds == s.kinds
  {}

  /** A caller that is cancelled from outside gives up its own future and moves nothing else: it owes
      no abort. */
  lemma AbandonGivesUp(s: Actor, id: nat)
    requires Inv(s) && Enabled(s, Abandon(id))
    ensures var t := Next(s, Abandon(id));
      t.futures[id].Cancelled? && t == s.(futures := s.futures[id := t.futures[id]])
  {}

  /** After an abort nothing is ever accepted again, whatever happens; the abort itself answers
      nobody.  Left alone from there, the actor task ends: what was queued has failed and nothing
      else is answered. */
  lemma AbortEndsService(s: Actor, id: nat, actions: seq<Action>, session: Session)
    requires Inv(s) && Enabled(s, Abort(id))
    ensures var t := Next(s, Abort(id));
      && Inv(t) && t.closed && t.futures == s.futures && t.queue == s.queue
      && Run(t, actions).kinds == s.kinds && Run(t, actions).closed
      && Drive(t, session).phase.Dead? && |Drive(t, session).futures| == |s.futures|
      && forall i :: 0 <= i < |s.futures| ==> Drive(t, session).futures[i] == Drained(s, i)
  {
    var t := Next(s, Abort(id));
    StepKeeps(s, Abort(id));
    ClosedForGood(t, actions);
    RunKeeps(t, actions);
    if !s.phase.Dead? {
      StoppingDrains(t, session);
      assert forall i :: 0 <= i < |s.futures| ==> Drained(t, i) == Drained(s, i);
    }
    hide Run;
  }

  /** An opener gets a handle only from a start that succeeded while it waited, and then for good.
      If the actor task ends by raising, no opener is left waiting. */
  lemma BootSettled(s: Actor, a: Action)
    requires Inv(s) && Enabled(s, a)
    ensures Next(s, a).boot.Fulfilled? <==> s.boot.Fulfilled? || (a.BootSucceeds? && s.boot.Pending?)
    ensures !s.boot.Pending? ==> Next(s, a).boot == s.boot
    ensures a == Unwound(true) ==> !Next(s, a).boot.Pending?
    ensures a == BootExpires ==> Next(s, a).boot.Cancelled?
  {}

  /** A session that answers settles the request it answers, and nothing else, and the actor task
      goes on to the next command. */
  lemma ReplySettles(s: Actor, ok: bool)
    requires Inv(s) && Enabled(s, Reply(ok))
    ensures var t := Next(s, Reply(ok));
      var id := s.phase.id;
      && t.phase.Idle? && t.queue == s.queue && t.served == s.served && |t.futures| == |s.futures|
      && (forall i :: 0 <= i < |s.futures| && i != id ==> t.futures[i] == s.futures[i])
      && (s.futures[id].Pending? && ok ==> t.futures[id].Fulfilled?)
      && (s.futures[id].Pending? && !ok ==> t.futures[id].Failed?)
  {}
}
