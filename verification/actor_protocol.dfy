/** The runtime actor: one task that serves a FIFO queue of commands for many callers, each of
    whom may time out, be cancelled, or find the runtime closed, while the actor task may be
    cancelled at any await. */
module ActorProtocol {
  import opened Prelude

  datatype Kind = CallCommand | ProbeCommand | CloseCommand

  datatype Future = Pending | Fulfilled | Failed | Cancelled

  /** Where the actor task is suspended.  In Unwinding it is closing its exit stack. */
  datatype Phase = Booting | Idle | Serving(id: nat) | Unwinding | Dead

  /** Commands are numbered in the order they were accepted.  `current` is the actor task's
      `current_future`; `cancelling` is a cancellation requested but not yet delivered;
      `expired` are callers whose wait ended and who have not yet aborted the actor task.
      `served` and `lost` only record what happened: the commands taken, in order, and the one
      being served when a cancellation landed. */
  datatype Actor = Actor(
    kinds: seq<Kind>,
    futures: seq<Future>,
    queue: seq<nat>,
    phase: Phase,
    current: Option<nat>,
    closed: bool,
    cancelling: bool,
    expired: set<nat>,
    boot: Future,
    served: seq<nat>,
    lost: Option<nat>)

  const NEW := Actor([], [], [], Booting, None, false, false, {}, Pending, [], None)

  datatype Action =
    | BootExpires                // the opener's wait ends
    | BootSucceeds
    | BootFails
    | Submit(kind: Kind)         // a caller enters call_tool, probe or close
    | Take                       // the actor task gets the next command
    | Reply(ok: bool)            // the session answers, or raises
    | Deliver                    // a requested cancellation reaches the actor task
    | Unwound(raised: bool)      // the exit stack is closed; the outer finally runs
    | Expire(id: nat)            // a caller's wait ends without an answer
    | Abort(id: nat)             // that caller aborts the actor task
    | Abandon(id: nat)           // a caller is cancelled from outside
    | CancelTask                 // anyone else cancels the actor task

  predicate IsRunning(s: Actor) {
    !s.phase.Dead? && !s.closed
  }

  function Settle(futures: seq<Future>, id: nat, f: Future): seq<Future>
    requires id < |futures|
  {
    if futures[id].Pending? then futures[id := f] else futures
  }

  /** What draining does to the futures: every command still queued fails unless it is done. */
  function SettleAll(futures: seq<Future>, ids: seq<nat>): seq<Future>
    requires forall k :: 0 <= k < |ids| ==> ids[k] < |futures|
    decreases |ids|
  {
    if |ids| == 0 then futures else SettleAll(Settle(futures, ids[0], Failed), ids[1..])
  }

  predicate WellFormed(s: Actor) {
    && |s.kinds| == |s.futures|
    && (forall k :: 0 <= k < |s.queue| ==> s.queue[k] < |s.futures|)
    && (s.phase.Serving? ==> s.phase.id < |s.futures|)
    && (s.current.Some? ==> s.current.value < |s.futures|)
  }

  predicate Enabled(s: Actor, a: Action) {
    match a
    case BootExpires => s.boot.Pending?
    case BootSucceeds => s.phase.Booting? && !s.cancelling
    case BootFails => s.phase.Booting? && !s.cancelling
    case Submit(_) => s.boot.Fulfilled?
    case Take => s.phase.Idle? && !s.cancelling && |s.queue| > 0
    case Reply(_) => s.phase.Serving? && !s.cancelling
    case Deliver => s.cancelling && !s.phase.Dead?
    case Unwound(_) => s.phase.Unwinding? && !s.cancelling
    case Expire(id) => id < |s.futures| && s.futures[id].Pending?
    case Abort(id) => id in s.expired
    case Abandon(id) => id < |s.futures| && s.futures[id].Pending?
    case CancelTask => !s.phase.Dead?
  }

  function Accept(s: Actor, kind: Kind): Actor {
    s.(kinds := s.kinds + [kind], futures := s.futures + [Pending], queue := s.queue + [|s.futures|])
  }

  function Next(s: Actor, a: Action): Actor
    requires WellFormed(s) && Enabled(s, a)
  {
    match a
    case BootExpires => s.(boot := Cancelled)
    case BootSucceeds => if s.boot.Pending? then s.(boot := Fulfilled, phase := Idle) else s.(phase := Unwinding)
    case BootFails => s.(phase := Unwinding)
    case Submit(CloseCommand) =>
      if s.closed then s
      else if s.phase.Dead? then s.(closed := true)
      else Accept(s.(closed := true), CloseCommand)
    case Submit(kind) => if IsRunning(s) then Accept(s, kind) else s
    case Take =>
      var id := s.queue[0];
      var t := s.(queue := s.queue[1..], served := s.served + [id]);
      if s.kinds[id].CloseCommand? then t.(futures := Settle(s.futures, id, Fulfilled), phase := Unwinding)
      else t.(phase := Serving(id), current := Some(id))
    case Reply(ok) =>
      s.(futures := Settle(s.futures, s.phase.id, if ok then Fulfilled else Failed), current := None, phase := Idle)
    case Deliver =>
      s.(cancelling := false, current := None, phase := Unwinding,
         lost := if s.phase.Serving? then Some(s.phase.id) else s.lost)
    case Unwound(raised) =>
      var futures := if s.current.Some? then Settle(s.futures, s.current.value, Failed) else s.futures;
      s.(futures := SettleAll(futures, s.queue), queue := [], phase := Dead,
         boot := if raised && s.boot.Pending? then Failed else s.boot)
    case Expire(id) => s.(futures := s.futures[id := Cancelled], expired := s.expired + {id})
    case Abort(id) => s.(expired := s.expired - {id}, closed := true, cancelling := s.cancelling || !s.phase.Dead?)
    case Abandon(id) => s.(futures := s.futures[id := Cancelled])
    case CancelTask => s.(cancelling := true)
  }

  /** The commands n, n+1, ..., m-1. */
  predicate Consecutive(ids: seq<nat>, n: nat, m: nat) {
    |ids| == m - n && forall k :: 0 <= k < |ids| ==> ids[k] == n + k
  }

  /** What holds of every reachable state. */
  predicate Inv(s: Actor) {
    var n, taken := |s.futures|, |s.served|;
    && WellFormed(s)
    && taken <= n
    // commands are taken in the order they were accepted, and the rest wait in that order
    && Consecutive(s.served, 0, taken)
    && (if s.phase.Dead? then s.queue == [] else Consecutive(s.queue, taken, n))
    // current_future is set exactly while a session request is outstanding
    && s.current == (if s.phase.Serving? then Some(s.phase.id) else None)
    && (s.phase.Serving? ==> s.phase.id == taken - 1 && s.kinds[taken - 1] != CloseCommand)
    // every unanswered command is queued, being served, or was interrupted
    && (forall i :: 0 <= i < n && s.futures[i].Pending? ==>
          (taken <= i && !s.phase.Dead?) || s.phase == Serving(i) || s.lost == Some(i))
    // only a command that was taken is ever fulfilled, or fails before the actor task is dead
    && (forall i :: taken <= i < n ==> Unanswered(s.futures[i]) || (s.phase.Dead? && s.futures[i].Failed?))
    // the actor never answers the interrupted command
    && (s.phase.Serving? ==> Unanswered(s.futures[s.phase.id]))
    && (s.lost.Some? ==>
          && s.lost.value < taken && Unanswered(s.futures[s.lost.value])
          && (s.phase.Unwinding? || s.phase.Dead?))
    // a close is the last command accepted, and ends the service when it is taken
    && (forall c :: 0 <= c < n && s.kinds[c].CloseCommand? ==> s.closed && c == n - 1)
    && (forall c :: 0 <= c < taken && s.kinds[c].CloseCommand? ==>
          && s.lost.None? && (s.phase.Unwinding? || s.phase.Dead?)
          && (s.futures[c].Fulfilled? || s.futures[c].Cancelled?))
    // nobody holds the runtime before it has booted
    && (!s.boot.Fulfilled? ==> n == 0)
    && (s.phase.Booting? ==> !s.boot.Fulfilled?)
    && (s.phase.Idle? || s.phase.Serving? ==> s.boot.Fulfilled?)
    && (forall i :: i in s.expired ==> i < n)
  }

  predicate Unanswered(f: Future) {
    f.Pending? || f.Cancelled?
  }

  lemma {:induction false} SettleAllFacts(futures: seq<Future>, ids: seq<nat>)
    requires forall k :: 0 <= k < |ids| ==> ids[k] < |futures|
    ensures var r := SettleAll(futures, ids);
      && |r| == |futures|
      && (forall i :: 0 <= i < |r| ==> r[i] == if futures[i].Pending? && i in ids then Failed else futures[i])
    decreases |ids|
  {
    if |ids| != 0 {
      SettleAllFacts(Settle(futures, ids[0], Failed), ids[1..]);
      assert forall i :: i in ids <==> i == ids[0] || i in ids[1..];
    }
  }

  lemma InitInv()
    ensures Inv(NEW)
  {}

  /** What one step may do to what is already settled: nothing. */
  predicate Monotone(s: Actor, s': Actor) {
    && s.kinds <= s'.kinds
    && s.served <= s'.served
    && |s.futures| <= |s'.futures|
    && (forall i :: 0 <= i < |s.futures| && !s.futures[i].Pending? ==> s'.futures[i] == s.futures[i])
    && (s.closed ==> s'.closed)
    && (s.phase.Dead? ==> s'.phase.Dead? && s'.kinds == s.kinds && s'.served == s.served)
  }

  lemma TakeKeeps(s: Actor)
    requires Inv(s) && Enabled(s, Take)
    ensures Inv(Next(s, Take)) && Monotone(s, Next(s, Take))
  {
    assert s.queue[0] == |s.served|;
  }

  lemma ServiceKeeps(s: Actor, a: Action)
    requires a.Reply? || a.Deliver?
    requires Inv(s) && Enabled(s, a)
    ensures Inv(Next(s, a)) && Monotone(s, Next(s, a))
  {}

  lemma UnwoundKeeps(s: Actor, a: Action)
    requires a.Unwound?
    requires Inv(s) && Enabled(s, a)
    ensures Inv(Next(s, a)) && Monotone(s, Next(s, a))
  {
    SettleAllFacts(s.futures, s.queue);
    forall i | 0 <= i < |s.futures| && s.futures[i].Pending? && |s.served| <= i
      ensures Next(s, a).futures[i] == Failed
    {
      assert s.queue[i - |s.served|] == i;
    }
  }

  lemma AcceptKeeps(s: Actor, kind: Kind)
    requires Inv(s) && s.boot.Fulfilled? && IsRunning(s)
    ensures var s' := Accept(if kind.CloseCommand? then s.(closed := true) else s, kind);
      Inv(s') && Monotone(s, s')
  {}

  lemma SubmitKeeps(s: Actor, a: Action)
    requires a.Submit?
    requires Inv(s) && Enabled(s, a)
    ensures Inv(Next(s, a)) && Monotone(s, Next(s, a))
  {
    if IsRunning(s) {
      hide Inv, Monotone, Accept;
      assert s.boot.Fulfilled?;
      AcceptKeeps(s, a.kind);
    }
  }

  lemma ExpireKeeps(s: Actor, id: nat)
    requires Inv(s) && Enabled(s, Expire(id))
    ensures Inv(Next(s, Expire(id))) && Monotone(s, Next(s, Expire(id)))
  {}

  lemma AbandonKeeps(s: Actor, id: nat)
    requires Inv(s) && Enabled(s, Abandon(id))
    ensures Inv(Next(s, Abandon(id))) && Monotone(s, Next(s, Abandon(id)))
  {}

  lemma CancelKeeps(s: Actor, a: Action)
    requires a.Abort? || a.CancelTask?
    requires Inv(s) && Enabled(s, a)
    ensures Inv(Next(s, a)) && Monotone(s, Next(s, a))
  {}

  lemma BootKeeps(s: Actor, a: Action)
    requires a.BootExpires? || a.BootSucceeds? || a.BootFails?
    requires Inv(s) && Enabled(s, a)
    ensures Inv(Next(s, a)) && Monotone(s, Next(s, a))
  {}

  /** Every step of the protocol keeps the invariant and settles no future twice. */
  lemma StepKeeps(s: Actor, a: Action)
    requires Inv(s) && Enabled(s, a)
    ensures Inv(Next(s, a)) && Monotone(s, Next(s, a))
  {
    hide *;
    match a
    case Take => TakeKeeps(s);
    case Reply(_) => ServiceKeeps(s, a);
    case Deliver => ServiceKeeps(s, a);
    case Unwound(_) => UnwoundKeeps(s, a);
    case Submit(_) => SubmitKeeps(s, a);
    case BootExpires => BootKeeps(s, a);
    case BootSucceeds => BootKeeps(s, a);
    case BootFails => BootKeeps(s, a);
    case Expire(id) => ExpireKeeps(s, id);
    case Abandon(id) => AbandonKeeps(s, id);
    case Abort(_) => CancelKeeps(s, a);
    case CancelTask => CancelKeeps(s, a);
  }

  /** A run: any interleaving at all.  An action that is not enabled does not happen. */
  function Run(s: Actor, actions: seq<Action>): Actor
    decreases |actions|
  {
    if |actions| == 0 then s
    else Run(if WellFormed(s) && Enabled(s, actions[0]) then Next(s, actions[0]) else s, actions[1..])
  }

  lemma {:induction false} RunKeeps(s: Actor, actions: seq<Action>)
    requires Inv(s)
    ensures Inv(Run(s, actions)) && Monotone(s, Run(s, actions))
    decreases |actions|
  {
    if |actions| != 0 {
      if Enabled(s, actions[0]) {
        StepKeeps(s, actions[0]);
        RunKeeps(Next(s, actions[0]), actions[1..]);
      } else {
        RunKeeps(s, actions[1..]);
      }
    }
  }

  /** In every interleaving each accepted command is settled, waits in the queue, is being
      served, or was interrupted by a cancellation; commands are taken in acceptance order, and
      an acknowledged close means that everything accepted before it was taken and settled. */
  lemma EveryCommandAccounted(actions: seq<Action>)
    ensures var s := Run(NEW, actions);
      && (forall i :: 0 <= i < |s.futures| ==>
            !s.futures[i].Pending? || i in s.queue || s.phase == Serving(i) || s.lost == Some(i))
      && (forall k :: 0 <= k < |s.served| ==> s.served[k] == k)
      && (forall c :: 0 <= c < |s.kinds| == |s.futures| && s.kinds[c].CloseCommand? && s.futures[c].Fulfilled? ==>
            c == |s.futures| - 1 && c in s.served
            && forall i :: 0 <= i < c ==> !s.futures[i].Pending?)
  {
    var s := Run(NEW, actions);
    InitInv();
    RunKeeps(NEW, actions);
    forall i | 0 <= i < |s.futures| && s.futures[i].Pending? && |s.served| <= i && !s.phase.Dead?
      ensures i in s.queue
    {
      assert s.queue[i - |s.served|] == i;
    }
    forall c | 0 <= c < |s.futures| && s.kinds[c].CloseCommand? && s.futures[c].Fulfilled?
      ensures c in s.served
    {
      assert s.served[c] == c;
    }
  }

  /** Once the actor task is done the queue is empty, and all commands are settled if and only if no
      cancellation interrupted one whose caller was still waiting.  An interrupted command has
      had no answer: at most its caller gave up on it. */
  lemma DeathSettlesUnlessInterrupted(actions: seq<Action>)
    ensures var s := Run(NEW, actions);
      s.phase.Dead? ==>
        && s.queue == []
        && (forall i :: 0 <= i < |s.futures| && s.futures[i].Pending? ==> s.lost == Some(i))
        && ((forall i :: 0 <= i < |s.futures| ==> !s.futures[i].Pending?)
            <==> (s.lost.None? || (s.lost.value < |s.futures| && s.futures[s.lost.value].Cancelled?)))
  {
    RunKeeps(NEW, actions);
  }

  /** After the actor task is done only the interrupted command can still change, and only because its
      own caller times out or is cancelled. */
  lemma AfterDeath(s: Actor, a: Action)
    requires Inv(s) && s.phase.Dead? && Enabled(s, a)
    ensures
      || Next(s, a).futures == s.futures
      || (s.lost.Some? && (a == Expire(s.lost.value) || a == Abandon(s.lost.value)))
  {
    if a.Unwound? || a.Take? || a.Reply? {
      assert false;
    }
  }

  /** The last resort that would fail the command being served finds none: whatever interrupted
      the service has already cleared `current_future`. */
  lemma NothingCurrentWhenUnwound(s: Actor)
    requires Inv(s) && s.phase.Unwinding?
    ensures s.current.None?
    ensures forall raised :: Enabled(s, Unwound(raised)) ==>
      Next(s, Unwound(raised)).futures == SettleAll(s.futures, s.queue)
  {}

  /** What the session answers each request with, and whether closing the exit stack raises. */
  datatype Session = Session(answers: nat -> bool, raises: bool)

  /** The actor task's own next move, when nobody interferes. */
  function Move(s: Actor, session: Session): Action {
    if s.cancelling then Deliver
    else match s.phase
      case Booting => BootSucceeds
      case Idle => Take
      case Serving(id) => Reply(session.answers(id))
      case Unwinding => Unwound(session.raises)
      case Dead => CancelTask
  }

  /** How many moves the actor task has left at most. */
  function Remaining(s: Actor): nat {
    2 * |s.queue| +
    match s.phase
    case Booting => 3
    case Idle => 2
    case Serving(_) => 3
    case Unwinding => if s.cancelling then 2 else 1
    case Dead => 0
  }

  /** Every move of the actor task uses up what is left, whatever the session answers. */
  lemma TaskProgress(s: Actor, a: Action)
    requires Inv(s) && Enabled(s, a)
    requires a.BootSucceeds? || a.BootFails? || a.Take? || a.Reply? || a.Unwound? || a.Deliver?
    ensures Remaining(Next(s, a)) < Remaining(s)
  {}

  /** The actor task waits exactly when it is idle with nothing in the queue and nobody cancels it. */
  lemma TaskWaitsIff(s: Actor, session: Session)
    requires Inv(s) && !s.phase.Dead?
    ensures Enabled(s, Move(s, session)) <==> !(s.phase.Idle? && !s.cancelling && s.queue == [])
  {}

  /** Runs the actor task by itself until it is done or waits for work. */
  function Drive(s: Actor, session: Session): Actor
    requires Inv(s)
    decreases Remaining(s)
  {
    if s.phase.Dead? || !Enabled(s, Move(s, session)) then s
    else
      StepKeeps(s, Move(s, session));
      TaskProgress(s, Move(s, session));
      Drive(Next(s, Move(s, session)), session)
  }

  /** What becomes of a command that the actor task serves: a close is acknowledged, and any other
      command gets the session's answer, unless its caller has given up. */
  function Served(s: Actor, session: Session, i: nat): Future
    requires i < |s.futures| == |s.kinds|
  {
    if !s.futures[i].Pending? then s.futures[i]
    else if s.kinds[i].CloseCommand? || session.answers(i) then Fulfilled
    else Failed
  }

  /** A cancellation is on its way, or the exit stack is closing already. */
  predicate Stopping(s: Actor) {
    s.cancelling || s.phase.Unwinding?
  }

  /** What the drain makes of the futures: what waits in the queue fails. */
  function Drained(s: Actor, i: nat): Future
    requires i < |s.futures|
  {
    if s.futures[i].Pending? && i in s.queue then Failed else s.futures[i]
  }

  /** What becomes of a close that is accepted and left alone, whatever the session answers and
      however the exit stack closes.  Unless the actor task is stopping already, everything queued
      before the close gets its own answer and the close is acknowledged.  Otherwise all of them
      fail.  Either way the actor task ends, so the close raises if and only if it came while the
      actor task was stopping and its closer still waits. */
  lemma CloseIsServed(s: Actor, c: nat, session: Session)
    requires Inv(s) && !s.phase.Dead? && c < |s.futures| && s.kinds[c].CloseCommand? && c in s.queue
    ensures var t := Drive(s, session);
      && t.phase.Dead? && |s.futures| == |t.futures|
      && (forall i :: 0 <= i < |s.futures| ==>
            t.futures[i] == if Stopping(s) then Drained(s, i) else Served(s, session, i))
      && (!Stopping(s) ==> t.lost.None? && |t.served| == |s.futures|)
      && (t.futures[c].Failed? <==> Stopping(s) && s.futures[c].Pending?)
  {
    hide *;
    if Stopping(s) {
      StoppingDrains(s, session);
      CloseUnanswered(s, c);
    } else {
      ServesTheClose(s, c, session);
      CloseUnanswered(s, c);
    }
  }

  lemma CloseUnanswered(s: Actor, c: nat)
    requires Inv(s) && !s.phase.Dead? && c < |s.futures| && s.kinds[c].CloseCommand? && c in s.queue
    ensures s.futures[c].Pending? || s.futures[c].Cancelled?
    ensures Drained(s, c) == if s.futures[c].Pending? then Failed else Cancelled
    ensures forall session :: Served(s, session, c) == if s.futures[c].Pending? then Fulfilled else Cancelled
  {}

  lemma UnwoundDrains(s: Actor, session: Session)
    requires Inv(s) && s.phase.Unwinding? && !s.cancelling
    ensures var t := Drive(s, session);
      && t.phase.Dead? && |s.futures| == |t.futures| && t.served == s.served && t.lost == s.lost
      && (forall i :: 0 <= i < |s.futures| ==> t.futures[i] == Drained(s, i))
  {
    var t := Next(s, Unwound(session.raises));
    StepKeeps(s, Unwound(session.raises));
    assert Drive(s, session) == Drive(t, session) == t;
    SettleAllFacts(s.futures, s.queue);
  }

  lemma StoppingDrains(s: Actor, session: Session)
    requires Inv(s) && Stopping(s) && !s.phase.Dead?
    ensures var t := Drive(s, session);
      && t.phase.Dead? && |s.futures| == |t.futures|
      && (forall i :: 0 <= i < |s.futures| ==> t.futures[i] == Drained(s, i))
  {
    if s.cancelling {
      var t := Next(s, Deliver);
      StepKeeps(s, Deliver);
      UnwoundDrains(t, session);
      assert Drive(s, session) == Drive(t, session);
    } else {
      UnwoundDrains(s, session);
    }
  }

  lemma {:induction false} ServesTheClose(s: Actor, c: nat, session: Session)
    requires Inv(s) && !Stopping(s) && !s.phase.Dead?
    requires c < |s.futures| && s.kinds[c].CloseCommand? && c in s.queue
    ensures var t := Drive(s, session);
      && t.phase.Dead? && t.lost.None? && |t.served| == |s.futures| == |t.futures|
      && (forall i :: 0 <= i < |s.futures| ==> t.futures[i] == Served(s, session, i))
    decreases Remaining(s)
  {
    assert c == |s.futures| - 1;
    var move := Move(s, session);
    var s' := Next(s, move);
    StepKeeps(s, move);
    TaskProgress(s, move);
    assert Drive(s, session) == Drive(s', session);
    if s.phase.Idle? && s.queue[0] == c {
      UnwoundDrains(s', session);
      assert |s'.queue| == 0;
    } else {
      assert s'.queue == if s.phase.Idle? then s.queue[1..] else s.queue;
      ServesTheClose(s', c, session);
    }
    hide Drive;
  }

  /** Once the actor task is done, a close has failed, and so raises, if and only if it was never
      taken and its closer did not give up; it was acknowledged if and only if it was taken and its
      closer did not give up. */
  lemma CloseFailsIff(actions: seq<Action>, c: nat)
    requires var s := Run(NEW, actions); s.phase.Dead? && c < |s.kinds| && s.kinds[c].CloseCommand?
    ensures var s := Run(NEW, actions);
      && c < |s.futures|
      && (s.futures[c].Failed? <==> c !in s.served && !s.futures[c].Cancelled?)
      && (s.futures[c].Fulfilled? <==> c in s.served && !s.futures[c].Cancelled?)
  {
    RunKeeps(NEW, actions);
    var s := Run(NEW, actions);
    hide Run;
    if c < |s.served| {
      assert s.served[c] == c;
    }
  }

  lemma RunCons(s: Actor, a: Action, rest: seq<Action>)
    requires WellFormed(s) && Enabled(s, a)
    ensures Run(s, [a] + rest) == Run(Next(s, a), rest)
  {
    assert ([a] + rest)[1..] == rest;
  }

  const SERVING := Actor([CallCommand], [Pending], [], Serving(0), Some(0), false, false, {}, Fulfilled, [0], None)

  lemma RunToServing(rest: seq<Action>)
    ensures Run(NEW, [BootSucceeds] + ([Submit(CallCommand)] + ([Take] + rest))) == Run(SERVING, rest)
  {
    var booted := NEW.(boot := Fulfilled, phase := Idle);
    var waiting := booted.(kinds := [CallCommand], futures := [Pending], queue := [0]);
    RunCons(NEW, BootSucceeds, [Submit(CallCommand)] + ([Take] + rest));
    assert Next(booted, Submit(CallCommand)) == waiting;
    RunCons(booted, Submit(CallCommand), [Take] + rest);
    assert Next(waiting, Take) == SERVING by {
      assert waiting.queue[1..] == [];
    }
    RunCons(waiting, Take, rest);
    hide *;
  }

  const GIVEN_UP := SERVING.(kinds := [CallCommand, CloseCommand], futures := [Cancelled, Pending], queue := [1],
    closed := true, cancelling := true)

  lemma RunToGivenUp(rest: seq<Action>)
    ensures Run(SERVING, [Submit(CloseCommand)] + ([Expire(0)] + ([Abort(0)] + rest))) == Run(GIVEN_UP, rest)
  {
    var closing := SERVING.(kinds := [CallCommand, CloseCommand], futures := [Pending, Pending], queue := [1],
      closed := true);
    var expired := closing.(futures := [Cancelled, Pending], expired := {0});
    assert Next(SERVING, Submit(CloseCommand)) == closing;
    RunCons(SERVING, Submit(CloseCommand), [Expire(0)] + ([Abort(0)] + rest));
    assert Next(closing, Expire(0)) == expired;
    RunCons(closing, Expire(0), [Abort(0)] + rest);
    assert Next(expired, Abort(0)) == GIVEN_UP;
    RunCons(expired, Abort(0), rest);
    hide *;
  }

  lemma GivenUpDies()
    ensures var t := Run(GIVEN_UP, [Deliver] + ([Unwound(true)] + []));
      t.phase.Dead? && t.kinds == GIVEN_UP.kinds && t.futures == [Cancelled, Failed]
  {
    RunCons(GIVEN_UP, Deliver, [Unwound(true)] + []);
    var unwinding := GIVEN_UP.(cancelling := false, current := None, phase := Unwinding, lost := Some(0));
    assert Next(GIVEN_UP, Deliver) == unwinding;
    RunCons(unwinding, Unwound(true), []);
    SettleAllFacts(unwinding.futures, unwinding.queue);
  }

  /** A cancelled runtime does not fail the call it was serving. */
  lemma InterruptedCallIsNotFailed()
    ensures var s := Run(NEW, [BootSucceeds, Submit(CallCommand), Take, CancelTask, Deliver, Unwound(true)]);
      s.phase.Dead? && s.futures == [Pending] && s.lost == Some(0)
  {
    var end := [CancelTask] + ([Deliver] + ([Unwound(true)] + []));
    RunToServing(end);
    assert [BootSucceeds] + ([Submit(CallCommand)] + ([Take] + end)) ==
      [BootSucceeds, Submit(CallCommand), Take, CancelTask, Deliver, Unwound(true)];
    RunCons(SERVING, CancelTask, [Deliver] + ([Unwound(true)] + []));
    var cancelled := Next(SERVING, CancelTask);
    RunCons(cancelled, Deliver, [Unwound(true)] + []);
    RunCons(Next(cancelled, Deliver), Unwound(true), []);
  }

  /** It does fail: a call is being served, a close is queued behind it, and the call's caller gives
      up and aborts the actor task. */
  lemma CloseBehindExpiredCallFails()
    ensures var s := Run(NEW, [BootSucceeds, Submit(CallCommand), Take, Submit(CloseCommand), Expire(0), Abort(0),
        Deliver, Unwound(true)]);
      s.phase.Dead? && s.kinds == [CallCommand, CloseCommand] && s.futures == [Cancelled, Failed]
  {
    var end := [Deliver] + ([Unwound(true)] + []);
    var late := [Submit(CloseCommand)] + ([Expire(0)] + ([Abort(0)] + end));
    RunToServing(late);
    RunToGivenUp(end);
    hide Run;
    assert [BootSucceeds] + ([Submit(CallCommand)] + ([Take] + late)) ==
      [BootSucceeds, Submit(CallCommand), Take, Submit(CloseCommand), Expire(0), Abort(0), Deliver, Unwound(true)];
    GivenUpDies();
    hide *;
  }
}
