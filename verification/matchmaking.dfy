/** Pairing waiting players by rating, one queue per time control. */
module Matchmaking {
  import opened Board

  type User = string

  /** Who waits at which rating, and since when each has waited, in milliseconds. */
  datatype Queue = Queue(elo: map<User, int>, since: map<User, int>)

  const EMPTY: Queue := Queue(map[], map[])

  function Wait(q: Queue, u: User, now: int): real {
    if u in q.since && now > q.since[u] then (now - q.since[u]) as real / 1000.0 else 0.0
  }

  /** How far from their own rating a player accepts an opponent: 100, and 50 more for every
      second waited, up to 800. */
  function Band(q: Queue, u: User, now: int): real {
    var wide := 100.0 + Wait(q, u, now) * 50.0;
    if wide < 800.0 then wide else 800.0
  }

  function Gap(a: int, b: int): int { Abs(a - b) }

  /** The waiting player `other` and the caller accept each other. */
  predicate Mutual(q: Queue, me: User, elo: int, now: int, other: User) {
    && other in q.elo && other != me
    && Gap(q.elo[other], elo) as real <= Band(q, me, now)
    && Gap(q.elo[other], elo) as real <= Band(q, other, now)
  }

  /** A player accepts a gap of at most 100 at once, and each point more up to 800 after 20 ms more. */
  predicate Accepts(q: Queue, u: User, now: int, gap: int) {
    gap <= 100 || (gap <= 800 && u in q.since && 20 * (gap - 100) <= now - q.since[u])
  }

  /** So a gap of 100 + 50 s, up to 800, is accepted exactly from s seconds on. */
  lemma BandIs(q: Queue, u: User, now: int, gap: int)
    ensures gap as real <= Band(q, u, now) <==> Accepts(q, u, now, gap)
    ensures forall s: nat :: s <= 14 && u in q.since ==>
      (Accepts(q, u, now, 100 + 50 * s) <==> s == 0 || now - q.since[u] >= 1000 * s)
  {}

  lemma MutualIs(q: Queue, me: User, elo: int, now: int)
    ensures forall u :: Mutual(q, me, elo, now, u) <==>
      && u in q.elo && u != me
      && Accepts(q, me, now, Gap(q.elo[u], elo)) && Accepts(q, u, now, Gap(q.elo[u], elo))
  {
    forall u | u in q.elo
      ensures Gap(q.elo[u], elo) as real <= Band(q, me, now) <==> Accepts(q, me, now, Gap(q.elo[u], elo))
      ensures Gap(q.elo[u], elo) as real <= Band(q, u, now) <==> Accepts(q, u, now, Gap(q.elo[u], elo))
    {
      BandIs(q, me, now, Gap(q.elo[u], elo));
      BandIs(q, u, now, Gap(q.elo[u], elo));
    }
  }

  /** The members of the queue within the caller's band, as the sorted-set range lists them. */
  ghost predicate InBand(q: Queue, me: User, elo: int, now: int, candidates: seq<(User, int)>) {
    && (forall i :: 0 <= i < |candidates| ==> candidates[i].0 in q.elo && q.elo[candidates[i].0] == candidates[i].1)
    && (forall u :: u in q.elo && Gap(q.elo[u], elo) as real <= Band(q, me, now) ==>
          exists i :: 0 <= i < |candidates| && candidates[i].0 == u)
    && (forall i :: 0 <= i < |candidates| ==> Gap(candidates[i].1, elo) as real <= Band(q, me, now))
  }

  /** Both players leave the queue. */
  function Paired(q: Queue, me: User, other: User): Queue {
    Queue(q.elo - {me, other}, q.since - {me, other})
  }

  /** The caller waits, from now on unless already waiting. */
  function Enqueued(q: Queue, me: User, elo: int, now: int): Queue {
    Queue(q.elo[me := elo], if me in q.since then q.since else q.since[me := now])
  }

  /** The opponent is acceptable to both and no acceptable opponent is closer in rating. */
  ghost predicate Nearest(q: Queue, me: User, elo: int, now: int, other: User) {
    && Mutual(q, me, elo, now, other)
    && forall u :: Mutual(q, me, elo, now, u) ==> Gap(q.elo[other], elo) <= Gap(q.elo[u], elo)
  }

  /** What one poll may do: pair with a nearest mutually acceptable opponent, or wait if there is none. */
  ghost predicate Poll(q: Queue, me: User, elo: int, now: int, opponent: Option<User>, q': Queue) {
    match opponent
    case Some(other) => Nearest(q, me, elo, now, other) && q' == Paired(q, me, other)
    case None => (forall u :: !Mutual(q, me, elo, now, u)) && q' == Enqueued(q, me, elo, now)
  }

  function OutOfQueue(q: Queue, me: User): Queue { q.(elo := q.elo - {me}) }

  function WaitForgotten(q: Queue, me: User): Queue { q.(since := q.since - {me}) }

  /** Among the first `n` candidates, the first with the least gap that is mutually acceptable. */
  ghost predicate FirstNearest(q: Queue, me: User, elo: int, now: int, candidates: seq<(User, int)>, n: nat, i: nat)
    requires n <= |candidates|
  {
    && i < n && Mutual(q, me, elo, now, candidates[i].0)
    && forall j :: 0 <= j < n && Mutual(q, me, elo, now, candidates[j].0) ==>
        Gap(candidates[i].1, elo) <= Gap(candidates[j].1, elo)
        && (j < i ==> Gap(candidates[i].1, elo) < Gap(candidates[j].1, elo))
  }

  /** The best opponent among the first `n` candidates, and its gap. */
  ghost predicate BestOf(q: Queue, me: User, elo: int, now: int, candidates: seq<(User, int)>, n: nat,
                         best: Option<User>, gap: int)
    requires n <= |candidates|
  {
    match best
    case None => forall j :: 0 <= j < n ==> !Mutual(q, me, elo, now, candidates[j].0)
    case Some(u) => exists i: nat ::
      FirstNearest(q, me, elo, now, candidates, n, i) && candidates[i].0 == u && gap == Gap(candidates[i].1, elo)
  }

  /** Considering one more candidate. */
  lemma BestNext(q: Queue, me: User, elo: int, now: int, candidates: seq<(User, int)>, n: nat,
                 best: Option<User>, gap: int)
    requires n < |candidates| && BestOf(q, me, elo, now, candidates, n, best, gap)
    ensures var (other, otherElo) := candidates[n];
      if Mutual(q, me, elo, now, other) && (best.None? || Gap(otherElo, elo) < gap)
      then BestOf(q, me, elo, now, candidates, n + 1, Some(other), Gap(otherElo, elo))
      else BestOf(q, me, elo, now, candidates, n + 1, best, gap)
  {
    var (other, otherElo) := candidates[n];
    if Mutual(q, me, elo, now, other) && (best.None? || Gap(otherElo, elo) < gap) {
      assert FirstNearest(q, me, elo, now, candidates, n + 1, n);
    } else if best.Some? {
      var i: nat :| FirstNearest(q, me, elo, now, candidates, n, i) && candidates[i].0 == best.value
        && gap == Gap(candidates[i].1, elo);
      assert FirstNearest(q, me, elo, now, candidates, n + 1, i);
    }
  }

  /** The range holds everyone who may be acceptable, so the best of it is a nearest opponent. */
  lemma BestIsNearest(q: Queue, me: User, elo: int, now: int, candidates: seq<(User, int)>,
                      best: Option<User>, gap: int)
    requires InBand(q, me, elo, now, candidates) && BestOf(q, me, elo, now, candidates, |candidates|, best, gap)
    ensures best.Some? ==> Nearest(q, me, elo, now, best.value)
    ensures best.None? ==> forall u :: !Mutual(q, me, elo, now, u)
  {
    forall u | Mutual(q, me, elo, now, u)
      ensures best.Some? && Gap(q.elo[best.value], elo) <= Gap(q.elo[u], elo)
    {
      var j :| 0 <= j < |candidates| && candidates[j].0 == u;
      if best.Some? {
        var i: nat :| FirstNearest(q, me, elo, now, candidates, |candidates|, i) && candidates[i].0 == best.value;
      }
    }
  }

  class Matchmaker {
    var queue: Queue

    constructor ()
      ensures queue == EMPTY
    {
      queue := EMPTY;
    }

    /** The pairing script. `candidates` is the range the sorted set returns. */
    method TryPair(me: User, elo: int, now: int, candidates: seq<(User, int)>) returns (opponent: Option<User>)
      requires InBand(queue, me, elo, now, candidates)
      modifies this
      ensures Poll(old(queue), me, elo, now, opponent, queue)
      ensures match opponent
        case Some(other) =>
          && other in old(queue).elo && other != me
          && Accepts(old(queue), me, now, Gap(old(queue).elo[other], elo))
          && Accepts(old(queue), other, now, Gap(old(queue).elo[other], elo))
          && exists i: nat ::
              FirstNearest(old(queue), me, elo, now, candidates, |candidates|, i) && candidates[i].0 == other
        case None =>
          forall u :: u in old(queue).elo && u != me ==>
            || !Accepts(old(queue), me, now, Gap(old(queue).elo[u], elo))
            || !Accepts(old(queue), u, now, Gap(old(queue).elo[u], elo))
    {
      MutualIs(queue, me, elo, now);
      var best: Option<User>, bestGap := None, 0;
      for i := 0 to |candidates|
        invariant queue == old(queue) && BestOf(queue, me, elo, now, candidates, i, best, bestGap)
      {
        BestNext(queue, me, elo, now, candidates, i, best, bestGap);
        var (other, otherElo) := candidates[i];
        if other != me {
          var gap := Abs(otherElo - elo);
          if gap as real <= Band(queue, other, now) && (best.None? || gap < bestGap) {
            best, bestGap := Some(other), gap;
          }
        }
      }
      BestIsNearest(queue, me, elo, now, candidates, best, bestGap);
      if best.Some? {
        queue := Paired(queue, me, best.value);
        return best;
      }
      queue := Enqueued(queue, me, elo, now);
      return None;
    }

    /** Leaving sends two commands, one per key; other callers' scripts may run in between. */
    method LeaveQueue(me: User)
      modifies this
      ensures queue == OutOfQueue(old(queue), me)
    {
      queue := queue.(elo := queue.elo - {me});
    }

    method ForgetWait(me: User)
      modifies this
      ensures queue == WaitForgotten(old(queue), me)
    {
      queue := queue.(since := queue.since - {me});
    }

    /** Undisturbed, the two take the player out altogether. */
    method Leave(me: User)
      modifies this
      ensures queue == Queue(old(queue).elo - {me}, old(queue).since - {me})
    {
      LeaveQueue(me);
      ForgetWait(me);
    }
  }

  // ---- Over all runs ----

  datatype Step =
    | PollStep(me: User, elo: int, now: int, opponent: Option<User>)
    /** The two commands of a player leaving. */
    | Dequeue(me: User)
    | Forget(me: User)

  ghost predicate Next(q: Queue, step: Step, q': Queue) {
    match step
    case PollStep(me, elo, now, opponent) => Poll(q, me, elo, now, opponent, q')
    case Dequeue(me) => q' == OutOfQueue(q, me)
    case Forget(me) => q' == WaitForgotten(q, me)
  }

  ghost predicate Run(states: seq<Queue>, steps: seq<Step>) {
    && |states| == |steps| + 1 && states[0] == EMPTY
    && forall i :: 0 <= i < |steps| ==> Next(states[i], steps[i], states[i + 1])
  }

  /** How many times the player is between the two commands of leaving, after `n` steps. */
  function Leaving(steps: seq<Step>, n: nat, u: User): int
    requires n <= |steps|
  {
    if n == 0 then 0
    else Leaving(steps, n - 1, u) + LeavingBy(steps[n - 1], u)
  }

  function LeavingBy(step: Step, u: User): int {
    if step == Dequeue(u) then 1 else if step == Forget(u) then -1 else 0
  }

  // ---- Who waits, and since when ----

  predicate MakesWait(step: Step, u: User) { step.PollStep? && step.me == u && step.opponent.None? }

  /** The step concerns the player's place in the queue: it polls, is paired, or is dequeued. */
  predicate Concerns(step: Step, u: User) {
    step == Dequeue(u) || (step.PollStep? && (step.me == u || step.opponent == Some(u)))
  }

  /** The i-th step made the player wait, and after `n` steps nothing has concerned it since. */
  ghost predicate WaitingSince(steps: seq<Step>, i: nat, n: nat, u: User) {
    i < n <= |steps| && MakesWait(steps[i], u) && forall j :: i < j < n ==> !Concerns(steps[j], u)
  }

  lemma StepElsewhere(q: Queue, step: Step, q': Queue, u: User)
    requires Next(q, step, q') && !Concerns(step, u)
    ensures (u in q'.elo <==> u in q.elo) && (u in q.elo ==> q'.elo[u] == q.elo[u])
    ensures u in q'.since <==> u in q.since && step != Forget(u)
  {}

  lemma StepWaits(q: Queue, step: Step, q': Queue, u: User)
    requires Next(q, step, q') && MakesWait(step, u)
    ensures u in q'.elo && q'.elo[u] == step.elo && u in q'.since
  {}

  lemma StepLeaves(q: Queue, step: Step, q': Queue, u: User)
    requires Next(q, step, q') && Concerns(step, u) && !MakesWait(step, u)
    ensures u !in q'.elo && (step != Dequeue(u) ==> u !in q'.since)
  {}

  /** Since then it is in the queue under the rating it polled with, and it has a start time exactly
      if no second command of a leaving has run. */
  lemma {:induction false} WaitKept(states: seq<Queue>, steps: seq<Step>, i: nat, n: nat, u: User)
    requires Run(states, steps) && n < |states| && WaitingSince(steps, i, n, u)
    ensures u in states[n].elo && states[n].elo[u] == steps[i].elo
    ensures Leaving(steps, n, u) <= Leaving(steps, i, u)
    ensures u in states[n].since <==> Leaving(steps, n, u) == Leaving(steps, i, u)
    decreases n
  {
    if i == n - 1 {
      StepWaits(states[i], steps[i], states[n], u);
    } else {
      WaitKept(states, steps, i, n - 1, u);
      assert !Concerns(steps[n - 1], u);
      StepElsewhere(states[n - 1], steps[n - 1], states[n], u);
    }
  }

  /** Whoever is in the queue waits since some step. */
  lemma {:induction false} WaitFound(states: seq<Queue>, steps: seq<Step>, n: nat, u: User) returns (i: nat)
    requires Run(states, steps) && n < |states| && u in states[n].elo
    ensures WaitingSince(steps, i, n, u)
  {
    var q, step, q' := states[n - 1], steps[n - 1], states[n];
    if MakesWait(step, u) {
      i := n - 1;
    } else {
      if Concerns(step, u) {
        StepLeaves(q, step, q', u);
        assert false;
      }
      StepElsewhere(q, step, q', u);
      i := WaitFound(states, steps, n - 1, u);
    }
  }

  /** The player began to wait with a leaving under way whose second command has run since. */
  ghost predicate Overtaken(steps: seq<Step>, n: nat, u: User)
    requires n <= |steps|
  {
    exists i :: WaitingSince(steps, i, n, u) && Leaving(steps, n, u) < Leaving(steps, i, u)
  }

  /** Over every run, and whatever runs between the two commands of leaving: a player is in the
      queue without a start time exactly when one of its leavings overtook its last poll. */
  lemma {:induction false} StrandedIff(states: seq<Queue>, steps: seq<Step>, n: nat, u: User)
    requires Run(states, steps) && n < |states|
    ensures u in states[n].elo && u !in states[n].since <==> Overtaken(steps, n, u)
  {
    if u in states[n].elo {
      var i := WaitFound(states, steps, n, u);
      WaitKept(states, steps, i, n, u);
    }
    forall i | WaitingSince(steps, i, n, u)
      ensures u in states[n].elo && (u in states[n].since <==> Leaving(steps, n, u) == Leaving(steps, i, u))
      ensures Leaving(steps, n, u) <= Leaving(steps, i, u)
    {
      WaitKept(states, steps, i, n, u);
    }
  }

  /** A second command belongs to a first one sent before. */
  ghost predicate LeavesInOrder(steps: seq<Step>, u: User) {
    forall i :: 0 <= i < |steps| ==> InOrderAt(steps, i, u)
  }

  predicate InOrderAt(steps: seq<Step>, i: nat, u: User)
    requires i < |steps|
  {
    steps[i] == Forget(u) ==> Leaving(steps, i, u) > 0
  }

  /** A start time without a place in the queue is seen only while the player is leaving. */
  lemma {:induction false} LeftoverIsLeaving(states: seq<Queue>, steps: seq<Step>, n: nat, u: User)
    requires Run(states, steps) && n < |states| && LeavesInOrder(steps, u)
    ensures Leaving(steps, n, u) >= 0
    ensures u !in states[n].elo && u in states[n].since ==> Leaving(steps, n, u) > 0
  {
    if n > 0 {
      LeftoverIsLeaving(states, steps, n - 1, u);
      assert InOrderAt(steps, n - 1, u);
      var q, step, q' := states[n - 1], steps[n - 1], states[n];
      if MakesWait(step, u) {
        StepWaits(q, step, q', u);
      } else if Concerns(step, u) {
        StepLeaves(q, step, q', u);
      } else {
        StepElsewhere(q, step, q', u);
      }
    }
  }

  /** Whenever no leaving is under way, the player has a start time exactly when it waits, if and only
      if none of its leavings has overtaken its last poll. */
  lemma {:induction false} RunConsistent(states: seq<Queue>, steps: seq<Step>, n: nat, u: User)
    requires Run(states, steps) && n < |states| && LeavesInOrder(steps, u) && Leaving(steps, n, u) == 0
    ensures (u in states[n].elo <==> u in states[n].since) <==> !Overtaken(steps, n, u)
  {
    StrandedIff(states, steps, n, u);
    LeftoverIsLeaving(states, steps, n, u);
  }

  /** A player that polls between the two commands of its own leaving is left waiting without a
      start time. */
  lemma {:induction false} PollWhileLeaving(u: User)
    ensures var q0, q1 := Queue(map[u := 1200], map[u := 0]), Queue(map[], map[u := 0]);
      var steps := [PollStep(u, 1200, 0, None), Dequeue(u), PollStep(u, 1200, 9, None), Forget(u)];
      var states := [EMPTY, q0, q1, q0, Queue(map[u := 1200], map[])];
      Run(states, steps) && u in states[4].elo && u !in states[4].since && Leaving(steps, 4, u) == 0
  {
    var q0, q1, q2 := Queue(map[u := 1200], map[u := 0]), Queue(map[], map[u := 0]), Queue(map[u := 1200], map[]);
    var steps := [PollStep(u, 1200, 0, None), Dequeue(u), PollStep(u, 1200, 9, None), Forget(u)];
    assert Next(EMPTY, steps[0], q0);
    assert Next(q0, steps[1], q1);
    assert Next(q1, steps[2], q0);
    assert Next(q0, steps[3], q2);
    assert Leaving(steps, 1, u) == 0 && Leaving(steps, 2, u) == 1 && Leaving(steps, 3, u) == 1;
  }

  // ---- Who is paired ----

  predicate SameFor(q: Queue, q': Queue, u: User) {
    && (u in q.elo <==> u in q'.elo) && (u in q.since <==> u in q'.since)
    && (u in q.elo ==> q'.elo[u] == q.elo[u]) && (u in q.since ==> q'.since[u] == q.since[u])
  }

  /** A pairing is between two different players, within both their bands, at the least gap, and
      takes both off the queue; everyone else waits on as before. */
  lemma PairingIsFair(q: Queue, me: User, elo: int, now: int, other: User, q': Queue)
    requires Poll(q, me, elo, now, Some(other), q')
    ensures other != me && other in q.elo && Nearest(q, me, elo, now, other)
    ensures me !in q'.elo && other !in q'.elo && me !in q'.since && other !in q'.since
    ensures forall u :: u != me && u != other ==> SameFor(q, q', u)
  {}

  /** Whoever is not paired waits under the rating it polled with, from now on or still from when it began;
      nobody else is concerned. */
  lemma WaitBegins(q: Queue, me: User, elo: int, now: int, q': Queue)
    requires Poll(q, me, elo, now, None, q')
    ensures me in q'.elo && q'.elo[me] == elo
    ensures me in q'.since && q'.since[me] == if me in q.since then q.since[me] else now
    ensures forall u :: u != me ==> SameFor(q, q', u)
  {}

  /** When the player polled for the last time, `other` was waiting as it still is, and the two did
      not accept each other. */
  ghost predicate Refused(states: seq<Queue>, steps: seq<Step>, i: nat, n: nat, other: User)
    requires Run(states, steps) && i < n < |states| && steps[i].PollStep?
  {
    && other in states[i].elo && other in states[n].elo && states[i].elo[other] == states[n].elo[other]
    && !Mutual(states[i], steps[i].me, steps[i].elo, steps[i].now, other)
  }

  lemma {:induction false} LaterRefused(states: seq<Queue>, steps: seq<Step>, n: nat, u: User, i: nat, v: User, j: nat)
    requires Run(states, steps) && n < |states|
    requires WaitingSince(steps, i, n, u) && WaitingSince(steps, j, n, v) && i < j
    ensures Refused(states, steps, j, n, u)
  {
    assert WaitingSince(steps, i, j, u);
    WaitKept(states, steps, i, j, u);
    WaitKept(states, steps, i, n, u);
    assert Next(states[j], steps[j], states[j + 1]);
  }

  ghost predicate Apart(states: seq<Queue>, steps: seq<Step>, n: nat, u: User, i: nat, v: User, j: nat)
    requires Run(states, steps) && n < |states|
  {
    && WaitingSince(steps, i, n, u) && WaitingSince(steps, j, n, v)
    && ((i < j && Refused(states, steps, j, n, u)) || (j < i && Refused(states, steps, i, n, v)))
  }

  /** No two players wait who could have been paired: at the later one's last poll, the other was
      already waiting at its present rating, and one of them did not accept the other. */
  lemma {:induction false} WaitersApart(states: seq<Queue>, steps: seq<Step>, n: nat, u: User, v: User)
    requires Run(states, steps) && n < |states| && u in states[n].elo && v in states[n].elo && u != v
    ensures exists i: nat, j: nat :: Apart(states, steps, n, u, i, v, j)
  {
    var i := WaitFound(states, steps, n, u);
    var j := WaitFound(states, steps, n, v);
    assert i < j || j < i;
    if i < j {
      LaterRefused(states, steps, n, u, i, v, j);
    } else {
      LaterRefused(states, steps, n, v, j, u, i);
    }
    assert Apart(states, steps, n, u, i, v, j);
  }

  /** After fourteen seconds a player's band is as wide as it gets. */
  lemma FullBand(q: Queue, u: User, now: int)
    requires u in q.since && now - q.since[u] >= 14000
    ensures Band(q, u, now) == 800.0
  {}

  /** Two players within 800 rating points who have both waited fourteen seconds cannot both be
      waiting once either polls again. */
  lemma NobodyWaitsForever(states: seq<Queue>, steps: seq<Step>, n: nat, other: User)
    requires Run(states, steps) && n < |steps| && steps[n].PollStep?
    requires var q, me, now := states[n], steps[n].me, steps[n].now;
      && me in q.elo && other in q.elo && other != me && Gap(q.elo[other], steps[n].elo) <= 800
      && me in q.since && other in q.since && now - q.since[me] >= 14000 && now - q.since[other] >= 14000
    ensures steps[n].opponent.Some? && steps[n].me !in states[n + 1].elo
  {
    var q, me, now := states[n], steps[n].me, steps[n].now;
    assert Next(states[n], steps[n], states[n + 1]);
    FullBand(q, me, now);
    FullBand(q, other, now);
    assert Mutual(q, me, steps[n].elo, now, other);
  }
}
