/**
 A pipeline and a sink exchange messages over two channels: a bounded one forward, and one for
 contraflow back. The source code argues in comments that the contraflow channel must be unbounded
 and never grows without limit. This module makes both exact: how many messages can wait on it, and
 below which capacity the pair can deadlock.

 Only numbers matter here, so queues are counters. The sink takes a message out of its inbox before
 it creates contraflow for it, and it creates that contraflow piece by piece.
 */
module Counterflow {
  import opened Wrappers

  /**
   `queue`: capacity of the sink's inbox. `fanout`: most sends one forward message causes.
   `insights`: most contraflow messages one handled message causes. `back`: capacity of the
   contraflow channel, `None` for the unbounded channel the runtime uses.
   */
  datatype Limits = Limits(queue: nat, fanout: nat, insights: nat, back: Option<nat>)

  /** `left`: contraflow the sink still has to send for the message it is handling. */
  datatype State = State(forward: nat, pending: nat, queued: nat, busy: bool, left: nat, counter: nat)

  datatype Step =
    | Poll(sends: nat)      // the pipeline takes a forward message
    | Return                // the pipeline takes a contraflow message
    | Push                  // the pipeline makes one of its sends
    | Take(replies: nat)    // the sink takes a message
    | Reply                 // the sink sends one contraflow message
    | Done                  // the sink is through with its message
    | Arrive                // a forward message arrives from upstream

  predicate Room(l: Limits, s: State) {
    l.back.None? || s.counter < l.back.value
  }

  /** Contraflow has priority: forward messages are taken only when none waits. */
  predicate Enabled(l: Limits, s: State, step: Step) {
    match step
    case Poll(sends) => s.pending == 0 && s.counter == 0 && s.forward > 0 && sends <= l.fanout
    case Return => s.pending == 0 && s.counter > 0
    case Push => s.pending > 0 && s.queued < l.queue
    case Take(replies) => !s.busy && s.queued > 0 && replies <= l.insights
    case Reply => s.busy && s.left > 0 && Room(l, s)
    case Done => s.busy && s.left == 0
    case Arrive => true
  }

  function Apply(l: Limits, s: State, step: Step): State
    requires Enabled(l, s, step)
  {
    match step
    case Poll(sends) => s.(forward := s.forward - 1, pending := sends)
    case Return => s.(counter := s.counter - 1)
    case Push => s.(pending := s.pending - 1, queued := s.queued + 1)
    case Take(replies) => s.(queued := s.queued - 1, busy := true, left := replies)
    case Reply => s.(left := s.left - 1, counter := s.counter + 1)
    case Done => s.(busy := false)
    case Arrive => s.(forward := s.forward + 1)
  }

  const START := State(0, 0, 0, false, 0, 0)

  /** The steps can be taken one after the other, and lead from `s` to `t`. */
  ghost predicate Leads(l: Limits, s: State, steps: seq<Step>, t: State)
    decreases |steps|
  {
    if steps == [] then s == t
    else Enabled(l, s, steps[0]) && Leads(l, Apply(l, s, steps[0]), steps[1..], t)
  }

  ghost predicate Reaches(l: Limits, s: State, t: State) {
    exists steps :: Leads(l, s, steps, t)
  }

  // ----- the bound

  /** Contraflow that waits or may still arise from messages on their way to the sink. */
  function Potential(l: Limits, s: State): nat {
    s.counter + s.left + l.insights * (s.queued + s.pending)
  }

  function Bound(l: Limits): nat {
    l.insights * (l.queue + 1 + l.fanout)
  }

  ghost predicate Bounded(l: Limits, s: State) {
    && s.pending <= l.fanout
    && s.queued <= l.queue
    && s.left <= l.insights
    && (!s.busy ==> s.left == 0)
    && Potential(l, s) <= Bound(l)
  }

  lemma Distribute(a: int, b: int, c: int)
    ensures a * (b + c) == a * b + a * c
  {
  }

  lemma Monotone(a: nat, b: nat, c: nat)
    requires b <= c
    ensures a * b <= a * c
  {
    Distribute(a, b, c - b);
  }

  lemma StepBounded(l: Limits, s: State, step: Step)
    requires Bounded(l, s) && Enabled(l, s, step)
    ensures Bounded(l, Apply(l, s, step))
  {
    match step
    case Poll(sends) =>
      Monotone(l.insights, s.queued + sends, l.queue + l.fanout);
      Distribute(l.insights, l.queue + l.fanout, 1);
      assert l.queue + 1 + l.fanout == l.queue + l.fanout + 1;
    case Take(replies) =>
      Distribute(l.insights, s.queued - 1 + s.pending, 1);
      assert s.queued - 1 + s.pending + 1 == s.queued + s.pending;
    case _ =>
  }

  lemma {:induction false} AlwaysBounded(l: Limits, s: State, steps: seq<Step>, t: State)
    requires Bounded(l, s) && Leads(l, s, steps, t)
    ensures Bounded(l, t)
    decreases |steps|
  {
    if steps != [] {
      StepBounded(l, s, steps[0]);
      AlwaysBounded(l, Apply(l, s, steps[0]), steps[1..], t);
    }
  }

  /** In every reachable state, at most `insights * (queue + 1 + fanout)` contraflow messages wait. */
  lemma CounterflowBounded(l: Limits, t: State)
    requires Reaches(l, START, t)
    ensures t.counter <= Bound(l)
  {
    var steps :| Leads(l, START, steps, t);
    AlwaysBounded(l, START, steps, t);
  }

  // ----- building runs

  lemma {:induction false} LeadsAppend(l: Limits, r: State, xs: seq<Step>, s: State, ys: seq<Step>, t: State)
    requires Leads(l, r, xs, s) && Leads(l, s, ys, t)
    ensures Leads(l, r, xs + ys, t)
    decreases |xs|
  {
    if xs == [] {
      assert xs + ys == ys;
    } else {
      LeadsAppend(l, Apply(l, r, xs[0]), xs[1..], s, ys, t);
      assert (xs + ys)[1..] == xs[1..] + ys;
    }
  }

  lemma Then(l: Limits, r: State, s: State, t: State)
    requires Reaches(l, r, s) && Reaches(l, s, t)
    ensures Reaches(l, r, t)
  {
    var xs :| Leads(l, r, xs, s);
    var ys :| Leads(l, s, ys, t);
    LeadsAppend(l, r, xs, s, ys, t);
  }

  lemma Stay(l: Limits, s: State)
    ensures Reaches(l, s, s)
  {
    assert Leads(l, s, [], s);
  }

  lemma ThenStep(l: Limits, r: State, s: State, step: Step)
    requires Reaches(l, r, s) && Enabled(l, s, step)
    ensures Reaches(l, r, Apply(l, s, step))
  {
    var t := Apply(l, s, step);
    assert Leads(l, s, [step], t) by {
      assert [step][1..] == [];
      assert Leads(l, t, [], t);
    }
    Then(l, r, s, t);
  }

  lemma {:induction false} ManyArrive(l: Limits, n: nat)
    ensures Reaches(l, START, START.(forward := n))
  {
    if n == 0 {
      Stay(l, START);
    } else {
      ManyArrive(l, n - 1);
      ThenStep(l, START, START.(forward := n - 1), Arrive);
    }
  }

  /** The sink sends `n` of the contraflow messages it owes. */
  lemma {:induction false} ManyReplies(l: Limits, r: State, s: State, n: nat)
    requires Reaches(l, r, s) && s.busy && n <= s.left
    requires l.back.None? || s.counter + n <= l.back.value
    ensures Reaches(l, r, s.(left := s.left - n, counter := s.counter + n))
  {
    if n > 0 {
      ManyReplies(l, r, s, n - 1);
      ThenStep(l, r, s.(left := s.left - (n - 1), counter := s.counter + (n - 1)), Reply);
    }
  }

  /** The sink is busy and owes all it can, its inbox is full, nothing waits on the contraflow channel. */
  function Crammed(l: Limits, queued: nat, forward: nat): State {
    State(forward, 0, queued, true, l.insights, 0)
  }

  lemma {:induction false} Cram(l: Limits, queued: nat, forward: nat)
    requires l.queue > 0 && l.fanout > 0 && queued <= l.queue
    ensures Reaches(l, START, Crammed(l, queued, forward))
    decreases queued
  {
    if queued == 0 {
      var s := START.(forward := forward + 1);
      ManyArrive(l, forward + 1);
      ThenStep(l, START, s, Poll(1));
      ThenStep(l, START, s.(forward := forward, pending := 1), Push);
      ThenStep(l, START, s.(forward := forward, queued := 1), Take(l.insights));
    } else {
      Cram(l, queued - 1, forward + 1);
      var s := Crammed(l, queued - 1, forward + 1);
      ThenStep(l, START, s, Poll(1));
      ThenStep(l, START, s.(forward := forward, pending := 1), Push);
    }
  }

  // ----- the bound is exact

  /** From here the sink can work through its inbox and the pending sends without a pause of the pipeline. */
  lemma {:induction false} Flood(l: Limits, r: State, s: State) returns (t: State)
    requires Reaches(l, r, s) && s.busy && s.left == l.insights && l.back.None? && l.queue > 0 && s.queued <= l.queue
    ensures Reaches(l, r, t) && t.counter == s.counter + l.insights * (1 + s.queued + s.pending)
    decreases s.queued + s.pending
  {
    ManyReplies(l, r, s, l.insights);
    t := s.(left := 0, counter := s.counter + l.insights);
    if s.queued + s.pending > 0 {
      ThenStep(l, r, t, Done);
      t := t.(busy := false);
      if s.queued == 0 {
        ThenStep(l, r, t, Push);
        t := t.(pending := t.pending - 1, queued := 1);
      }
      ThenStep(l, r, t, Take(l.insights));
      t := t.(queued := t.queued - 1, busy := true, left := l.insights);
      Distribute(l.insights, 1, 1 + t.queued + t.pending);
      t := Flood(l, r, t);
    }
  }

  /** The bound is reached, whatever the limits: the unbounded channel can really hold that many. */
  lemma BoundIsReached(l: Limits) returns (t: State)
    requires l.queue > 0 && l.fanout > 0 && l.back.None?
    ensures Reaches(l, START, t) && t.counter == Bound(l)
  {
    Cram(l, l.queue, 1);
    var s := Crammed(l, l.queue, 1);
    ThenStep(l, START, s, Poll(l.fanout));
    t := Flood(l, START, s.(forward := 0, pending := l.fanout));
    assert 1 + l.queue + l.fanout == l.queue + 1 + l.fanout;
  }

  // ----- deadlock

  predicate Idle(s: State) {
    s == START
  }

  /** No step is possible without help from upstream. */
  ghost predicate Stuck(l: Limits, s: State) {
    forall step :: Enabled(l, s, step) ==> step == Arrive
  }

  /** Work is left, and neither the pipeline nor the sink can go on. */
  ghost predicate Deadlocked(l: Limits, s: State) {
    Stuck(l, s) && !Idle(s)
  }

  /** What a deadlock looks like: both channels full, each task waiting to send on one of them. */
  lemma DeadlockShape(l: Limits, s: State)
    requires l.queue > 0 && s.queued <= l.queue && (!s.busy ==> s.left == 0)
    ensures Deadlocked(l, s) <==>
              || (s.pending > 0 && s.queued == l.queue && s.busy && s.left > 0 && !Room(l, s))
              || (s.pending == 0 && s.counter == 0 && s.forward == 0 && s.busy && s.left > 0 && !Room(l, s))
  {
    if Stuck(l, s) && !Idle(s) {
      assert !Enabled(l, s, Poll(0)) && !Enabled(l, s, Return) && !Enabled(l, s, Push);
      assert !Enabled(l, s, Take(0)) && !Enabled(l, s, Reply) && !Enabled(l, s, Done);
    }
  }

  /** With the unbounded contraflow channel there is no deadlock, in any state. */
  lemma UnboundedNeverDeadlocks(l: Limits, t: State)
    requires l.back.None? && l.queue > 0 && Reaches(l, START, t)
    ensures !Deadlocked(l, t)
  {
    var steps :| Leads(l, START, steps, t);
    AlwaysBounded(l, START, steps, t);
    DeadlockShape(l, t);
  }

  lemma WideEnough(l: Limits, t: State)
    requires l.queue > 0 && l.fanout > 0 && l.insights > 0
    requires l.back.Some? && l.back.value >= l.insights * l.fanout && Bounded(l, t)
    ensures !Deadlocked(l, t)
  {
    DeadlockShape(l, t);
    if t.pending > 0 && t.queued == l.queue && t.busy && t.left > 0 && !Room(l, t) {
      Monotone(l.insights, l.queue + 1, t.queued + t.pending);
      Distribute(l.insights, l.queue + 1, l.fanout);
    }
    Monotone(l.insights, 1, l.fanout);
  }

  /** The sink answers `rounds` messages in full while the pipeline keeps its inbox filled. */
  lemma {:induction false} Rounds(l: Limits, rounds: nat)
    requires l.queue > 0 && l.fanout > 0 && rounds < l.fanout
    requires l.back.Some? && l.insights * rounds <= l.back.value
    ensures Reaches(l, START, State(0, l.fanout - rounds, l.queue, true, l.insights, l.insights * rounds))
  {
    if rounds == 0 {
      Cram(l, l.queue, 1);
      ThenStep(l, START, Crammed(l, l.queue, 1), Poll(l.fanout));
    } else {
      var n, done := l.insights, l.insights * (rounds - 1);
      Distribute(n, rounds - 1, 1);
      Rounds(l, rounds - 1);
      var s := State(0, l.fanout - rounds + 1, l.queue, true, n, done);
      ManyReplies(l, START, s, n);
      ThenStep(l, START, s.(left := 0, counter := done + n), Done);
      ThenStep(l, START, s.(left := 0, counter := done + n, busy := false), Take(n));
      ThenStep(l, START, s.(counter := done + n, queued := l.queue - 1), Push);
    }
  }

  lemma Divide(c: nat, n: nat, f: nat) returns (a: nat, b: nat)
    requires n > 0 && c < n * f
    ensures c == n * a + b && b < n && a < f
  {
    a, b := 0, c;
    while b >= n
      invariant c == n * a + b
    {
      Distribute(n, a, 1);
      a, b := a + 1, b - n;
    }
    if a >= f {
      Monotone(n, f, a);
    }
  }

  lemma TooNarrow(l: Limits) returns (t: State)
    requires l.queue > 0 && l.fanout > 0 && l.insights > 0
    requires l.back.Some? && l.back.value < l.insights * l.fanout
    ensures Reaches(l, START, t) && Deadlocked(l, t)
  {
    var c := l.back.value;
    var a, b := Divide(c, l.insights, l.fanout);
    Rounds(l, a);
    var s := State(0, l.fanout - a, l.queue, true, l.insights, l.insights * a);
    ManyReplies(l, START, s, b);
    t := s.(left := l.insights - b, counter := c);
    DeadlockShape(l, t);
  }

  /**
   A bounded contraflow channel leads to a deadlock in some run if and only if its capacity is below
   `insights * fanout`. Both numbers depend on user-defined pipelines, so no fixed capacity is safe.
   */
  lemma DeadlockIff(l: Limits)
    requires l.queue > 0 && l.fanout > 0 && l.insights > 0 && l.back.Some?
    ensures (exists t :: Reaches(l, START, t) && Deadlocked(l, t)) <==> l.back.value < l.insights * l.fanout
  {
    if l.back.value < l.insights * l.fanout {
      var t := TooNarrow(l);
    } else {
      forall t | Reaches(l, START, t)
        ensures !Deadlocked(l, t)
      {
        var steps :| Leads(l, START, steps, t);
        AlwaysBounded(l, START, steps, t);
        WideEnough(l, t);
      }
    }
  }

  // ----- everything drains

  function SendWeight(l: Limits): nat {
    2 * l.insights + 3
  }

  /** Weighs each message by the steps it can still cause. */
  function Weight(l: Limits, s: State): nat {
    s.forward * (l.fanout * SendWeight(l) + 1) + s.pending * SendWeight(l) + s.queued * (SendWeight(l) - 1)
    + (if s.busy then 1 else 0) + 2 * s.left + s.counter
  }

  lemma WeightFalls(l: Limits, s: State, step: Step)
    requires Enabled(l, s, step) && step != Arrive && (!s.busy ==> s.left == 0)
    ensures Weight(l, Apply(l, s, step)) < Weight(l, s)
  {
    var u := SendWeight(l);
    match step
    case Poll(sends) =>
      Monotone(u, sends, l.fanout);
      Distribute(l.fanout * u + 1, s.forward - 1, 1);
      assert (s.forward - 1 + 1) * (l.fanout * u + 1) == (s.forward - 1) * (l.fanout * u + 1) + (l.fanout * u + 1);
    case Push =>
      Distribute(u, s.pending - 1, 1);
      Distribute(u - 1, s.queued, 1);
    case Take(replies) =>
      Distribute(u - 1, s.queued - 1, 1);
    case _ =>
  }

  /** Without new input, every run of the pair is finite: the weight of its first state bounds its length. */
  lemma {:induction false} RunsEnd(l: Limits, s: State, steps: seq<Step>, t: State)
    requires Leads(l, s, steps, t) && Arrive !in steps && Bounded(l, s)
    ensures |steps| + Weight(l, t) <= Weight(l, s)
    decreases |steps|
  {
    if steps != [] {
      assert steps[0] in steps && Arrive !in steps[1..];
      WeightFalls(l, s, steps[0]);
      StepBounded(l, s, steps[0]);
      RunsEnd(l, Apply(l, s, steps[0]), steps[1..], t);
    }
  }

  /** And where such a run ends, nothing is left anywhere. */
  lemma EndsEmpty(l: Limits, t: State)
    requires l.back.None? && l.queue > 0 && Reaches(l, START, t) && Stuck(l, t)
    ensures t == START
  {
    UnboundedNeverDeadlocks(l, t);
  }
}
