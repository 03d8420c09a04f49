/**
 The control loop of a flow: which connectors a request reaches, and how answers are counted.
 */
module FlowLoop {
  import opened Protocol

  datatype Phase = Initializing | Running | Paused | Draining | Failed | Stopped

  datatype Link = ConnectorToPipeline(from: Uid) | PipelineToConnector(to: Uid) | PipelineToPipeline

  // ----- the three kinds of connectors

  function SinkConnectors(links: seq<Link>): set<Uid> {
    set i | 0 <= i < |links| && links[i].PipelineToConnector? :: links[i].to
  }

  function SourceConnectors(links: seq<Link>): set<Uid> {
    set i | 0 <= i < |links| && links[i].ConnectorToPipeline? :: links[i].from
  }

  function StartPoints(links: seq<Link>, connectors: set<Uid>): set<Uid> {
    (SourceConnectors(links) - SinkConnectors(links)) * connectors
  }

  function MixedPickles(links: seq<Link>, connectors: set<Uid>): set<Uid> {
    SinkConnectors(links) * SourceConnectors(links) * connectors
  }

  function EndPoints(links: seq<Link>, connectors: set<Uid>): set<Uid> {
    (SinkConnectors(links) - SourceConnectors(links)) * connectors
  }

  ghost predicate Linked(links: seq<Link>, c: Uid) {
    ConnectorToPipeline(c) in links || PipelineToConnector(c) in links
  }

  /** Every connector that occurs in a link is in exactly one of the three kinds; no other is in any. */
  lemma Partition(links: seq<Link>, connectors: set<Uid>)
    ensures var (a, b, c) := (StartPoints(links, connectors), MixedPickles(links, connectors), EndPoints(links, connectors));
            && a !! b !! c
            && (forall x :: x in a + b + c <==> x in connectors && Linked(links, x))
  {
    var a, b, c := StartPoints(links, connectors), MixedPickles(links, connectors), EndPoints(links, connectors);
    forall x
      ensures x in a + b + c <==> x in connectors && Linked(links, x)
    {
      if ConnectorToPipeline(x) in links {
        var i :| 0 <= i < |links| && links[i] == ConnectorToPipeline(x);
        assert links[i].from in SourceConnectors(links);
      }
      if PipelineToConnector(x) in links {
        var i :| 0 <= i < |links| && links[i] == PipelineToConnector(x);
        assert links[i].to in SinkConnectors(links);
      }
    }
  }

  // ----- counting

  datatype Flow = Flow(
    phase: Phase,
    expectedDrains: nat,
    drainSenders: seq<nat>)

  function Minus1(n: nat): nat {
    if n == 0 then 0 else n - 1
  }

  /** One drain request; `accepted` is the number of connectors that took it. */
  function OnDrain(f: Flow, sender: nat, hasConnectors: bool, accepted: nat): (Flow, seq<nat>) {
    if f.phase == Draining then (f, [])
    else if !hasConnectors then (f.(phase := Draining), [sender])
    else (f.(phase := Draining, drainSenders := f.drainSenders + [sender], expectedDrains := f.expectedDrains + accepted), [])
  }

  /** One connector answered; the second component is the senders that are told now. */
  function OnDrainResult(f: Flow): (Flow, seq<nat>) {
    var left := Minus1(f.expectedDrains);
    if left == 0 && f.expectedDrains > 0 then (f.(expectedDrains := 0, drainSenders := []), f.drainSenders)
    else (f.(expectedDrains := left), [])
  }

  ghost predicate NoRepeats(xs: seq<Uid>) {
    forall i, j :: 0 <= i < j < |xs| ==> xs[i] != xs[j]
  }

  function Elements(xs: seq<Uid>): set<Uid> {
    set x | x in xs
  }

  /** `xs` lists the members of `s`, each once. */
  ghost predicate Lists(xs: seq<Uid>, s: set<Uid>) {
    NoRepeats(xs) && Elements(xs) == s
  }

  lemma ListsMore(xs: seq<Uid>, s: set<Uid>, ys: seq<Uid>, t: set<Uid>)
    requires Lists(xs, s) && Lists(ys, t) && s !! t
    ensures Lists(xs + ys, s + t)
  {
    var all := xs + ys;
    forall i, j | 0 <= i < j < |all|
      ensures all[i] != all[j]
    {
      if i < |xs| <= j {
        assert all[i] in Elements(xs) && all[j] in Elements(ys);
      }
    }
    assert forall x :: x in all <==> x in xs || x in ys;
  }

  /** The alive ones of `all`, in order. */
  function Reachable(all: seq<Uid>, alive: set<Uid>): seq<Uid> {
    if all == [] then []
    else if all[0] in alive then [all[0]] + Reachable(all[1..], alive)
    else Reachable(all[1..], alive)
  }

  lemma {:induction false} ReachableNext(all: seq<Uid>, alive: set<Uid>, i: nat)
    requires i < |all|
    ensures Reachable(all[..i + 1], alive) == Reachable(all[..i], alive) + if all[i] in alive then [all[i]] else []
  {
    if i > 0 {
      ReachableNext(all[1..], alive, i - 1);
      assert all[1..][..i] == all[..i + 1][1..] && all[1..][..i - 1] == all[..i][1..];
    } else {
      assert all[..1][1..] == [] && all[..0] == [];
    }
  }

  lemma {:induction false} ReachableLists(all: seq<Uid>, s: set<Uid>, alive: set<Uid>)
    requires Lists(all, s)
    ensures Lists(Reachable(all, alive), s * alive)
    decreases |all|
  {
    if all != [] {
      var x, rest := all[0], all[1..];
      assert all == [x] + rest;
      assert x !in rest;
      assert Lists(rest, s - {x}) by {
        assert forall y :: y in all <==> y == x || y in rest;
      }
      ReachableLists(rest, s - {x}, alive);
      if x in alive {
        assert Lists([x], {x});
        ListsMore([x], {x}, Reachable(rest, alive), (s - {x}) * alive);
        assert {x} + (s - {x}) * alive == s * alive;
      } else {
        assert (s - {x}) * alive == s * alive;
      }
    }
  }

  /** Whom a drain request is sent to. */
  ghost function ToAsk(links: seq<Link>, connectors: set<Uid>, alive: set<Uid>): set<Uid> {
    set x | x in connectors && Linked(links, x) && x in alive
  }

  /** The members of a set, in any order. */
  method Collect(s: set<Uid>) returns (xs: seq<Uid>)
    ensures Lists(xs, s)
  {
    xs := [];
    var left := s;
    while left != {}
      invariant left <= s && Lists(xs, s - left)
      decreases left
    {
      var x :| x in left;
      assert Lists([x], {x});
      ListsMore(xs, s - left, [x], {x});
      assert s - left + {x} == s - (left - {x});
      xs, left := xs + [x], left - {x};
    }
    assert s - {} == s;
  }

  method Ends(links: seq<Link>) returns (sources: set<Uid>, sinks: set<Uid>)
    ensures sources == SourceConnectors(links) && sinks == SinkConnectors(links)
  {
    sources, sinks := {}, {};
    for i := 0 to |links|
      invariant sources == (set j | 0 <= j < i && links[j].ConnectorToPipeline? :: links[j].from)
      invariant sinks == (set j | 0 <= j < i && links[j].PipelineToConnector? :: links[j].to)
    {
      match links[i]
      case ConnectorToPipeline(from) => sources := sources + {from};
      case PipelineToConnector(to) => sinks := sinks + {to};
      case PipelineToPipeline =>
    }
  }

  class FlowTask {
    ghost const links: seq<Link>
    const connectors: set<Uid>
    const startPoints: seq<Uid>
    const mixedPickles: seq<Uid>
    const endPoints: seq<Uid>
    var phase: Phase
    var expectedDrains: nat
    var drainSenders: seq<nat>

    /** The three lists hold the connectors of each kind, each once. */
    ghost predicate Valid() {
      && Lists(startPoints, StartPoints(links, connectors))
      && Lists(mixedPickles, MixedPickles(links, connectors))
      && Lists(endPoints, EndPoints(links, connectors))
    }

    ghost function View(): Flow
      reads this
    {
      Flow(phase, expectedDrains, drainSenders)
    }

    constructor (links: seq<Link>, connectors: set<Uid>)
      ensures Valid() && this.links == links && this.connectors == connectors
      ensures View() == Flow(Initializing, 0, [])
    {
      var sources, sinks := Ends(links);
      var first := Collect((sources - sinks) * connectors);
      var mixed := Collect(sinks * sources * connectors);
      var last := Collect((sinks - sources) * connectors);
      this.links, this.connectors := links, connectors;
      startPoints, mixedPickles, endPoints := first, mixed, last;
      phase, expectedDrains, drainSenders := Initializing, 0, [];
    }

    lemma AllListed()
      requires Valid()
      ensures Lists(startPoints + mixedPickles + endPoints,
                    StartPoints(links, connectors) + MixedPickles(links, connectors) + EndPoints(links, connectors))
    {
      var a, b, c := StartPoints(links, connectors), MixedPickles(links, connectors), EndPoints(links, connectors);
      Partition(links, connectors);
      ListsMore(startPoints, a, mixedPickles, b);
      ListsMore(startPoints + mixedPickles, a + b, endPoints, c);
    }

    /**
     `alive` are the connectors whose channel still takes messages; `asked` is whom the flow asked, in
     order: each of them that is linked, once.
     */
    method HandleDrain(sender: nat, alive: set<Uid>) returns (asked: seq<Uid>, told: seq<nat>)
      requires Valid()
      modifies this
      ensures Lists(asked, if old(phase) == Draining then {} else ToAsk(links, connectors, alive))
      ensures (View(), told) == OnDrain(old(View()), sender, connectors != {}, |ToAsk(links, connectors, alive)|)
    {
      asked, told := [], [];
      if phase == Draining {
        return;
      }
      phase := Draining;
      if connectors == {} {
        told := [sender];
      } else {
        drainSenders := drainSenders + [sender];
        var all := startPoints + mixedPickles + endPoints;
        for i := 0 to |all|
          invariant asked == Reachable(all[..i], alive)
          invariant View() == old(View()).(phase := Draining, drainSenders := old(drainSenders) + [sender],
                                           expectedDrains := old(expectedDrains) + |asked|)
        {
          ReachableNext(all, alive, i);
          if all[i] in alive {
            asked := asked + [all[i]];
            expectedDrains := expectedDrains + 1;
          }
        }
        assert all[..|all|] == all;
        AskedAreListed(alive);
      }
    }

    lemma AskedAreListed(alive: set<Uid>)
      requires Valid()
      ensures var asked := Reachable(startPoints + mixedPickles + endPoints, alive);
              Lists(asked, ToAsk(links, connectors, alive)) && |asked| == |ToAsk(links, connectors, alive)|
    {
      var a, b, c := StartPoints(links, connectors), MixedPickles(links, connectors), EndPoints(links, connectors);
      var all := startPoints + mixedPickles + endPoints;
      AllListed();
      ReachableLists(all, a + b + c, alive);
      Partition(links, connectors);
      assert (a + b + c) * alive == ToAsk(links, connectors, alive);
      ElementsCount(Reachable(all, alive));
    }

    method HandleDrainResult() returns (told: seq<nat>)
      modifies this
      ensures (View(), told) == OnDrainResult(old(View()))
    {
      told := [];
      var before := expectedDrains;
      expectedDrains := if expectedDrains == 0 then 0 else expectedDrains - 1;
      if expectedDrains == 0 && before > 0 {
        for i := 0 to |drainSenders|
          invariant told == drainSenders[..i]
          invariant View() == old(View()).(expectedDrains := 0)
        {
          told := told + [drainSenders[i]];
        }
        assert told == old(drainSenders);
        drainSenders := [];
      }
    }
  }

  // ----- what an answer to the senders means

  /** The flow after `n` connector answers. */
  function AfterResults(f: Flow, n: nat): Flow {
    if n == 0 then f else OnDrainResult(AfterResults(f, n - 1)).0
  }

  /** Who is told at the `n`-th connector answer. */
  function ToldAt(f: Flow, n: nat): seq<nat>
    requires n > 0
  {
    OnDrainResult(AfterResults(f, n - 1)).1
  }

  /** The senders are told exactly at the answer that completes the expected number. */
  lemma {:induction false} ToldAtLast(f: Flow, n: nat)
    requires f.expectedDrains > 0
    ensures AfterResults(f, n) == (if n < f.expectedDrains then f.(expectedDrains := f.expectedDrains - n)
                                   else f.(expectedDrains := 0, drainSenders := []))
    ensures n > 0 ==> ToldAt(f, n) == if n == f.expectedDrains then f.drainSenders else []
  {
    if n > 0 {
      ToldAtLast(f, n - 1);
    }
  }

  // ----- every sender is told once

  /** A request, an answer of a connector, or something else that changes the state of the flow. */
  datatype Input = Request(sender: nat, hasConnectors: bool, accepted: nat) | Answered | Becomes(phase: Phase)

  function OnInput(f: Flow, input: Input): (Flow, seq<nat>) {
    match input
    case Request(sender, hasConnectors, accepted) => OnDrain(f, sender, hasConnectors, accepted)
    case Answered => OnDrainResult(f)
    case Becomes(phase) => (f.(phase := phase), [])
  }

  function AfterAll(f: Flow, inputs: seq<Input>): Flow
    decreases |inputs|
  {
    if inputs == [] then f else AfterAll(OnInput(f, inputs[0]).0, inputs[1..])
  }

  function ToldInAll(f: Flow, inputs: seq<Input>): seq<nat>
    decreases |inputs|
  {
    if inputs == [] then [] else OnInput(f, inputs[0]).1 + ToldInAll(OnInput(f, inputs[0]).0, inputs[1..])
  }

  /** A request that is not ignored: it does not come while the flow drains. */
  function HeardNow(f: Flow, input: Input): seq<nat> {
    if input.Request? && f.phase != Draining then [input.sender] else []
  }

  function Heard(f: Flow, inputs: seq<Input>): seq<nat>
    decreases |inputs|
  {
    if inputs == [] then [] else HeardNow(f, inputs[0]) + Heard(OnInput(f, inputs[0]).0, inputs[1..])
  }

  lemma SendersStep(f: Flow, input: Input, x: nat)
    ensures var (g, told) := OnInput(f, input);
            multiset(told)[x] + multiset(g.drainSenders)[x] == multiset(f.drainSenders)[x] + multiset(HeardNow(f, input))[x]
  {
  }

  lemma Both(a: seq<nat>, b: seq<nat>, x: nat)
    ensures multiset(a + b)[x] == multiset(a)[x] + multiset(b)[x]
  {
  }

  /** In every run a sender was told, or still waits, as often in all as it was heard. */
  lemma {:induction false} SendersAreKept(f: Flow, inputs: seq<Input>, x: nat)
    ensures multiset(ToldInAll(f, inputs))[x] + multiset(AfterAll(f, inputs).drainSenders)[x]
            == multiset(f.drainSenders)[x] + multiset(Heard(f, inputs))[x]
    decreases |inputs|
  {
    if inputs != [] {
      var (g, told) := OnInput(f, inputs[0]);
      SendersStep(f, inputs[0], x);
      SendersAreKept(g, inputs[1..], x);
      Both(told, ToldInAll(g, inputs[1..]), x);
      Both(HeardNow(f, inputs[0]), Heard(g, inputs[1..]), x);
    }
  }

  /** While nothing else changes the state of the flow, it hears one request and ignores all others. */
  lemma {:induction false} OneAtATime(f: Flow, inputs: seq<Input>)
    requires f.phase == Draining && forall i :: 0 <= i < |inputs| ==> !inputs[i].Becomes?
    ensures AfterAll(f, inputs).phase == Draining && Heard(f, inputs) == []
    decreases |inputs|
  {
    if inputs != [] {
      OneAtATime(OnInput(f, inputs[0]).0, inputs[1..]);
    }
  }

  /** A request makes the flow drain, whether it is heard or not. */
  lemma DrainsFromThenOn(f: Flow, inputs: seq<Input>)
    requires inputs != [] && inputs[0].Request? && forall i :: 0 <= i < |inputs| ==> !inputs[i].Becomes?
    ensures AfterAll(f, inputs).phase == Draining && Heard(f, inputs) == if f.phase == Draining then [] else [inputs[0].sender]
  {
    OneAtATime(OnInput(f, inputs[0]).0, inputs[1..]);
    assert [inputs[0].sender] + [] == [inputs[0].sender];
  }

  /** How many connectors were asked by requests that were not ignored. */
  function AskedInAll(f: Flow, inputs: seq<Input>): nat
    decreases |inputs|
  {
    if inputs == [] then 0
    else
      (if inputs[0].Request? && f.phase != Draining && inputs[0].hasConnectors then inputs[0].accepted else 0)
      + AskedInAll(OnInput(f, inputs[0]).0, inputs[1..])
  }

  function AnsweredInAll(inputs: seq<Input>): nat {
    if inputs == [] then 0 else (if inputs[0].Answered? then 1 else 0) + AnsweredInAll(inputs[1..])
  }

  /** There is never an answer that nobody was asked for. */
  ghost predicate Solicited(f: Flow, inputs: seq<Input>)
    decreases |inputs|
  {
    inputs == [] || ((inputs[0].Answered? ==> f.expectedDrains > 0) && Solicited(OnInput(f, inputs[0]).0, inputs[1..]))
  }

  /** In every run without answers nobody was asked for, the flow expects the answers that were asked for and have not come. */
  lemma {:induction false} ExpectedIs(f: Flow, inputs: seq<Input>)
    requires Solicited(f, inputs)
    ensures AfterAll(f, inputs).expectedDrains + AnsweredInAll(inputs) == f.expectedDrains + AskedInAll(f, inputs)
    decreases |inputs|
  {
    if inputs != [] {
      ExpectedIs(OnInput(f, inputs[0]).0, inputs[1..]);
    }
  }

  lemma {:induction false} ElementsCount(xs: seq<Uid>)
    ensures |Elements(xs)| <= |xs|
    ensures |Elements(xs)| == |xs| <==> NoRepeats(xs)
  {
    if xs != [] {
      var rest, x := xs[..|xs| - 1], xs[|xs| - 1];
      ElementsCount(rest);
      assert xs == rest + [x];
      assert Elements(xs) == Elements(rest) + {x};
      if x in rest {
        assert Elements(xs) == Elements(rest);
        var i :| 0 <= i < |rest| && rest[i] == x;
        assert xs[i] == x;
      } else {
        NoRepeatsLast(rest, x);
      }
    }
  }

  lemma NoRepeatsLast(rest: seq<Uid>, x: Uid)
    requires x !in rest
    ensures NoRepeats(rest + [x]) <==> NoRepeats(rest)
  {
    var xs := rest + [x];
    assert forall i :: 0 <= i < |rest| ==> xs[i] == rest[i] && rest[i] in rest;
  }

  lemma SubsetCount<T>(a: set<T>, b: set<T>)
    requires a <= b
    ensures |a| <= |b| && (|a| == |b| ==> a == b)
  {
    assert b == a + (b - a);
  }

  /**
   The flow counts answers and does not look at who gave them. When it tells the senders that
   everything is drained, every connector it asked has answered if and only if no connector
   answered twice before that.
   */
  lemma TruthfulIff(asked: set<Uid>, answers: seq<Uid>)
    requires asked != {} && |answers| >= |asked| && Elements(answers) <= asked
    ensures asked <= Elements(answers[..|asked|]) <==> NoRepeats(answers[..|asked|])
  {
    var first := answers[..|asked|];
    ElementsCount(first);
    assert Elements(first) <= asked by {
      assert forall x :: x in first ==> x in answers;
      assert forall x :: x in answers ==> x in Elements(answers);
    }
    SubsetCount(Elements(first), asked);
    if asked <= Elements(first) {
      assert asked == Elements(first);
    }
  }
}
