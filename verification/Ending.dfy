/**
 Draining ends. Without new input from outside all runs are finite if tasks are not linked in a circle: each
 message has a weight that covers all steps it can still lead to, and every step takes weight away. With
 `Progress`, where a run ends the flow has told.
 */
module Ending {
  import opened Protocol
  import opened Wrappers
  import opened Network
  import opened Quiescence
  import opened Playing
  import opened OneWay
  import opened Origins
  import opened Progress
  import S = SourceTask
  import K = SinkTask
  import C = ConnectorLoop
  import F = FlowLoop
  import D = DrainScenario

  // ----- weights

  /** What a message for a pipeline or sink, and contraflow for a pipeline or source, may still lead to. */
  datatype Scales = Scales(forth: Node -> nat, back: Node -> nat)

  ghost function ForthAll(g: Scales, nodes: seq<Node>): nat {
    if nodes == [] then 0 else 1 + g.forth(nodes[0]) + ForthAll(g, nodes[1..])
  }

  ghost function BackAll(g: Scales, nodes: seq<Node>): nat {
    if nodes == [] then 0 else g.back(nodes[0]) + BackAll(g, nodes[1..])
  }

  /** A task's own step and all that it makes weigh no more than the message it takes. */
  ghost predicate Weighs(plant: Plant, g: Scales) {
    && (forall i :: g.back(SourceNode(i)) == 5)
    && (forall p :: g.forth(PipeNode(p)) >= 1 + ForthAll(g, Outs(plant.topo, PipeNode(p))))
    && (forall p :: g.back(PipeNode(p)) >= 1 + BackAll(g, Inputs(plant, p)))
    && (forall k :: g.forth(SinkNode(k)) >= 3 + 3 * BackAll(g, Pipes(plant, k)))
  }

  /** What a source may send with one message it takes. */
  ghost function Emission(plant: Plant, g: Scales, i: Uid): nat {
    ForthAll(g, Outs(plant.topo, SourceNode(i)))
  }

  ghost function ItemWeight(g: Scales, n: Node, x: Item): nat {
    if x == Control(DrainSink) then 3 else g.forth(n)
  }

  ghost function MailWeight(plant: Plant, g: Scales, i: Uid, m: SourceMsg): nat {
    if m.Cb? then 5 else 5 + Emission(plant, g, i)
  }

  ghost function OrderWeight(plant: Plant, g: Scales, i: Uid, m: C.Msg): nat {
    if m == C.SinkDrained then 2 else if m == C.SourceDrained then 4 else 11 + Emission(plant, g, i) + g.forth(SinkNode(i))
  }

  ghost function Items(g: Scales, n: Node, xs: seq<Item>): nat {
    if xs == [] then 0 else ItemWeight(g, n, xs[0]) + Items(g, n, xs[1..])
  }

  ghost function Sends(g: Scales, es: seq<(Node, Item)>): nat {
    if es == [] then 0 else 1 + ItemWeight(g, es[0].0, es[0].1) + Sends(g, es[1..])
  }

  ghost function Mails(plant: Plant, g: Scales, i: Uid, ms: seq<SourceMsg>): nat {
    if ms == [] then 0 else MailWeight(plant, g, i, ms[0]) + Mails(plant, g, i, ms[1..])
  }

  ghost function Orders(plant: Plant, g: Scales, i: Uid, ms: seq<C.Msg>): nat {
    if ms == [] then 0 else OrderWeight(plant, g, i, ms[0]) + Orders(plant, g, i, ms[1..])
  }

  /** What waits at a task; the loop of a connector counts as part of its source. */
  ghost function Load(plant: Plant, g: Scales, w: World, n: Node): nat {
    match n
    case SourceNode(i) => Sends(g, Outbox(w.net, n)) + Mails(plant, g, i, SourceIn(w, i)) + Orders(plant, g, i, ConnectorIn(w, i))
    case PipeNode(p) => Items(g, n, Inbox(w.net, n)) + Sends(g, Outbox(w.net, n)) + g.back(n) * |Contraflow(w.contraflow, p)|
    case SinkNode(k) => Items(g, n, Inbox(w.net, n))
  }

  ghost function Loads(plant: Plant, g: Scales, w: World, ns: set<Node>): nat {
    if ns == {} then 0 else var n :| n in ns; Load(plant, g, w, n) + Loads(plant, g, w, ns - {n})
  }

  /** The tasks where something may wait. */
  function Holders(w: World): set<Node> {
    w.net.inq.Keys + w.net.out.Keys + (set p | p in w.contraflow :: PipeNode(p))
    + (set i | i in w.sourceIn :: SourceNode(i)) + (set i | i in w.connectorIn :: SourceNode(i))
  }

  /** How many steps a state can still lead to, at most. */
  ghost function Total(plant: Plant, g: Scales, w: World): nat {
    Loads(plant, g, w, Holders(w)) + |w.results|
  }

  // ----- sums

  lemma {:induction false} ItemsAppend(g: Scales, n: Node, a: seq<Item>, b: seq<Item>)
    ensures Items(g, n, a + b) == Items(g, n, a) + Items(g, n, b)
  {
    if a == [] {
      assert a + b == b;
    } else {
      ItemsAppend(g, n, a[1..], b);
      assert (a + b)[1..] == a[1..] + b;
    }
  }

  lemma {:induction false} SendsAppend(g: Scales, a: seq<(Node, Item)>, b: seq<(Node, Item)>)
    ensures Sends(g, a + b) == Sends(g, a) + Sends(g, b)
  {
    if a == [] {
      assert a + b == b;
    } else {
      SendsAppend(g, a[1..], b);
      assert (a + b)[1..] == a[1..] + b;
    }
  }

  lemma {:induction false} MailsAppend(plant: Plant, g: Scales, i: Uid, a: seq<SourceMsg>, b: seq<SourceMsg>)
    ensures Mails(plant, g, i, a + b) == Mails(plant, g, i, a) + Mails(plant, g, i, b)
  {
    if a == [] {
      assert a + b == b;
    } else {
      MailsAppend(plant, g, i, a[1..], b);
      assert (a + b)[1..] == a[1..] + b;
    }
  }

  lemma {:induction false} OrdersAppend(plant: Plant, g: Scales, i: Uid, a: seq<C.Msg>, b: seq<C.Msg>)
    ensures Orders(plant, g, i, a + b) == Orders(plant, g, i, a) + Orders(plant, g, i, b)
  {
    if a == [] {
      assert a + b == b;
    } else {
      OrdersAppend(plant, g, i, a[1..], b);
      assert (a + b)[1..] == a[1..] + b;
    }
  }

  /** Only the load of `n` changed. */
  ghost predicate OnlyAt(plant: Plant, g: Scales, w: World, w': World, n: Node) {
    forall m :: m != n ==> Load(plant, g, w', m) == Load(plant, g, w, m)
  }

  lemma {:induction false} LoadsPick(plant: Plant, g: Scales, w: World, ns: set<Node>, n: Node)
    requires n in ns
    ensures Loads(plant, g, w, ns) == Load(plant, g, w, n) + Loads(plant, g, w, ns - {n})
    decreases |ns|
  {
    var m :| m in ns && Loads(plant, g, w, ns) == Load(plant, g, w, m) + Loads(plant, g, w, ns - {m});
    if m != n {
      LoadsPick(plant, g, w, ns - {m}, n);
      LoadsPick(plant, g, w, ns - {n}, m);
      assert ns - {m} - {n} == ns - {n} - {m};
    }
  }

  lemma {:induction false} LoadsSame(plant: Plant, g: Scales, w: World, w': World, ns: set<Node>, n: Node)
    requires OnlyAt(plant, g, w, w', n) && n !in ns
    ensures Loads(plant, g, w', ns) == Loads(plant, g, w, ns)
    decreases |ns|
  {
    if ns != {} {
      var m :| m in ns;
      LoadsPick(plant, g, w, ns, m);
      LoadsPick(plant, g, w', ns, m);
      LoadsSame(plant, g, w, w', ns - {m}, n);
    }
  }

  lemma LoadsChange(plant: Plant, g: Scales, w: World, w': World, ns: set<Node>, n: Node)
    requires OnlyAt(plant, g, w, w', n) && n in ns
    ensures Loads(plant, g, w', ns) + Load(plant, g, w, n) == Loads(plant, g, w, ns) + Load(plant, g, w', n)
  {
    LoadsPick(plant, g, w, ns, n);
    LoadsPick(plant, g, w', ns, n);
    LoadsSame(plant, g, w, w', ns - {n}, n);
  }

  lemma NothingHeld(plant: Plant, g: Scales, w: World, n: Node)
    requires n !in Holders(w)
    ensures Load(plant, g, w, n) == 0
  {
  }

  lemma {:induction false} LoadsMore(plant: Plant, g: Scales, w: World, ns: set<Node>, more: set<Node>)
    requires forall n :: n in more ==> n !in Holders(w)
    ensures Loads(plant, g, w, ns + more) == Loads(plant, g, w, ns)
    decreases |more - ns|
  {
    if more <= ns {
      assert ns + more == ns;
    } else {
      var n :| n in more && n !in ns;
      assert ns + more == (ns + {n}) + more && (ns + {n}) - {n} == ns;
      assert more - (ns + {n}) == (more - ns) - {n};
      NothingHeld(plant, g, w, n);
      LoadsPick(plant, g, w, ns + {n}, n);
      LoadsMore(plant, g, w, ns + {n}, more);
    }
  }

  /** It does not matter which tasks are summed up, as long as nobody with something to do is missing. */
  lemma TotalIs(plant: Plant, g: Scales, w: World, ns: set<Node>)
    requires Holders(w) <= ns
    ensures Total(plant, g, w) == Loads(plant, g, w, ns) + |w.results|
  {
    LoadsMore(plant, g, w, Holders(w), ns - Holders(w));
    assert Holders(w) + (ns - Holders(w)) == ns;
  }

  // ----- what goes out of a task

  lemma {:induction false} CopiesWeight(topo: Topology, g: Scales, n: Node, link: nat, x: Item)
    requires link <= |Outs(topo, n)|
    ensures Sends(g, Copies(topo, n, link, x)) <= ForthAll(g, Outs(topo, n)[link..])
    decreases |Outs(topo, n)| - link
  {
    var links := Outs(topo, n);
    if link < |links| {
      CopiesWeight(topo, g, n, link + 1, x);
      assert links[link..][1..] == links[link + 1..];
      if Passes(topo, n, link, x) {
        assert ([(links[link], x)] + Copies(topo, n, link + 1, x))[1..] == Copies(topo, n, link + 1, x);
      }
    }
  }

  lemma CopiesWeigh(topo: Topology, g: Scales, n: Node, x: Item)
    ensures Sends(g, Copies(topo, n, 0, x)) <= ForthAll(g, Outs(topo, n))
  {
    CopiesWeight(topo, g, n, 0, x);
    assert Outs(topo, n)[0..] == Outs(topo, n);
  }

  // ----- every step takes weight away

  /** The sum over the tasks `ns`. */
  ghost function Sum(plant: Plant, g: Scales, w: World, ns: set<Node>): nat {
    Loads(plant, g, w, ns) + |w.results|
  }

  lemma OutboxSheds(plant: Plant, g: Scales, w: World, n: Node, ns: set<Node>)
    requires Outbox(w.net, n) != [] && n in ns && !n.SinkNode?
    ensures var e, w' := Outbox(w.net, n)[0], w.(net := w.net.(out := w.net.out[n := Outbox(w.net, n)[1..]]));
            Sum(plant, g, w', ns) + 1 + ItemWeight(g, e.0, e.1) == Sum(plant, g, w, ns)
  {
    LoadsChange(plant, g, w, w.(net := w.net.(out := w.net.out[n := Outbox(w.net, n)[1..]])), ns, n);
  }

  lemma OutboxOnly(plant: Plant, g: Scales, w: World, n: Node, es: seq<(Node, Item)>)
    ensures OnlyAt(plant, g, w, w.(net := w.net.(out := w.net.out[n := es])), n)
  {
  }

  lemma OutboxGets(plant: Plant, g: Scales, w: World, n: Node, es: seq<(Node, Item)>, ns: set<Node>)
    requires n in ns && !n.SinkNode?
    ensures var w' := w.(net := w.net.(out := w.net.out[n := Outbox(w.net, n) + es]));
            Sum(plant, g, w', ns) == Sum(plant, g, w, ns) + Sends(g, es)
  {
    var out := Outbox(w.net, n) + es;
    var w' := w.(net := w.net.(out := w.net.out[n := out]));
    SendsAppend(g, Outbox(w.net, n), es);
    OutboxOnly(plant, g, w, n, out);
    assert Outbox(w'.net, n) == out;
    LoadsChange(plant, g, w, w', ns, n);
  }

  lemma InboxGets(plant: Plant, g: Scales, w: World, n: Node, x: Item, ns: set<Node>)
    requires n in ns
    ensures var w' := w.(net := w.net.(inq := w.net.inq[n := Inbox(w.net, n) + [x]]));
            Sum(plant, g, w', ns) <= Sum(plant, g, w, ns) + ItemWeight(g, n, x)
  {
    ItemsAppend(g, n, Inbox(w.net, n), [x]);
    assert [x][1..] == [];
    LoadsChange(plant, g, w, w.(net := w.net.(inq := w.net.inq[n := Inbox(w.net, n) + [x]])), ns, n);
  }

  lemma InboxSheds(plant: Plant, g: Scales, w: World, n: Node, ns: set<Node>)
    requires n in ns && Inbox(w.net, n) != [] && !n.SourceNode?
    ensures var w' := w.(net := w.net.(inq := w.net.inq[n := Inbox(w.net, n)[1..]]));
            Sum(plant, g, w', ns) + ItemWeight(g, n, Inbox(w.net, n)[0]) == Sum(plant, g, w, ns)
  {
    LoadsChange(plant, g, w, w.(net := w.net.(inq := w.net.inq[n := Inbox(w.net, n)[1..]])), ns, n);
  }

  lemma DeliverLess(plant: Plant, g: Scales, w: World, n: Node, ns: set<Node>)
    requires Outbox(w.net, n) != [] && n in ns && Outbox(w.net, n)[0].0 in ns && !n.SinkNode?
    ensures Sum(plant, g, w.(net := Deliver(w.net, n)), ns) < Sum(plant, g, w, ns)
  {
    var e, mid := Outbox(w.net, n)[0], w.(net := w.net.(out := w.net.out[n := Outbox(w.net, n)[1..]]));
    OutboxSheds(plant, g, w, n, ns);
    InboxGets(plant, g, mid, e.0, e.1, ns);
  }

  lemma ForwardLess(plant: Plant, g: Scales, w: World, p: nat, ns: set<Node>)
    requires Weighs(plant, g) && Inbox(w.net, PipeNode(p)) != [] && PipeNode(p) in ns
    ensures Sum(plant, g, w.(net := Forward(plant.topo, w.net, p)), ns) < Sum(plant, g, w, ns)
  {
    var n, x := PipeNode(p), Inbox(w.net, PipeNode(p))[0];
    var mid := w.(net := w.net.(inq := w.net.inq[n := Inbox(w.net, n)[1..]]));
    InboxSheds(plant, g, w, n, ns);
    OutboxGets(plant, g, mid, n, Copies(plant.topo, n, 0, x), ns);
    CopiesWeigh(plant.topo, g, n, x);
    if x.Control? {
      NoCopies(plant.topo, n, 0, x);
    }
  }

  lemma {:induction false} NoCopies(topo: Topology, n: Node, link: nat, x: Item)
    requires x.Control?
    ensures Copies(topo, n, link, x) == []
    decreases |Outs(topo, n)| - link
  {
    if link < |Outs(topo, n)| {
      NoCopies(topo, n, link + 1, x);
    }
  }

  // ----- contraflow

  lemma Grown(a: nat, b: nat)
    ensures a * (b + 1) == a * b + a
  {
  }

  lemma PipeTakes(plant: Plant, g: Scales, w: World, p: nat, cb: CbAction, ns: set<Node>)
    requires PipeNode(p) in ns
    ensures var w' := w.(contraflow := w.contraflow[p := Contraflow(w.contraflow, p) + [cb]]);
            Sum(plant, g, w', ns) == Sum(plant, g, w, ns) + g.back(PipeNode(p))
  {
    Grown(g.back(PipeNode(p)), |Contraflow(w.contraflow, p)|);
    LoadsChange(plant, g, w, w.(contraflow := w.contraflow[p := Contraflow(w.contraflow, p) + [cb]]), ns, PipeNode(p));
  }

  lemma PipeGives(plant: Plant, g: Scales, w: World, p: nat, ns: set<Node>)
    requires PipeNode(p) in ns && Contraflow(w.contraflow, p) != []
    ensures var w' := w.(contraflow := w.contraflow[p := Contraflow(w.contraflow, p)[1..]]);
            Sum(plant, g, w', ns) + g.back(PipeNode(p)) == Sum(plant, g, w, ns)
  {
    Grown(g.back(PipeNode(p)), |Contraflow(w.contraflow, p)| - 1);
    LoadsChange(plant, g, w, w.(contraflow := w.contraflow[p := Contraflow(w.contraflow, p)[1..]]), ns, PipeNode(p));
  }

  lemma MailOnly(plant: Plant, g: Scales, w: World, i: Uid, mail: seq<SourceMsg>)
    ensures OnlyAt(plant, g, w, w.(sourceIn := w.sourceIn[i := mail]), SourceNode(i))
  {
  }

  lemma SourceGetsAll(plant: Plant, g: Scales, w: World, i: Uid, ms: seq<SourceMsg>, ns: set<Node>)
    requires SourceNode(i) in ns
    ensures var w' := w.(sourceIn := w.sourceIn[i := SourceIn(w, i) + ms]);
            Sum(plant, g, w', ns) == Sum(plant, g, w, ns) + Mails(plant, g, i, ms)
  {
    var mail := SourceIn(w, i) + ms;
    var w' := w.(sourceIn := w.sourceIn[i := mail]);
    MailsAppend(plant, g, i, SourceIn(w, i), ms);
    MailOnly(plant, g, w, i, mail);
    assert SourceIn(w', i) == mail;
    LoadsChange(plant, g, w, w', ns, SourceNode(i));
  }

  lemma SourceGets(plant: Plant, g: Scales, w: World, i: Uid, m: SourceMsg, ns: set<Node>)
    requires SourceNode(i) in ns
    ensures var w' := w.(sourceIn := w.sourceIn[i := SourceIn(w, i) + [m]]);
            Sum(plant, g, w', ns) == Sum(plant, g, w, ns) + MailWeight(plant, g, i, m)
  {
    SourceGetsAll(plant, g, w, i, [m], ns);
    assert [m][1..] == [];
  }

  lemma OrdersOnly(plant: Plant, g: Scales, w: World, i: Uid, mail: seq<C.Msg>)
    ensures OnlyAt(plant, g, w, w.(connectorIn := w.connectorIn[i := mail]), SourceNode(i))
  {
  }

  lemma ConnectorGetsAll(plant: Plant, g: Scales, w: World, i: Uid, ms: seq<C.Msg>, ns: set<Node>)
    requires SourceNode(i) in ns
    ensures var w' := w.(connectorIn := w.connectorIn[i := ConnectorIn(w, i) + ms]);
            Sum(plant, g, w', ns) == Sum(plant, g, w, ns) + Orders(plant, g, i, ms)
  {
    var mail := ConnectorIn(w, i) + ms;
    var w' := w.(connectorIn := w.connectorIn[i := mail]);
    OrdersAppend(plant, g, i, ConnectorIn(w, i), ms);
    OrdersOnly(plant, g, w, i, mail);
    assert ConnectorIn(w', i) == mail;
    LoadsChange(plant, g, w, w', ns, SourceNode(i));
  }

  lemma ConnectorGets(plant: Plant, g: Scales, w: World, i: Uid, m: C.Msg, ns: set<Node>)
    requires SourceNode(i) in ns
    ensures var w' := w.(connectorIn := w.connectorIn[i := ConnectorIn(w, i) + [m]]);
            Sum(plant, g, w', ns) == Sum(plant, g, w, ns) + OrderWeight(plant, g, i, m)
  {
    ConnectorGetsAll(plant, g, w, i, [m], ns);
    assert [m][1..] == [];
  }

  /** `w` after `cb` was passed back to `takers`. */
  ghost function PassedBack(w: World, takers: seq<Node>, cb: CbAction): World {
    w.(contraflow := ToPipes(w.contraflow, takers, cb), sourceIn := ToSources(w.sourceIn, takers, cb))
  }

  lemma PipesOne(cf: map<nat, seq<CbAction>>, takers: seq<Node>, cb: CbAction)
    requires takers != []
    ensures var t, rest := takers[0], takers[1..];
            ToPipes(cf, takers, cb) == ToPipes(if t.PipeNode? then cf[t.pid := Contraflow(cf, t.pid) + [cb]] else cf, rest, cb)
  {
  }

  lemma SourcesOne(mail: map<Uid, seq<SourceMsg>>, takers: seq<Node>, cb: CbAction)
    requires takers != []
    ensures var t, rest := takers[0], takers[1..];
            ToSources(mail, takers, cb)
            == ToSources(if t.SourceNode? then mail[t.uid := Messages(mail, t.uid) + [Cb(cb)]] else mail, rest, cb)
  {
  }

  lemma PassedToSource(w: World, takers: seq<Node>, cb: CbAction)
    requires takers != [] && takers[0].SourceNode?
    ensures var i := takers[0].uid;
            PassedBack(w, takers, cb) == PassedBack(w.(sourceIn := w.sourceIn[i := SourceIn(w, i) + [Cb(cb)]]), takers[1..], cb)
  {
    PipesOne(w.contraflow, takers, cb);
    SourcesOne(w.sourceIn, takers, cb);
  }

  lemma PassedToPipe(w: World, takers: seq<Node>, cb: CbAction)
    requires takers != [] && takers[0].PipeNode?
    ensures var p := takers[0].pid;
            PassedBack(w, takers, cb)
            == PassedBack(w.(contraflow := w.contraflow[p := Contraflow(w.contraflow, p) + [cb]]), takers[1..], cb)
  {
    PipesOne(w.contraflow, takers, cb);
    SourcesOne(w.sourceIn, takers, cb);
  }

  lemma PassedToSink(w: World, takers: seq<Node>, cb: CbAction)
    requires takers != [] && takers[0].SinkNode?
    ensures PassedBack(w, takers, cb) == PassedBack(w, takers[1..], cb)
  {
    PipesOne(w.contraflow, takers, cb);
    SourcesOne(w.sourceIn, takers, cb);
  }

  lemma {:induction false} PassedWeight(plant: Plant, g: Scales, w: World, takers: seq<Node>, cb: CbAction, ns: set<Node>)
    requires Weighs(plant, g) && forall t :: t in takers ==> t in ns
    ensures Sum(plant, g, PassedBack(w, takers, cb), ns) <= Sum(plant, g, w, ns) + BackAll(g, takers)
    decreases |takers|
  {
    if takers != [] {
      var t, rest := takers[0], takers[1..];
      assert t in ns && forall u :: u in rest ==> u in takers;
      if t.SourceNode? {
        PassedToSource(w, takers, cb);
        SourceGets(plant, g, w, t.uid, Cb(cb), ns);
        PassedWeight(plant, g, w.(sourceIn := w.sourceIn[t.uid := SourceIn(w, t.uid) + [Cb(cb)]]), rest, cb, ns);
      } else if t.PipeNode? {
        PassedToPipe(w, takers, cb);
        PipeTakes(plant, g, w, t.pid, cb, ns);
        PassedWeight(plant, g, w.(contraflow := w.contraflow[t.pid := Contraflow(w.contraflow, t.pid) + [cb]]), rest, cb, ns);
      } else {
        PassedToSink(w, takers, cb);
        PassedWeight(plant, g, w, rest, cb, ns);
      }
    }
  }

  lemma {:induction false} BackFewer(g: Scales, a: seq<Node>, b: seq<Node>)
    requires multiset(a) <= multiset(b)
    ensures BackAll(g, a) <= BackAll(g, b)
    decreases |a|
  {
    if a != [] {
      assert a == [a[0]] + a[1..];
      assert a[0] in multiset(b);
      var j := At(b, a[0]);
      WithoutOne(b, j);
      assert multiset(a[1..]) == multiset(a) - multiset{a[0]};
      BackWithout(g, b, j);
      BackFewer(g, a[1..], b[..j] + b[j + 1..]);
    }
  }

  lemma WithoutOne(b: seq<Node>, j: nat)
    requires j < |b|
    ensures multiset(b[..j] + b[j + 1..]) == multiset(b) - multiset{b[j]}
  {
    assert b == b[..j] + ([b[j]] + b[j + 1..]);
  }

  lemma {:induction false} BackWithout(g: Scales, b: seq<Node>, j: nat)
    requires j < |b|
    ensures BackAll(g, b) == g.back(b[j]) + BackAll(g, b[..j] + b[j + 1..])
    decreases j
  {
    var rest := b[..j] + b[j + 1..];
    if j == 0 {
      assert rest == b[1..];
    } else {
      BackWithout(g, b[1..], j - 1);
      assert rest[0] == b[0] && rest[1..] == b[1..][..j - 1] + b[1..][j..];
    }
  }

  lemma ReturnLess(plant: Plant, g: Scales, w: World, p: nat, takers: seq<Node>, ns: set<Node>)
    requires Weighs(plant, g) && Contraflow(w.contraflow, p) != [] && multiset(takers) <= multiset(Inputs(plant, p))
    requires PipeNode(p) in ns && forall t :: t in takers ==> t in ns
    ensures Sum(plant, g, PipeReturned(w, p, takers), ns) < Sum(plant, g, w, ns)
  {
    var cb, mid := Contraflow(w.contraflow, p)[0], w.(contraflow := w.contraflow[p := Contraflow(w.contraflow, p)[1..]]);
    PipeGives(plant, g, w, p, ns);
    PassedWeight(plant, g, mid, takers, cb, ns);
    BackFewer(g, takers, Inputs(plant, p));
  }

  // ----- a sink takes a message

  lemma {:induction false} InsightCount(es: seq<K.Effect>)
    ensures |SinkInsights(es)| == K.Insights(es)
  {
    if es != [] {
      InsightCount(es[1..]);
    }
  }

  ghost function Often(n: nat, b: nat): nat {
    if n == 0 then 0 else b + Often(n - 1, b)
  }

  ghost function WithBack(w: World, cf: map<nat, seq<CbAction>>): World {
    w.(contraflow := cf)
  }

  lemma {:induction false} SpokenWeight(plant: Plant, g: Scales, w: World, takers: seq<Node>, cbs: seq<CbAction>, ns: set<Node>)
    requires forall t :: t in takers ==> t in ns
    ensures Sum(plant, g, WithBack(w, ToPipesEach(w.contraflow, takers, cbs)), ns)
            <= Sum(plant, g, w, ns) + Often(|cbs|, BackAll(g, takers))
    decreases |cbs|
  {
    if cbs == [] {
      assert WithBack(w, w.contraflow) == w;
    } else {
      var mid := WithBack(w, ToPipes(w.contraflow, takers, cbs[0]));
      SpokenOnce(plant, g, w, takers, cbs[0], ns);
      SpokenWeight(plant, g, mid, takers, cbs[1..], ns);
      SpokenRest(w, takers, cbs);
    }
  }

  lemma SpokenRest(w: World, takers: seq<Node>, cbs: seq<CbAction>)
    requires cbs != []
    ensures var mid := WithBack(w, ToPipes(w.contraflow, takers, cbs[0]));
            WithBack(mid, ToPipesEach(mid.contraflow, takers, cbs[1..])) == WithBack(w, ToPipesEach(w.contraflow, takers, cbs))
  {
  }

  /** `w` after contraflow `cb` came to `n`. */
  ghost function Given(w: World, n: Node, cb: CbAction): World {
    if n.PipeNode? then w.(contraflow := w.contraflow[n.pid := Contraflow(w.contraflow, n.pid) + [cb]]) else w
  }

  lemma GivenRest(w: World, takers: seq<Node>, cb: CbAction)
    requires takers != []
    ensures var mid := Given(w, takers[0], cb);
            WithBack(w, ToPipes(w.contraflow, takers, cb)) == WithBack(mid, ToPipes(mid.contraflow, takers[1..], cb))
  {
    PipesOne(w.contraflow, takers, cb);
  }

  lemma GivenWeight(plant: Plant, g: Scales, w: World, n: Node, cb: CbAction, ns: set<Node>)
    requires n in ns
    ensures Sum(plant, g, Given(w, n, cb), ns) <= Sum(plant, g, w, ns) + g.back(n)
  {
    if n.PipeNode? {
      PipeTakes(plant, g, w, n.pid, cb, ns);
    }
  }

  lemma {:induction false} SpokenOnce(plant: Plant, g: Scales, w: World, takers: seq<Node>, cb: CbAction, ns: set<Node>)
    requires forall t :: t in takers ==> t in ns
    ensures Sum(plant, g, WithBack(w, ToPipes(w.contraflow, takers, cb)), ns) <= Sum(plant, g, w, ns) + BackAll(g, takers)
    decreases |takers|
  {
    if takers == [] {
      assert WithBack(w, w.contraflow) == w;
    } else {
      assert takers[0] in ns && forall u :: u in takers[1..] ==> u in takers;
      GivenWeight(plant, g, w, takers[0], cb, ns);
      GivenRest(w, takers, cb);
      SpokenOnce(plant, g, Given(w, takers[0], cb), takers[1..], cb, ns);
    }
  }

  /** A request to drain gives no contraflow; other messages give at most three insights. */
  lemma SpeaksLittle(k: K.Sink, x: Item, o: K.Outcome, transactional: bool, autoAck: bool)
    ensures |SinkInsights(K.OnItem(k, x, o, transactional, autoAck).1)| <= if x == Control(DrainSink) then 0 else 3
  {
    var es := K.OnItem(k, x, o, transactional, autoAck).1;
    InsightCount(es);
    K.InsightBound(k, x, o, transactional, autoAck);
    if x == Control(DrainSink) {
      assert es == [] || es == [K.ReportDrained];
      assert [K.ReportDrained][1..] == [];
    }
  }

  lemma SpokenLittle(plant: Plant, g: Scales, w: World, k: Uid, cbs: seq<CbAction>, ns: set<Node>)
    requires Weighs(plant, g) && |cbs| <= 3 && forall t :: t in Pipes(plant, k) ==> t in ns
    ensures Sum(plant, g, WithBack(w, ToPipesEach(w.contraflow, Pipes(plant, k), cbs)), ns)
            <= Sum(plant, g, w, ns) + if cbs == [] then 0 else g.forth(SinkNode(k)) - 3
  {
    var b := BackAll(g, Pipes(plant, k));
    SpokenWeight(plant, g, w, Pipes(plant, k), cbs, ns);
    AtMostThree(|cbs|, b);
    assert g.forth(SinkNode(k)) >= 3 + 3 * b;
  }

  lemma AtMostThree(a: nat, b: nat)
    requires a <= 3
    ensures Often(a, b) <= 3 * b && Often(0, b) == 0
  {
    assert Often(1, b) == b && Often(2, b) == b + b && Often(3, b) == b + b + b;
  }

  lemma SinkReports(plant: Plant, g: Scales, w: World, k: Uid, reports: bool, ns: set<Node>)
    requires SourceNode(k) in ns
    ensures var c := w.(connectorIn := if reports then w.connectorIn[k := ConnectorIn(w, k) + [C.SinkDrained]]
                        else w.connectorIn);
            Sum(plant, g, c, ns) <= Sum(plant, g, w, ns) + 2
  {
    if reports {
      ConnectorGets(plant, g, w, k, C.SinkDrained, ns);
    } else {
      assert w.(connectorIn := w.connectorIn) == w;
    }
  }

  lemma SinkLess(plant: Plant, g: Scales, w: World, k: Uid, o: K.Outcome, transactional: bool, autoAck: bool, ns: set<Node>)
    requires Weighs(plant, g) && k in w.sinks && Inbox(w.net, SinkNode(k)) != []
    requires SinkNode(k) in ns && SourceNode(k) in ns && forall t :: t in Pipes(plant, k) ==> t in ns
    ensures Sum(plant, g, SinkTook(plant, w, k, o, transactional, autoAck), ns) < Sum(plant, g, w, ns)
  {
    var n, x := SinkNode(k), Inbox(w.net, SinkNode(k))[0];
    var es := K.OnItem(w.sinks[k], x, o, transactional, autoAck).1;
    var cbs, reports := SinkInsights(es), K.ReportDrained in es;
    SpeaksLittle(w.sinks[k], x, o, transactional, autoAck);
    var a := w.(net := w.net.(inq := w.net.inq[n := Inbox(w.net, n)[1..]]));
    InboxSheds(plant, g, w, n, ns);
    var b := WithBack(a, ToPipesEach(a.contraflow, Pipes(plant, k), cbs));
    SpokenLittle(plant, g, a, k, cbs, ns);
    var c := b.(connectorIn := if reports then b.connectorIn[k := ConnectorIn(b, k) + [C.SinkDrained]] else b.connectorIn);
    SinkReports(plant, g, b, k, reports, ns);
    SinkTookParts(plant, w, k, o, transactional, autoAck, cbs, reports);
    SameLoads(plant, g, c, SinkTook(plant, w, k, o, transactional, autoAck), ns);
  }

  lemma SinkTookParts(plant: Plant, w: World, k: Uid, o: K.Outcome, transactional: bool, autoAck: bool,
                      cbs: seq<CbAction>, reports: bool)
    requires k in w.sinks && Inbox(w.net, SinkNode(k)) != []
    requires var es := K.OnItem(w.sinks[k], Inbox(w.net, SinkNode(k))[0], o, transactional, autoAck).1;
             cbs == SinkInsights(es) && reports == (K.ReportDrained in es)
    ensures var w' := SinkTook(plant, w, k, o, transactional, autoAck);
            && w'.net.inq == w.net.inq[SinkNode(k) := Inbox(w.net, SinkNode(k))[1..]] && w'.net.out == w.net.out
            && w'.contraflow == ToPipesEach(w.contraflow, Pipes(plant, k), cbs) && w'.sourceIn == w.sourceIn
               && w'.results == w.results
            && w'.connectorIn == if reports then w.connectorIn[k := ConnectorIn(w, k) + [C.SinkDrained]] else w.connectorIn
  {
  }

  /** All queues are the same. */
  ghost predicate Alike(w: World, w': World) {
    && w'.net.inq == w.net.inq && w'.net.out == w.net.out && w'.contraflow == w.contraflow
    && w'.sourceIn == w.sourceIn && w'.connectorIn == w.connectorIn && w'.results == w.results
  }

  lemma SameLoad(plant: Plant, g: Scales, w: World, w': World, n: Node)
    requires w'.net.inq == w.net.inq && w'.net.out == w.net.out && w'.contraflow == w.contraflow
    requires w'.sourceIn == w.sourceIn && w'.connectorIn == w.connectorIn
    ensures Load(plant, g, w', n) == Load(plant, g, w, n)
  {
  }

  /** The states of tasks and the histories do not weigh. */
  lemma {:induction false} SameLoads(plant: Plant, g: Scales, w: World, w': World, ns: set<Node>)
    requires Alike(w, w')
    ensures Sum(plant, g, w', ns) == Sum(plant, g, w, ns)
    decreases |ns|
  {
    if ns != {} {
      var n :| n in ns;
      SameLoad(plant, g, w, w', n);
      LoadsPick(plant, g, w, ns, n);
      LoadsPick(plant, g, w', ns, n);
      SameLoads(plant, g, w, w', ns - {n});
    }
  }

  // ----- a source takes a message

  lemma SourceSheds(plant: Plant, g: Scales, w: World, i: Uid, ns: set<Node>)
    requires SourceNode(i) in ns && SourceIn(w, i) != []
    ensures var w' := w.(sourceIn := w.sourceIn[i := SourceIn(w, i)[1..]]);
            Sum(plant, g, w', ns) + MailWeight(plant, g, i, SourceIn(w, i)[0]) == Sum(plant, g, w, ns)
  {
    LoadsChange(plant, g, w, w.(sourceIn := w.sourceIn[i := SourceIn(w, i)[1..]]), ns, SourceNode(i));
  }

  /** A source says at most one thing at a time, and nothing when it hears contraflow. */
  lemma SaysLittle(s: S.Source, msg: SourceMsg)
    ensures var bodies := Bodies(S.OnMsg(s, msg).1);
            bodies == [] || (!msg.Cb? && bodies == [bodies[0]])
  {
    var es := S.OnMsg(s, msg).1;
    assert es == [] || es == [S.ReportDrained] || (!msg.Cb? && es == [es[0]] && es[0].SendSignal?);
    if es != [] {
      assert es[1..] == [] && BodiesOf(es[0]) + [] == BodiesOf(es[0]);
    }
  }

  lemma EmitWeight(plant: Plant, g: Scales, w: World, i: Uid, body: Body, ns: set<Node>)
    requires SourceNode(i) in ns
    ensures Sum(plant, g, w.(net := Emit(plant.topo, w.net, i, body)), ns) <= Sum(plant, g, w, ns) + Emission(plant, g, i)
  {
    var n, copies := SourceNode(i), Copies(plant.topo, SourceNode(i), 0, Packet(i, body));
    OutboxGets(plant, g, w, n, copies, ns);
    CopiesWeigh(plant.topo, g, n, Packet(i, body));
    SameLoads(plant, g, w.(net := w.net.(out := w.net.out[n := Outbox(w.net, n) + copies])),
              w.(net := Emit(plant.topo, w.net, i, body)), ns);
  }

  lemma EmitLittle(plant: Plant, g: Scales, w: World, i: Uid, bodies: seq<Body>, ns: set<Node>)
    requires SourceNode(i) in ns && (bodies == [] || bodies == [bodies[0]])
    ensures Sum(plant, g, w.(net := EmitAll(plant.topo, w.net, i, bodies)), ns)
            <= Sum(plant, g, w, ns) + if bodies == [] then 0 else Emission(plant, g, i)
  {
    if bodies == [] {
      assert w.(net := w.net) == w;
    } else {
      assert bodies[1..] == [];
      EmitWeight(plant, g, w, i, bodies[0], ns);
    }
  }

  lemma SourceTookParts(plant: Plant, w: World, i: Uid) returns (bodies: seq<Body>, more: seq<C.Msg>)
    requires i in w.sources && SourceIn(w, i) != []
    ensures bodies == [] || (!SourceIn(w, i)[0].Cb? && bodies == [bodies[0]])
    ensures more == [] || more == [C.SourceDrained]
    ensures Alike(Heeded(plant, w, i, bodies, more), SourceTook(plant, w, i))
  {
    var es := S.OnMsg(w.sources[i], SourceIn(w, i)[0]).1;
    bodies, more := Bodies(es), Report(es);
    SaysLittle(w.sources[i], SourceIn(w, i)[0]);
    WithSourceParts(plant, w, Taken(w, i), i, S.OnMsg(w.sources[i], SourceIn(w, i)[0]).0, es);
  }

  function Report(es: seq<S.Effect>): seq<C.Msg> {
    if S.ReportDrained in es then [C.SourceDrained] else []
  }

  lemma WithSourceParts(plant: Plant, w: World, v: World, i: Uid, s: S.Source, es: seq<S.Effect>)
    requires SourceIn(w, i) != [] && v == w.(sourceIn := w.sourceIn[i := SourceIn(w, i)[1..]], heard := v.heard)
    ensures Alike(Heeded(plant, w, i, Bodies(es), Report(es)), WithSource(plant, v, i, s, es))
  {
  }

  lemma SourceReports(plant: Plant, g: Scales, w: World, i: Uid, more: seq<C.Msg>, ns: set<Node>)
    requires SourceNode(i) in ns && (more == [] || more == [C.SourceDrained])
    ensures var c := w.(connectorIn := if more == [] then w.connectorIn else w.connectorIn[i := ConnectorIn(w, i) + more]);
            Sum(plant, g, c, ns) <= Sum(plant, g, w, ns) + 4
  {
    if more == [] {
      assert w.(connectorIn := w.connectorIn) == w;
    } else {
      ConnectorGets(plant, g, w, i, C.SourceDrained, ns);
    }
  }

  /** `w` after source `i` took a message, apart from the source itself. */
  ghost function Heeded(plant: Plant, w: World, i: Uid, bodies: seq<Body>, more: seq<C.Msg>): World
    requires SourceIn(w, i) != []
  {
    w.(sourceIn := w.sourceIn[i := SourceIn(w, i)[1..]], net := EmitAll(plant.topo, w.net, i, bodies),
       connectorIn := if more == [] then w.connectorIn else w.connectorIn[i := ConnectorIn(w, i) + more])
  }

  lemma SourceSum(plant: Plant, g: Scales, w: World, i: Uid, bodies: seq<Body>, more: seq<C.Msg>, ns: set<Node>)
    requires SourceIn(w, i) != [] && SourceNode(i) in ns
    requires (bodies == [] || bodies == [bodies[0]]) && (more == [] || more == [C.SourceDrained])
    ensures Sum(plant, g, Heeded(plant, w, i, bodies, more), ns) + MailWeight(plant, g, i, SourceIn(w, i)[0])
            <= Sum(plant, g, w, ns) + 4 + if bodies == [] then 0 else Emission(plant, g, i)
  {
    var a := w.(sourceIn := w.sourceIn[i := SourceIn(w, i)[1..]]);
    SourceSheds(plant, g, w, i, ns);
    var b := a.(net := EmitAll(plant.topo, a.net, i, bodies));
    EmitLittle(plant, g, a, i, bodies, ns);
    SourceReports(plant, g, b, i, more, ns);
  }

  lemma HeededLess(plant: Plant, g: Scales, w: World, w': World, i: Uid, bodies: seq<Body>, more: seq<C.Msg>, ns: set<Node>)
    requires SourceIn(w, i) != [] && SourceNode(i) in ns && Alike(Heeded(plant, w, i, bodies, more), w')
    requires bodies == [] || (!SourceIn(w, i)[0].Cb? && bodies == [bodies[0]])
    requires more == [] || more == [C.SourceDrained]
    ensures Sum(plant, g, w', ns) < Sum(plant, g, w, ns)
  {
    SourceSum(plant, g, w, i, bodies, more, ns);
    SameLoads(plant, g, Heeded(plant, w, i, bodies, more), w', ns);
  }

  lemma SourceLess(plant: Plant, g: Scales, w: World, i: Uid, ns: set<Node>)
    requires i in w.sources && SourceIn(w, i) != [] && SourceNode(i) in ns
    ensures Sum(plant, g, SourceTook(plant, w, i), ns) < Sum(plant, g, w, ns)
  {
    var bodies, more := SourceTookParts(plant, w, i);
    HeededLess(plant, g, w, SourceTook(plant, w, i), i, bodies, more, ns);
  }

  // ----- a connector takes a message, and the flow takes an answer

  lemma ConnectorSheds(plant: Plant, g: Scales, w: World, i: Uid, ns: set<Node>)
    requires SourceNode(i) in ns && ConnectorIn(w, i) != []
    ensures var w' := w.(connectorIn := w.connectorIn[i := ConnectorIn(w, i)[1..]]);
            Sum(plant, g, w', ns) + OrderWeight(plant, g, i, ConnectorIn(w, i)[0]) == Sum(plant, g, w, ns)
  {
    LoadsChange(plant, g, w, w.(connectorIn := w.connectorIn[i := ConnectorIn(w, i)[1..]]), ns, SourceNode(i));
  }

  ghost function Tellings(g: Scales, k: Uid, msgs: seq<SinkControl>): nat {
    if msgs == [] then 0 else ItemWeight(g, SinkNode(k), Control(msgs[0])) + Tellings(g, k, msgs[1..])
  }

  lemma {:induction false} InjectWeight(plant: Plant, g: Scales, w: World, k: Uid, msgs: seq<SinkControl>, ns: set<Node>)
    requires SinkNode(k) in ns
    ensures Sum(plant, g, w.(net := InjectAll(w.net, k, msgs)), ns) <= Sum(plant, g, w, ns) + Tellings(g, k, msgs)
    decreases |msgs|
  {
    if msgs == [] {
      assert w.(net := w.net) == w;
    } else {
      InboxGets(plant, g, w, SinkNode(k), Control(msgs[0]), ns);
      InjectWeight(plant, g, w.(net := Inject(w.net, k, msgs[0])), k, msgs[1..], ns);
    }
  }

  /** What the effects of a message to connector `i` weigh. */
  ghost function Outcome(plant: Plant, g: Scales, i: Uid, es: seq<C.Effect>): nat {
    Orders(plant, g, i, ToSelf(es)) + Mails(plant, g, i, ToSource(es)) + Tellings(g, i, ToSink(es))
      + if C.AnswerDrain in es then 1 else 0
  }

  ghost function EffectWeight(plant: Plant, g: Scales, i: Uid, e: C.Effect): nat {
    match e
    case ToSource(m) => MailWeight(plant, g, i, m)
    case ToSink(m) => ItemWeight(g, SinkNode(i), Control(m))
    case ToSelf(m) => OrderWeight(plant, g, i, m)
    case AnswerDrain => 1
    case _ => 0
  }

  ghost function Effects(plant: Plant, g: Scales, i: Uid, es: seq<C.Effect>): nat {
    if es == [] then 0 else EffectWeight(plant, g, i, es[0]) + Effects(plant, g, i, es[1..])
  }

  lemma {:induction false} OutcomeIs(plant: Plant, g: Scales, i: Uid, es: seq<C.Effect>)
    ensures Outcome(plant, g, i, es) <= Effects(plant, g, i, es)
  {
    if es != [] {
      var e, rest := es[0], es[1..];
      OutcomeIs(plant, g, i, rest);
      assert es == [e] + rest;
      assert ([e] + rest)[1..] == rest;
      OutcomeFirst(plant, g, i, e, rest);
    }
  }

  lemma OutcomeFirst(plant: Plant, g: Scales, i: Uid, e: C.Effect, rest: seq<C.Effect>)
    ensures Outcome(plant, g, i, [e] + rest) <= EffectWeight(plant, g, i, e) + Outcome(plant, g, i, rest)
  {
    var es := [e] + rest;
    assert es[0] == e && es[1..] == rest;
    assert C.AnswerDrain in es <==> e == C.AnswerDrain || C.AnswerDrain in rest;
    if e.ToSource? {
      assert ToSource(es)[0] == e.source && ToSource(es)[1..] == ToSource(rest);
    }
    if e.ToSink? {
      assert ToSink(es)[0] == e.sink && ToSink(es)[1..] == ToSink(rest);
    }
    if e.ToSelf? {
      assert ToSelf(es)[0] == e.msg && ToSelf(es)[1..] == ToSelf(rest);
    }
  }

  lemma {:induction false} EffectsAppend(plant: Plant, g: Scales, i: Uid, a: seq<C.Effect>, b: seq<C.Effect>)
    ensures Effects(plant, g, i, a + b) == Effects(plant, g, i, a) + Effects(plant, g, i, b)
  {
    if a == [] {
      assert a + b == b;
    } else {
      EffectsAppend(plant, g, i, a[1..], b);
      assert (a + b)[1..] == a[1..] + b;
    }
  }

  lemma EffectsOne(plant: Plant, g: Scales, i: Uid, e: C.Effect)
    ensures Effects(plant, g, i, [e]) == EffectWeight(plant, g, i, e)
  {
    assert [e][1..] == [];
  }

  lemma DrainLight(plant: Plant, g: Scales, i: Uid, c: C.Connector)
    ensures Effects(plant, g, i, C.OnMsg(c, C.Drain).1) < OrderWeight(plant, g, i, C.Drain)
  {
    var e, es := if c.hasSource then C.ToSource(DrainSource) else C.ToSelf(C.SourceDrained), C.OnMsg(c, C.Drain).1;
    assert es == [] || es == [e] + [] || es == [e] + [C.AnswerDrain];
    EffectsAppend(plant, g, i, [e], []);
    EffectsAppend(plant, g, i, [e], [C.AnswerDrain]);
    EffectsOne(plant, g, i, e);
    EffectsOne(plant, g, i, C.AnswerDrain);
  }

  lemma ReportLight(plant: Plant, g: Scales, i: Uid, c: C.Connector, msg: C.Msg)
    requires msg == C.SourceDrained || msg == C.SinkDrained
    ensures Effects(plant, g, i, C.OnMsg(c, msg).1) < OrderWeight(plant, g, i, msg)
  {
    var es := C.OnMsg(c, msg).1;
    assert es == [] || es == [es[0]];
    if es != [] {
      EffectsOne(plant, g, i, es[0]);
    }
  }

  /** All other messages give at most one message for each part, not a request to drain, and answers. */
  lemma OtherLight(plant: Plant, g: Scales, i: Uid, c: C.Connector, msg: C.Msg)
    requires msg !in {C.Drain, C.SourceDrained, C.SinkDrained}
    ensures Effects(plant, g, i, C.OnMsg(c, msg).1) < OrderWeight(plant, g, i, msg)
  {
    var a, b, rest := Parted(c, msg);
    PartedLight(plant, g, i, a, b, rest);
  }

  lemma PartedLight(plant: Plant, g: Scales, i: Uid, a: seq<C.Effect>, b: seq<C.Effect>, rest: seq<C.Effect>)
    requires AtMostOne(a) && AtMostOne(b) && (a != [] ==> ForPart(a[0])) && (b != [] ==> ForPart(b[0]))
    requires a != [] && b != [] ==> a[0].ToSource? != b[0].ToSource?
    requires forall e :: e in rest ==> !ForPart(e) && !e.ToSelf? && !e.AnswerDrain?
    ensures Effects(plant, g, i, a + b + rest) <= 8 + Emission(plant, g, i) + g.forth(SinkNode(i))
  {
    EffectsAppend(plant, g, i, a + b, rest);
    EffectsAppend(plant, g, i, a, b);
    Weightless(plant, g, i, rest);
    if a != [] {
      EffectsOne(plant, g, i, a[0]);
    }
    if b != [] {
      EffectsOne(plant, g, i, b[0]);
    }
  }

  lemma {:induction false} Weightless(plant: Plant, g: Scales, i: Uid, es: seq<C.Effect>)
    requires forall e :: e in es ==> !ForPart(e) && !e.ToSelf? && !e.AnswerDrain?
    ensures Effects(plant, g, i, es) == 0
  {
    if es != [] {
      assert es[0] in es;
      Weightless(plant, g, i, es[1..]);
    }
  }

  predicate AtMostOne(es: seq<C.Effect>) {
    es == [] || (es == [es[0]])
  }

  predicate ForPart(e: C.Effect) {
    e.ToSource? || e.ToSink?
  }

  lemma Parted(c: C.Connector, msg: C.Msg) returns (a: seq<C.Effect>, b: seq<C.Effect>, rest: seq<C.Effect>)
    requires msg !in {C.Drain, C.SourceDrained, C.SinkDrained}
    ensures C.OnMsg(c, msg).1 == a + b + rest && AtMostOne(a) && AtMostOne(b)
    ensures (a != [] ==> ForPart(a[0])) && (b != [] ==> ForPart(b[0]))
            && (a != [] && b != [] ==> a[0].ToSource? != b[0].ToSource?)
    ensures forall e :: e in rest ==> !ForPart(e) && !e.ToSelf? && !e.AnswerDrain?
  {
    PartsFirst(c, msg);
    a, b, rest := Split(C.OnMsg(c, msg).1);
  }

  /** The messages for the two parts come first. */
  ghost predicate PartsAhead(es: seq<C.Effect>) {
    && (forall j :: 0 <= j < |es| ==> !es[j].ToSelf? && !es[j].AnswerDrain? && (j >= 2 ==> !ForPart(es[j])))
    && (|es| >= 2 && ForPart(es[1]) ==> ForPart(es[0]) && es[0].ToSource? != es[1].ToSource?)
  }

  lemma Split(es: seq<C.Effect>) returns (a: seq<C.Effect>, b: seq<C.Effect>, rest: seq<C.Effect>)
    requires PartsAhead(es)
    ensures es == a + b + rest && AtMostOne(a) && AtMostOne(b)
    ensures (a != [] ==> ForPart(a[0])) && (b != [] ==> ForPart(b[0]))
            && (a != [] && b != [] ==> a[0].ToSource? != b[0].ToSource?)
    ensures forall e :: e in rest ==> !ForPart(e) && !e.ToSelf? && !e.AnswerDrain?
  {
    a := if |es| > 0 && ForPart(es[0]) then [es[0]] else [];
    b := if |a| == 1 && |es| > 1 && ForPart(es[1]) then [es[1]] else [];
    rest := es[|a| + |b|..];
  }

  lemma PartsFirst(c: C.Connector, msg: C.Msg)
    requires msg !in {C.Drain, C.SourceDrained, C.SinkDrained}
    ensures PartsAhead(C.OnMsg(c, msg).1)
  {
    if msg.Reconnect? {
      ReconnectPartsFirst(c, msg.connected, msg.willRetry);
    }
  }

  lemma ReconnectPartsFirst(c: C.Connector, connected: bool, willRetry: bool)
    ensures PartsAhead(C.OnReconnect(c, connected, willRetry).1)
  {
  }

  lemma Answered(plant: Plant, g: Scales, w: World, i: Uid, answers: bool, ns: set<Node>)
    ensures var w' := w.(results := if answers then w.results + [i] else w.results);
            Sum(plant, g, w', ns) <= Sum(plant, g, w, ns) + if answers then 1 else 0
  {
    LoadsResults(plant, g, w, w.(results := if answers then w.results + [i] else w.results), ns);
  }

  lemma {:induction false} LoadsResults(plant: Plant, g: Scales, w: World, w': World, ns: set<Node>)
    requires w' == w.(results := w'.results)
    ensures Loads(plant, g, w', ns) == Loads(plant, g, w, ns)
    decreases |ns|
  {
    if ns != {} {
      var n :| n in ns;
      SameLoad(plant, g, w, w', n);
      LoadsPick(plant, g, w, ns, n);
      LoadsPick(plant, g, w', ns, n);
      LoadsResults(plant, g, w, w', ns - {n});
    }
  }

  lemma ConnectorLess(plant: Plant, g: Scales, w: World, i: Uid, ns: set<Node>)
    requires i in w.connectors && ConnectorIn(w, i) != [] && SourceNode(i) in ns && SinkNode(i) in ns
    ensures Sum(plant, g, ConnectorTook(w, i), ns) < Sum(plant, g, w, ns)
  {
    var c, msg := w.connectors[i], ConnectorIn(w, i)[0];
    MessageLight(plant, g, i, c, msg);
    ConnectorSum(plant, g, w, i, C.OnMsg(c, msg).1, ns);
  }

  lemma MessageLight(plant: Plant, g: Scales, i: Uid, c: C.Connector, msg: C.Msg)
    ensures Outcome(plant, g, i, C.OnMsg(c, msg).1) < OrderWeight(plant, g, i, msg)
  {
    OutcomeIs(plant, g, i, C.OnMsg(c, msg).1);
    if msg == C.Drain {
      DrainLight(plant, g, i, c);
    } else if msg == C.SourceDrained || msg == C.SinkDrained {
      ReportLight(plant, g, i, c, msg);
    } else {
      OtherLight(plant, g, i, c, msg);
    }
  }

  /** `w` after connector `i` took a message, apart from the connector itself. */
  ghost function Handed(w: World, i: Uid, es: seq<C.Effect>): World
    requires ConnectorIn(w, i) != []
  {
    w.(connectorIn := w.connectorIn[i := ConnectorIn(w, i)[1..] + ToSelf(es)],
       sourceIn := w.sourceIn[i := SourceIn(w, i) + ToSource(es)],
       net := InjectAll(w.net, i, ToSink(es)), results := if C.AnswerDrain in es then w.results + [i] else w.results)
  }

  lemma SelfWeight(plant: Plant, g: Scales, w: World, i: Uid, ms: seq<C.Msg>, ns: set<Node>)
    requires ConnectorIn(w, i) != [] && SourceNode(i) in ns
    ensures Sum(plant, g, w.(connectorIn := w.connectorIn[i := ConnectorIn(w, i)[1..] + ms]), ns)
            + OrderWeight(plant, g, i, ConnectorIn(w, i)[0])
            == Sum(plant, g, w, ns) + Orders(plant, g, i, ms)
  {
    var a := w.(connectorIn := w.connectorIn[i := ConnectorIn(w, i)[1..]]);
    ConnectorSheds(plant, g, w, i, ns);
    ConnectorGetsAll(plant, g, a, i, ms, ns);
    D.Twice(w.connectorIn, i, ConnectorIn(w, i)[1..], ConnectorIn(w, i)[1..] + ms);
  }

  lemma HandedWeight(plant: Plant, g: Scales, w: World, i: Uid, es: seq<C.Effect>, ns: set<Node>)
    requires ConnectorIn(w, i) != [] && SourceNode(i) in ns && SinkNode(i) in ns
    ensures Sum(plant, g, Handed(w, i, es), ns) + OrderWeight(plant, g, i, ConnectorIn(w, i)[0])
            <= Sum(plant, g, w, ns) + Outcome(plant, g, i, es)
  {
    var b := w.(connectorIn := w.connectorIn[i := ConnectorIn(w, i)[1..] + ToSelf(es)]);
    SelfWeight(plant, g, w, i, ToSelf(es), ns);
    var c := b.(sourceIn := b.sourceIn[i := SourceIn(b, i) + ToSource(es)]);
    SourceGetsAll(plant, g, b, i, ToSource(es), ns);
    var d := c.(net := InjectAll(c.net, i, ToSink(es)));
    InjectWeight(plant, g, c, i, ToSink(es), ns);
    Answered(plant, g, d, i, C.AnswerDrain in es, ns);
  }

  lemma ConnectorSum(plant: Plant, g: Scales, w: World, i: Uid, es: seq<C.Effect>, ns: set<Node>)
    requires i in w.connectors && ConnectorIn(w, i) != [] && es == C.OnMsg(w.connectors[i], ConnectorIn(w, i)[0]).1
    requires SourceNode(i) in ns && SinkNode(i) in ns
    ensures Sum(plant, g, ConnectorTook(w, i), ns) + OrderWeight(plant, g, i, ConnectorIn(w, i)[0])
            <= Sum(plant, g, w, ns) + Outcome(plant, g, i, es)
  {
    HandedWeight(plant, g, w, i, es, ns);
    SameLoads(plant, g, Handed(w, i, es), ConnectorTook(w, i), ns);
  }

  lemma FlowLess(plant: Plant, g: Scales, w: World, ns: set<Node>)
    requires w.results != []
    ensures Sum(plant, g, FlowTook(w), ns) < Sum(plant, g, w, ns)
  {
    var mid := w.(results := w.results[1..]);
    LoadsResults(plant, g, w, mid, ns);
    SameLoads(plant, g, mid, FlowTook(w), ns);
  }

  // ----- every step without input takes weight away

  /** The tasks whose load a step may change. */
  ghost function Around(plant: Plant, w: World, step: Step): set<Node>
    requires Enabled(plant, w, step)
  {
    match step
    case SourceTakes(i) => {SourceNode(i)}
    case Delivers(n) => {n, Outbox(w.net, n)[0].0}
    case PipeForwards(p) => {PipeNode(p)}
    case PipeReturns(p, takers) => {PipeNode(p)} + set t | t in takers
    case SinkTakes(k, _, _, _) => {SinkNode(k), SourceNode(k)} + set t | t in Pipes(plant, k)
    case ConnectorTakes(i) => {SourceNode(i), SinkNode(i)}
    case _ => {}
  }

  lemma StepSum(plant: Plant, g: Scales, w: World, step: Step, ns: set<Node>)
    requires Weighs(plant, g) && Enabled(plant, w, step) && Internal(step) && Around(plant, w, step) <= ns
    requires step.Delivers? ==> !step.n.SinkNode?
    ensures Sum(plant, g, Apply(plant, w, step), ns) < Sum(plant, g, w, ns)
  {
    match step
    case SourceTakes(i) => SourceLess(plant, g, w, i, ns);
    case Delivers(n) => DeliverLess(plant, g, w, n, ns);
    case PipeForwards(p) => ForwardLess(plant, g, w, p, ns);
    case PipeReturns(p, takers) => ReturnLess(plant, g, w, p, takers, ns);
    case SinkTakes(k, o, transactional, autoAck) => SinkLess(plant, g, w, k, o, transactional, autoAck, ns);
    case ConnectorTakes(i) => ConnectorLess(plant, g, w, i, ns);
    case FlowTakes => FlowLess(plant, g, w, ns);
  }

  lemma StepLess(plant: Plant, g: Scales, w: World, step: Step)
    requires Weighs(plant, g) && Enabled(plant, w, step) && Internal(step)
    requires step.Delivers? ==> !step.n.SinkNode?
    ensures Total(plant, g, Apply(plant, w, step)) < Total(plant, g, w)
  {
    var w' := Apply(plant, w, step);
    var ns := Holders(w) + Holders(w') + Around(plant, w, step);
    StepSum(plant, g, w, step, ns);
    TotalIs(plant, g, w, ns);
    TotalIs(plant, g, w', ns);
  }

  lemma NotFromSinks(plant: Plant, w: World, sources: set<Uid>, n: Node)
    requires WellFormed(plant.topo) && Sourced(plant.topo, sources, w.net) && Outbox(w.net, n) != []
    ensures !n.SinkNode?
  {
    assert Outbox(w.net, n)[0] in Outbox(w.net, n);
    assert MayFeed(n, Outbox(w.net, n)[0].0);
  }

  lemma MoveLess(plant: Plant, g: Scales, run: Run, n: nat)
    requires Weighs(plant, g) && WellFormed(plant.topo) && IsRun(plant, run) && n < |run.steps| && Internal(run.steps[n])
    ensures Total(plant, g, run.states[n + 1]) < Total(plant, g, run.states[n])
  {
    assert Moves(plant, run, n);
    AlwaysSourced(plant, run, n);
    if run.steps[n].Delivers? {
      NotFromSinks(plant, run.states[n], run.states[n].sources.Keys, run.steps[n].n);
    }
    StepLess(plant, g, run.states[n], run.steps[n]);
  }

  /** Between states `j` and `n` there is no new input. */
  ghost predicate Inward(run: Run, j: nat, n: nat)
    requires n <= |run.steps|
  {
    forall i :: j <= i < n ==> Internal(run.steps[i])
  }

  lemma {:induction false} Descent(totals: seq<nat>)
    requires totals != [] && forall i :: 0 <= i < |totals| - 1 ==> totals[i + 1] < totals[i]
    ensures |totals| - 1 <= totals[0]
  {
    if |totals| > 1 {
      Descent(totals[1..]);
    }
  }

  lemma RunLess(plant: Plant, g: Scales, run: Run, j: nat, n: nat)
    requires Weighs(plant, g) && WellFormed(plant.topo) && IsRun(plant, run) && j <= n < |run.states| && Inward(run, j, n)
    ensures n - j <= Total(plant, g, run.states[j])
  {
    var totals := seq<nat>(n - j + 1, i requires 0 <= i <= n - j => Total(plant, g, run.states[j + i]));
    forall i | 0 <= i < n - j
      ensures totals[i + 1] < totals[i]
    {
      MoveLess(plant, g, run, j + i);
    }
    Descent(totals);
  }

  // ----- weights exist where pipelines are not linked in a circle

  ghost predicate Path(topo: Topology, nodes: seq<Node>) {
    |nodes| >= 2 && forall i :: 0 < i < |nodes| ==> nodes[i] in Outs(topo, nodes[i - 1])
  }

  ghost predicate Leads(topo: Topology, n: Node, d: Node) {
    exists nodes :: Path(topo, nodes) && nodes[0] == n && nodes[|nodes| - 1] == d
  }

  /** Some task can be reached from itself. */
  ghost predicate Circular(topo: Topology) {
    exists n :: Leads(topo, n, n)
  }

  ghost function Below(topo: Topology, n: Node): set<Node> {
    set d | d in Mentioned(topo) && Leads(topo, n, d)
  }

  lemma LinkLeads(topo: Topology, n: Node, d: Node)
    requires d in Outs(topo, n)
    ensures Leads(topo, n, d) && d in Mentioned(topo)
  {
    assert Path(topo, [n, d]);
    var i := At(Outs(topo, n), d);
    assert topo.outs[n][i] == d;
  }

  lemma LeadsOn(topo: Topology, n: Node, d: Node, e: Node)
    requires d in Outs(topo, n) && Leads(topo, d, e)
    ensures Leads(topo, n, e)
  {
    var nodes :| Path(topo, nodes) && nodes[0] == d && nodes[|nodes| - 1] == e;
    var longer := [n] + nodes;
    forall i | 0 < i < |longer|
      ensures longer[i] in Outs(topo, longer[i - 1])
    {
      if i > 1 {
        assert nodes[i - 1] in Outs(topo, nodes[(i - 1) - 1]);
      }
    }
    assert Path(topo, longer);
  }

  lemma Downhill(topo: Topology, n: Node, d: Node)
    requires !Circular(topo) && d in Outs(topo, n)
    ensures |Below(topo, d)| < |Below(topo, n)|
  {
    LinkLeads(topo, n, d);
    forall e | e in Below(topo, d)
      ensures e in Below(topo, n) - {d}
    {
      LeadsOn(topo, n, d, e);
    }
    F.SubsetCount(Below(topo, d), Below(topo, n) - {d});
  }

  /** How far a task is from the tasks with most others below them. */
  ghost function Depth(topo: Topology, n: Node): int {
    |Mentioned(topo)| - |Below(topo, n)|
  }

  lemma Deep(topo: Topology, n: Node)
    ensures Depth(topo, n) >= 0
  {
    F.SubsetCount(Below(topo, n), Mentioned(topo));
  }

  /** What contraflow for a task may still lead to: itself, and what it leads to at the tasks before. */
  ghost function BackOf(plant: Plant, n: Node): nat
    requires Mirrored(plant) && !Circular(plant.topo)
    decreases Depth(plant.topo, n), 1, 0
  {
    if n.PipeNode? then 1 + BackFrom(plant, n.pid, Inputs(plant, n.pid)) else if n.SourceNode? then 5 else 0
  }

  ghost function BackFrom(plant: Plant, p: nat, nodes: seq<Node>): nat
    requires Mirrored(plant) && !Circular(plant.topo) && forall n :: n in nodes ==> n in Inputs(plant, p)
    decreases Depth(plant.topo, PipeNode(p)), 0, |nodes|
  {
    if nodes == [] then 0
    else
      assert PipeNode(p) in Outs(plant.topo, nodes[0]);
      Downhill(plant.topo, nodes[0], PipeNode(p));
      Deep(plant.topo, nodes[0]);
      BackOf(plant, nodes[0]) + BackFrom(plant, p, nodes[1..])
  }

  ghost function BackSum(plant: Plant, nodes: seq<Node>): nat
    requires Mirrored(plant) && !Circular(plant.topo)
  {
    if nodes == [] then 0 else BackOf(plant, nodes[0]) + BackSum(plant, nodes[1..])
  }

  /** What a message for a task may still lead to: itself, and what its copies lead to at the tasks behind. */
  ghost function ForthOf(plant: Plant, n: Node): nat
    requires Mirrored(plant) && !Circular(plant.topo)
    decreases |Below(plant.topo, n)|, 1, 0
  {
    if n.PipeNode? then 1 + ForthFrom(plant, n, Outs(plant.topo, n))
    else if n.SinkNode? then 3 + 3 * BackSum(plant, Pipes(plant, n.uid))
    else 0
  }

  ghost function ForthFrom(plant: Plant, n: Node, nodes: seq<Node>): nat
    requires Mirrored(plant) && !Circular(plant.topo) && forall d :: d in nodes ==> d in Outs(plant.topo, n)
    decreases |Below(plant.topo, n)|, 0, |nodes|
  {
    if nodes == [] then 0
    else
      Downhill(plant.topo, n, nodes[0]);
      1 + ForthOf(plant, nodes[0]) + ForthFrom(plant, n, nodes[1..])
  }

  ghost function ScalesOf(plant: Plant): Scales
    requires Mirrored(plant) && !Circular(plant.topo)
  {
    Scales(n => ForthOf(plant, n), n => BackOf(plant, n))
  }

  lemma {:induction false} ForthSame(plant: Plant, n: Node, nodes: seq<Node>)
    requires Mirrored(plant) && !Circular(plant.topo) && forall d :: d in nodes ==> d in Outs(plant.topo, n)
    ensures ForthAll(ScalesOf(plant), nodes) == ForthFrom(plant, n, nodes)
    decreases |nodes|
  {
    if nodes != [] {
      ForthSame(plant, n, nodes[1..]);
    }
  }

  lemma {:induction false} BackSame(plant: Plant, p: nat, nodes: seq<Node>)
    requires Mirrored(plant) && !Circular(plant.topo) && forall n :: n in nodes ==> n in Inputs(plant, p)
    ensures BackAll(ScalesOf(plant), nodes) == BackFrom(plant, p, nodes)
    decreases |nodes|
  {
    if nodes != [] {
      BackSame(plant, p, nodes[1..]);
    }
  }

  lemma {:induction false} BackSumSame(plant: Plant, nodes: seq<Node>)
    requires Mirrored(plant) && !Circular(plant.topo)
    ensures BackAll(ScalesOf(plant), nodes) == BackSum(plant, nodes)
    decreases |nodes|
  {
    if nodes != [] {
      BackSumSame(plant, nodes[1..]);
    }
  }

  lemma ScalesWeigh(plant: Plant)
    requires Mirrored(plant) && !Circular(plant.topo)
    ensures Weighs(plant, ScalesOf(plant))
  {
    var g := ScalesOf(plant);
    forall p ensures g.forth(PipeNode(p)) >= 1 + ForthAll(g, Outs(plant.topo, PipeNode(p))) {
      ForthSame(plant, PipeNode(p), Outs(plant.topo, PipeNode(p)));
    }
    forall p ensures g.back(PipeNode(p)) >= 1 + BackAll(g, Inputs(plant, p)) {
      BackSame(plant, p, Inputs(plant, p));
    }
    forall k ensures g.forth(SinkNode(k)) >= 3 + 3 * BackAll(g, Pipes(plant, k)) {
      BackSumSame(plant, Pipes(plant, k));
    }
  }

  // ----- the results

  /** No run makes more than `bound` steps after state `w` without new input. */
  ghost predicate Bounds(plant: Plant, w: World, bound: nat) {
    forall run, j: nat, n: nat ::
      IsRun(plant, run) && j <= n < |run.states| && run.states[j] == w && Inward(run, j, n) ==> n - j <= bound
  }

  /**
   Where tasks are not linked in a circle, each state has a bound on the number of steps that the tasks can
   still make without new input, in whatever order they make them.
   */
  lemma EveryRunEnds(plant: Plant, w: World) returns (bound: nat)
    requires Mirrored(plant) && WellFormed(plant.topo) && !Circular(plant.topo)
    ensures Bounds(plant, w, bound)
  {
    var g := ScalesOf(plant);
    ScalesWeigh(plant);
    bound := Total(plant, g, w);
    forall run, j: nat, n: nat | IsRun(plant, run) && j <= n < |run.states| && run.states[j] == w && Inward(run, j, n)
      ensures n - j <= bound
    {
      RunLess(plant, g, run, j, n);
    }
  }

  lemma InternalKeepsAsked(plant: Plant, w: World, step: Step)
    requires Enabled(plant, w, step) && Internal(step)
    ensures Apply(plant, w, step).asked == w.asked
  {
  }

  /** No source streams asynchronously. */
  ghost predicate NoStreams(w: World) {
    forall i :: i in w.sources ==> !w.sources[i].isAsync
  }

  lemma StepNoStreams(plant: Plant, w: World, step: Step)
    requires Enabled(plant, w, step) && Internal(step) && NoStreams(w)
    ensures NoStreams(Apply(plant, w, step))
  {
    if step.SourceTakes? {
      TakesNoStreams(plant, w, step.i);
    } else {
      OtherFrame(plant, w, step);
    }
  }

  lemma TakesNoStreams(plant: Plant, w: World, i: Uid)
    requires i in w.sources && SourceIn(w, i) != [] && NoStreams(w)
    ensures NoStreams(SourceTook(plant, w, i))
  {
    SameKind(w.sources[i], SourceIn(w, i)[0]);
  }

  lemma SameKind(s: S.Source, msg: SourceMsg)
    ensures S.OnMsg(s, msg).0.isAsync == s.isAsync
  {
  }

  /** `more` goes on where `run` is at state `n`, without new input. */
  ghost predicate Continues(run: Run, n: nat, more: Run) {
    && Shaped(run) && Shaped(more) && n <= |run.steps| && n <= |more.steps|
    && more.states[..n + 1] == run.states[..n + 1] && more.steps[..n] == run.steps[..n] && Inward(more, n, |more.steps|)
  }

  lemma CutRun(plant: Plant, run: Run, m: nat, n: nat) returns (more: Run)
    requires Undisturbed(plant, run, m, n)
    ensures Undisturbed(plant, more, m, n) && Continues(run, n, more) && |more.steps| == n
  {
    more := Run(run.states[..n + 1], run.steps[..n]);
    forall i | 0 <= i < n
      ensures Moves(plant, more, i)
    {
      assert Moves(plant, run, i);
    }
  }

  ghost function Last(run: Run): World
    requires Shaped(run)
  {
    run.states[|run.steps|]
  }

  lemma OneMore(plant: Plant, run: Run, step: Step) returns (more: Run)
    requires IsRun(plant, run) && Enabled(plant, Last(run), step) && Internal(step)
    ensures IsRun(plant, more) && |more.steps| == |run.steps| + 1 && Continues(run, |run.steps|, more)
    ensures Last(more) == Apply(plant, Last(run), step) && more.steps == run.steps + [step]
  {
    var n := |run.steps|;
    more := Run(run.states + [Apply(plant, run.states[n], step)], run.steps + [step]);
    forall i | 0 <= i < |more.steps|
      ensures Moves(plant, more, i)
    {
      if i < n {
        assert Moves(plant, run, i);
      }
    }
  }

  lemma Advances(plant: Plant, g: Scales, run: Run, m: nat, step: Step) returns (more: Run)
    requires Weighs(plant, g) && Undisturbed(plant, run, m, |run.steps|) && Enabled(plant, Last(run), step) && Internal(step)
    ensures Undisturbed(plant, more, m, |more.steps|) && |more.steps| == |run.steps| + 1 && Continues(run, |run.steps|, more)
    ensures Last(more).asked == Last(run).asked && Last(more).connectors.Keys == Last(run).connectors.Keys
    ensures NoStreams(Last(run)) ==> NoStreams(Last(more))
    ensures Total(plant, g, Last(more)) < Total(plant, g, Last(run))
  {
    more := OneMore(plant, run, step);
    var n := |run.steps|;
    StillUp(plant, run, more, m);
    assert more.states[..n + 1][n] == run.states[..n + 1][n];
    MoveLess(plant, g, more, n);
    InternalKeepsAsked(plant, run.states[n], step);
    StepKeys(plant, run.states[n], step);
    if NoStreams(run.states[n]) {
      StepNoStreams(plant, run.states[n], step);
    }
  }

  lemma StillUp(plant: Plant, run: Run, more: Run, m: nat)
    requires Undisturbed(plant, run, m, |run.steps|) && IsRun(plant, more) && Continues(run, |run.steps|, more)
             && |more.steps| == |run.steps| + 1
    ensures Undisturbed(plant, more, m, |more.steps|)
  {
    var n := |run.steps|;
    assert more.states[..n + 1][m] == run.states[..n + 1][m];
    forall j | m <= j < n + 1
      ensures !more.steps[j].Operator?
    {
      if j < n {
        assert more.steps[..n][j] == run.steps[..n][j];
      }
    }
  }

  lemma {:induction false} GoesOn(plant: Plant, g: Scales, run: Run, m: nat) returns (more: Run)
    requires Weighs(plant, g) && Undisturbed(plant, run, m, |run.steps|)
    ensures Undisturbed(plant, more, m, |more.steps|) && Continues(run, |run.steps|, more) && Stuck(plant, Last(more))
    ensures Last(more).asked == Last(run).asked && Last(more).connectors.Keys == Last(run).connectors.Keys
    ensures NoStreams(Last(run)) ==> NoStreams(Last(more))
    decreases Total(plant, g, Last(run))
  {
    if step :| Internal(step) && Enabled(plant, Last(run), step) {
      var next := Advances(plant, g, run, m, step);
      more := GoesOn(plant, g, next, m);
      ContinuesOn(run, next, more);
    } else {
      more := run;
    }
  }

  lemma ContinuesOn(run: Run, next: Run, more: Run)
    requires Continues(run, |run.steps|, next) && Continues(next, |next.steps|, more) && |next.steps| == |run.steps| + 1
    ensures Continues(run, |run.steps|, more)
  {
    var n := |run.steps|;
    assert more.states[..n + 1] == more.states[..n + 2][..n + 1] && more.steps[..n] == more.steps[..n + 1][..n];
    assert next.states[..n + 2] == next.states && next.steps[..n + 1] == next.steps;
    assert Internal(next.steps[n]) && more.steps[n] == more.steps[..n + 1][n];
  }

  /**
   Draining always gets done: from every state after the flow was asked to drain, whatever the tasks have
   done before, all that they still do without new input ends within a bound. At the end the flow has
   told that it is drained, unless a source that streams asynchronously waits for its streams.
   */
  lemma DrainingEnds(plant: Plant, run: Run, m: nat, n: nat) returns (more: Run, bound: nat)
    requires Undisturbed(plant, run, m, n) && !Circular(plant.topo)
    requires var w := run.states[n]; w.connectors != map[] && w.asked == Some(w.connectors.Keys)
    ensures Bounds(plant, run.states[n], bound)
    ensures Undisturbed(plant, more, m, |more.steps|) && Continues(run, n, more) && |more.steps| - n <= bound
    ensures Stuck(plant, Last(more)) && (NoStreams(run.states[n]) || AllCalled(Last(more)) ==> Last(more).told)
  {
    var cut := CutRun(plant, run, m, n);
    ScalesWeigh(plant);
    more := GoesOn(plant, ScalesOf(plant), cut, m);
    bound := EveryRunEnds(plant, run.states[n]);
    assert more.states[..n + 1][n] == run.states[..n + 1][n];
    StuckMeansTold(plant, more, m, |more.steps|);
  }
}
