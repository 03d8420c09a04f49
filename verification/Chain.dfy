/**
 Chains of processors. Each processor is a state machine that turns one piece of data into any number
 of pieces, or fails; a chain runs every piece through the first processor, then all results through
 the second, and so on. Pre- and postprocessors are chained by the same code.
 */
module Chains {
  import opened Bytes
  import opened Wrappers

  type Pieces = Option<seq<Binary>>

  datatype Machine<!S> = Machine(process: (S, Binary) -> (S, Pieces), finish: (S, Option<Binary>) -> (S, Pieces))

  function Join(done: seq<Binary>, more: Pieces): Pieces {
    if more.None? then None else Some(done + more.value)
  }

  /** One processor, all pieces; stops at the first error. */
  function Through<S>(m: Machine<S>, s: S, ds: seq<Binary>): (S, Pieces)
    decreases |ds|
  {
    if ds == [] then (s, Some([]))
    else
      var (t, r) := m.process(s, ds[0]);
      if r.None? then (t, None)
      else
        var (u, more) := Through(m, t, ds[1..]);
        (u, Join(r.value, more))
  }

  /** All processors. On an error the later ones are not reached. */
  function Chain<S>(m: Machine<S>, ss: seq<S>, ds: seq<Binary>): (seq<S>, Pieces)
    decreases |ss|
  {
    if ss == [] then ([], Some(ds))
    else
      var (s, r) := Through(m, ss[0], ds);
      if r.None? then ([s] + ss[1..], None)
      else
        var (ts, out) := Chain(m, ss[1..], r.value);
        ([s] + ts, out)
  }

  // ----- the loops

  lemma JoinNothing(p: Pieces)
    ensures Join([], p) == p
  {
    if p.Some? {
      assert [] + p.value == p.value;
    }
  }

  lemma JoinJoin(a: seq<Binary>, b: seq<Binary>, p: Pieces)
    ensures Join(a, Join(b, p)) == Join(a + b, p)
  {
    if p.Some? {
      Assoc(a, b, p.value);
    }
  }

  /** The inner loop. */
  method RunThrough<S>(m: Machine<S>, s: S, ds: seq<Binary>) returns (t: S, r: Pieces)
    ensures (t, r) == Through(m, s, ds)
  {
    t := s;
    var out := [];
    ghost var whole := Through(m, s, ds);
    JoinNothing(whole.1);
    assert ds[0..] == ds;
    for i := 0 to |ds|
      invariant whole == (Through(m, t, ds[i..]).0, Join(out, Through(m, t, ds[i..]).1))
    {
      var (next, one) := m.process(t, ds[i]);
      assert ds[i..][1..] == ds[i + 1..];
      t := next;
      if one.None? {
        return t, None;
      }
      JoinJoin(out, one.value, Through(m, t, ds[i + 1..]).1);
      out := out + one.value;
    }
    assert out + [] == out;
    r := Some(out);
  }

  function Prefixed<S>(before: seq<S>, o: (seq<S>, Pieces)): (seq<S>, Pieces) {
    (before + o.0, o.1)
  }

  lemma PrefixedTwice<S>(a: seq<S>, b: seq<S>, o: (seq<S>, Pieces))
    ensures Prefixed(a, Prefixed(b, o)) == Prefixed(a + b, o)
  {
    Assoc(a, b, o.0);
  }

  /** Both loops; `ts` are the processors as the loops leave them. */
  method RunChain<S>(m: Machine<S>, ss: seq<S>, data: seq<Binary>) returns (ts: seq<S>, r: Pieces)
    ensures (ts, r) == Chain(m, ss, data)
  {
    ts := [];
    var cur := data;
    ghost var whole := Chain(m, ss, data);
    assert [] + whole.0 == whole.0 && ss[0..] == ss;
    for i := 0 to |ss|
      invariant whole == Prefixed(ts, Chain(m, ss[i..], cur))
    {
      var t, one := RunThrough(m, ss[i], cur);
      assert ss[i..][1..] == ss[i + 1..];
      if one.None? {
        return ts + ([t] + ss[i + 1..]), None;
      }
      PrefixedTwice(ts, [t], Chain(m, ss[i + 1..], one.value));
      ts, cur := ts + [t], one.value;
    }
    assert ts + [] == ts;
    r := Some(cur);
  }

  method RunFinish<S>(m: Machine<S>, ss: seq<S>) returns (ts: seq<S>, r: Pieces)
    ensures (ts, r) == Finish(m, ss)
  {
    if ss == [] {
      return [], Some([]);
    }
    var (s, first) := m.finish(ss[0], None);
    if first.None? {
      return [s] + ss[1..], None;
    }
    ts, r := RunChain(Finishing(m), ss[1..], first.value);
    ts := [s] + ts;
  }

  /** While a chain is finished, later processors get each piece with the demand to finish. */
  function Finishing<S>(m: Machine<S>): Machine<S> {
    Machine((s: S, d: Binary) => m.finish(s, Some(d)), m.finish)
  }

  /** Only the first processor is always told to finish; each other one is told once for each piece that reaches it. */
  function Finish<S>(m: Machine<S>, ss: seq<S>): (seq<S>, Pieces) {
    if ss == [] then ([], Some([]))
    else
      var (s, r) := m.finish(ss[0], None);
      if r.None? then ([s] + ss[1..], None)
      else Prefixed([s], Chain(Finishing(m), ss[1..], r.value))
  }

  // ----- a chain of state machines is a state machine

  lemma {:induction false} ThroughAppend<S>(m: Machine<S>, s: S, a: seq<Binary>, b: seq<Binary>)
    ensures var (t, ra) := Through(m, s, a);
            Through(m, s, a + b)
            == if ra.None? then (t, None) else (Through(m, t, b).0, Join(ra.value, Through(m, t, b).1))
    decreases |a|
  {
    if a == [] {
      assert a + b == b;
      JoinNothing(Through(m, s, b).1);
    } else {
      var (t, r) := m.process(s, a[0]);
      assert (a + b)[1..] == a[1..] + b;
      if r.Some? {
        ThroughAppend(m, t, a[1..], b);
        var (u, ra) := Through(m, t, a[1..]);
        if ra.Some? {
          JoinJoin(r.value, ra.value, Through(m, u, b).1);
        }
      }
    }
  }

  /**
   Feeding two batches one after the other is the same as feeding them at once: it succeeds if and only
   if both batches do, and then leaves the same states and gives the same data in the same order. So it
   does not matter that a chain works stage by stage and not piece by piece.
   */
  lemma {:induction false} ChainAppend<S>(m: Machine<S>, ss: seq<S>, a: seq<Binary>, b: seq<Binary>)
    ensures var (ts, ra) := Chain(m, ss, a);
            var (us, rb) := Chain(m, ts, b);
            var both := Chain(m, ss, a + b);
            && |ts| == |ss|
            && (both.1.Some? <==> ra.Some? && rb.Some?)
            && (both.1.Some? ==> both == (us, Some(ra.value + rb.value)))
    decreases |ss|
  {
    if ss != [] {
      var (s, ra) := Through(m, ss[0], a);
      ThroughAppend(m, ss[0], a, b);
      if ra.Some? {
        var ts := Chain(m, ss[1..], ra.value).0;
        assert ([s] + ts)[1..] == ts;
        var rb := Through(m, s, b).1;
        ChainAppend(m, ss[1..], ra.value, if rb.Some? then rb.value else []);
      }
    }
  }

  /** Each piece goes through all processors before the next one does. */
  function PieceByPiece<S>(m: Machine<S>, ss: seq<S>, ds: seq<Binary>): (seq<S>, Pieces)
    decreases |ds|
  {
    if ds == [] then (ss, Some([]))
    else
      var (ts, r) := Chain(m, ss, [ds[0]]);
      if r.None? then (ts, None)
      else
        var (us, more) := PieceByPiece(m, ts, ds[1..]);
        (us, Join(r.value, more))
  }

  /** Stage by stage and piece by piece give the same data and leave the same states, or both fail. */
  lemma {:induction false} OrderDoesNotMatter<S>(m: Machine<S>, ss: seq<S>, ds: seq<Binary>)
    ensures var a, b := Chain(m, ss, ds), PieceByPiece(m, ss, ds);
            a.1.Some? == b.1.Some? && (a.1.Some? ==> a == b)
    decreases |ds|
  {
    if ds == [] {
      SilenceStays(m, ss);
    } else {
      ChainAppend(m, ss, [ds[0]], ds[1..]);
      assert [ds[0]] + ds[1..] == ds;
      OrderDoesNotMatter(m, Chain(m, ss, [ds[0]]).0, ds[1..]);
    }
  }

  /** Two chains in a row are one. */
  lemma {:induction false} ChainConcat<S>(m: Machine<S>, ss: seq<S>, ts: seq<S>, ds: seq<Binary>)
    ensures var (ss', mid) := Chain(m, ss, ds);
            Chain(m, ss + ts, ds) == if mid.None? then (ss' + ts, None) else Prefixed(ss', Chain(m, ts, mid.value))
    decreases |ss|
  {
    if ss == [] {
      assert ss + ts == ts && [] + Chain(m, ts, ds).0 == Chain(m, ts, ds).0;
    } else {
      var (s, r) := Through(m, ss[0], ds);
      assert (ss + ts)[1..] == ss[1..] + ts;
      if r.None? {
        Assoc([s], ss[1..], ts);
      } else {
        ChainConcat(m, ss[1..], ts, r.value);
        var (rest, mid) := Chain(m, ss[1..], r.value);
        if mid.None? {
          Assoc([s], rest, ts);
        } else {
          PrefixedTwice([s], rest, Chain(m, ts, mid.value));
        }
      }
    }
  }

  // ----- errors

  /**
   When a chain fails, it fails at one processor: those before it have taken what they were given, it has taken its
   pieces up to the one it failed at, and those behind it have not been reached.
   */
  lemma {:induction false} ErrorStops<S>(m: Machine<S>, ss: seq<S>, ds: seq<Binary>) returns (j: nat)
    requires Chain(m, ss, ds).1.None?
    ensures j < |ss| && Given(m, ss, ds, j).Some? && Through(m, ss[j], Given(m, ss, ds, j).value).1.None?
    ensures var ts := Chain(m, ss, ds).0;
            && |ts| == |ss| && ts[j + 1..] == ss[j + 1..]
            && forall i :: 0 <= i <= j ==> Given(m, ss, ds, i).Some? && ts[i] == Through(m, ss[i], Given(m, ss, ds, i).value).0
    decreases |ss|
  {
    var (s, r) := Through(m, ss[0], ds);
    if r.None? {
      j := 0;
      assert ([s] + ss[1..])[1..] == ss[1..];
    } else {
      j := ErrorStops(m, ss[1..], r.value);
      var ts := Chain(m, ss[1..], r.value).0;
      assert ([s] + ts)[j + 2..] == ts[j + 1..] && ss[1..][j + 1..] == ss[j + 2..];
      forall i | 0 <= i <= j + 1
        ensures Given(m, ss, ds, i).Some? && ([s] + ts)[i] == Through(m, ss[i], Given(m, ss, ds, i).value).0
      {
        if i > 0 {
          assert Given(m, ss[1..], r.value, i - 1).Some?;
        }
      }
      j := j + 1;
    }
  }

  /** Finishing fails at the first processor, and then no other is reached, or in the chain behind it. */
  lemma FinishErrorStops<S>(m: Machine<S>, ss: seq<S>)
    requires ss != [] && Finish(m, ss).1.None?
    ensures var (s, first), ts := m.finish(ss[0], None), Finish(m, ss).0;
            && |ts| == |ss| && ts[0] == s
            && if first.None? then ts[1..] == ss[1..]
               else Chain(Finishing(m), ss[1..], first.value) == (ts[1..], None)
  {
    var (s, first) := m.finish(ss[0], None);
    if first.Some? {
      ChainLength(Finishing(m), ss[1..], first.value);
    }
  }

  // ----- finishing

  /** A processor that has nothing more to give keeps all later ones from being finished. */
  lemma {:induction false} SilenceStays<S>(m: Machine<S>, ss: seq<S>)
    ensures Chain(m, ss, []) == (ss, Some([]))
    decreases |ss|
  {
    if ss != [] {
      SilenceStays(m, ss[1..]);
      assert [ss[0]] + ss[1..] == ss;
    }
  }

  /** What processor `j` of a chain is given; nothing known if one before it fails. */
  function Given<S>(m: Machine<S>, ss: seq<S>, ds: seq<Binary>, j: nat): Pieces
    requires j < |ss|
    decreases j
  {
    if j == 0 then Some(ds)
    else
      match Through(m, ss[0], ds).1
      case None => None
      case Some(r) => Given(m, ss[1..], r, j - 1)
  }

  lemma {:induction false} GivenNext<S>(m: Machine<S>, ss: seq<S>, ds: seq<Binary>, j: nat)
    requires j + 1 < |ss|
    ensures var given := Given(m, ss, ds, j);
            Given(m, ss, ds, j + 1) == if given.None? then None else Through(m, ss[j], given.value).1
    decreases j
  {
    var r := Through(m, ss[0], ds).1;
    if j == 0 {
      assert r.Some? ==> Given(m, ss[1..], r.value, 0) == r;
    } else if r.Some? {
      GivenNext(m, ss[1..], r.value, j - 1);
    }
  }

  /** Processor `j` ends up as what it was given makes of it. Once nothing is given, nothing happens any more. */
  lemma {:induction false} EndsAsGiven<S>(m: Machine<S>, ss: seq<S>, ds: seq<Binary>, j: nat)
    requires j < |ss| && Chain(m, ss, ds).1.Some?
    ensures var (ts, r), given := Chain(m, ss, ds), Given(m, ss, ds, j);
            && given.Some? && |ts| == |ss| && ts[j] == Through(m, ss[j], given.value).0
            && (given.value == [] ==> ts[j..] == ss[j..] && r == Some([]))
    decreases j
  {
    if j == 0 {
      ChainLength(m, ss, ds);
      if ds == [] {
        SilenceStays(m, ss);
      }
    } else {
      var (s, r) := Through(m, ss[0], ds);
      EndsAsGiven(m, ss[1..], r.value, j - 1);
      assert ([s] + Chain(m, ss[1..], r.value).0)[j..] == Chain(m, ss[1..], r.value).0[j - 1..];
      assert ss[1..][j - 1..] == ss[j..];
    }
  }

  lemma {:induction false} ChainLength<S>(m: Machine<S>, ss: seq<S>, ds: seq<Binary>)
    ensures |Chain(m, ss, ds).0| == |ss|
    decreases |ss|
  {
    if ss != [] && Through(m, ss[0], ds).1.Some? {
      ChainLength(m, ss[1..], Through(m, ss[0], ds).1.value);
    }
  }

  /** What the processors before number `j` give it while a chain is finished. */
  function GivenAtEnd<S>(m: Machine<S>, ss: seq<S>, j: nat): Pieces
    requires 0 < j < |ss|
  {
    match m.finish(ss[0], None).1
    case None => None
    case Some(first) => Given(Finishing(m), ss[1..], first, j - 1)
  }

  /** What processor `j` gives while a chain is finished. */
  function GivesAtEnd<S>(m: Machine<S>, ss: seq<S>, j: nat): Pieces
    requires j < |ss|
  {
    if j == 0 then m.finish(ss[0], None).1
    else
      match GivenAtEnd(m, ss, j)
      case None => None
      case Some(given) => Through(Finishing(m), ss[j], given).1
  }

  lemma GivenAtEndNext<S>(m: Machine<S>, ss: seq<S>, j: nat)
    requires j + 1 < |ss|
    ensures GivenAtEnd(m, ss, j + 1) == GivesAtEnd(m, ss, j)
  {
    var first := m.finish(ss[0], None).1;
    if first.Some? {
      if j == 0 {
        assert Given(Finishing(m), ss[1..], first.value, 0) == first;
      } else {
        GivenNext(Finishing(m), ss[1..], first.value, j - 1);
      }
    }
  }

  /** A processor is not told to finish if and only if some processor before it gives nothing. */
  lemma {:induction false} PassedOverIff<S>(m: Machine<S>, ss: seq<S>, j: nat)
    requires 0 < j < |ss|
    ensures GivenAtEnd(m, ss, j) == Some([]) <==> exists i :: 0 <= i < j && GivesAtEnd(m, ss, i) == Some([])
    decreases j
  {
    GivenAtEndNext(m, ss, j - 1);
    if j > 1 {
      PassedOverIff(m, ss, j - 1);
    }
  }

  /**
   Every processor but the first is told to finish once for each piece it is given, and never if it is
   given none: then it and all after it stay as they are, with all they hold, and nothing comes out.
   */
  lemma FinishReaches<S>(m: Machine<S>, ss: seq<S>, j: nat)
    requires 0 < j < |ss| && Finish(m, ss).1.Some?
    ensures var (ts, r), given := Finish(m, ss), GivenAtEnd(m, ss, j);
            && given.Some? && |ts| == |ss| && ts[j] == Through(Finishing(m), ss[j], given.value).0
            && (given.value == [] ==> ts[j..] == ss[j..] && r == Some([]))
  {
    var (s, first) := m.finish(ss[0], None);
    EndsAsGiven(Finishing(m), ss[1..], first.value, j - 1);
    var ts := Chain(Finishing(m), ss[1..], first.value).0;
    assert ([s] + ts)[j..] == ts[j - 1..] && ss[1..][j - 1..] == ss[j..];
  }

  /** The processor inherits the default implementation, which ignores what it is given. */
  ghost predicate Default<S(!new)>(m: Machine<S>, s: S) {
    forall d :: m.finish(s, d) == (s, Some([]))
  }

  lemma {:induction false} DefaultSwallows<S(!new)>(m: Machine<S>, s: S, ds: seq<Binary>)
    requires Default(m, s)
    ensures Through(Finishing(m), s, ds) == (s, Some([]))
    decreases |ds|
  {
    if ds != [] {
      DefaultSwallows(m, s, ds[1..]);
      JoinNothing(Some([]));
    }
  }

  /**
   One processor with the default is enough: finishing the chain then gives nothing and leaves all
   processors after it as they are, with all they hold.
   */
  lemma DefaultFinishesSilently<S(!new)>(m: Machine<S>, ss: seq<S>, k: nat)
    requires k < |ss| && Default(m, ss[k]) && Finish(m, ss).1.Some?
    ensures Finish(m, ss).1 == Some([]) && |Finish(m, ss).0| == |ss| && Finish(m, ss).0[k..] == ss[k..]
  {
    var (s, first) := m.finish(ss[0], None);
    if k == 0 {
      SilenceStays(Finishing(m), ss[1..]);
      assert [ss[0]] + ss[1..] == ss;
    } else {
      SilencedFrom(Finishing(m), ss[1..], first.value, k - 1) by {
        DefaultSwallowsAll(m, ss[k]);
      }
      var ts := Chain(Finishing(m), ss[1..], first.value).0;
      assert ([s] + ts)[k..] == ts[k - 1..] && ss[1..][k - 1..] == ss[k..];
    }
  }

  lemma DefaultSwallowsAll<S(!new)>(m: Machine<S>, s: S)
    requires Default(m, s)
    ensures forall ds :: Through(Finishing(m), s, ds) == (s, Some([]))
  {
    forall ds ensures Through(Finishing(m), s, ds) == (s, Some([])) {
      DefaultSwallows(m, s, ds);
    }
  }

  lemma {:induction false} SilencedFrom<S>(m: Machine<S>, ss: seq<S>, ds: seq<Binary>, k: nat)
    requires k < |ss| && Chain(m, ss, ds).1.Some? && forall es :: Through(m, ss[k], es) == (ss[k], Some([]))
    ensures Chain(m, ss, ds).1 == Some([]) && |Chain(m, ss, ds).0| == |ss| && Chain(m, ss, ds).0[k..] == ss[k..]
    decreases k
  {
    var (s, r) := Through(m, ss[0], ds);
    if k == 0 {
      SilenceStays(m, ss[1..]);
      assert [ss[0]] + ss[1..] == ss;
    } else {
      SilencedFrom(m, ss[1..], r.value, k - 1);
      var ts := Chain(m, ss[1..], r.value).0;
      assert ([s] + ts)[k..] == ts[k - 1..] && ss[1..][k - 1..] == ss[k..];
    }
  }
}
