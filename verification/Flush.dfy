/**
 Finishing chains of preprocessors that hold data: framers, which keep the default and are never flushed,
 and splitters, which are flushed when they are told to finish. Which of them are told?
 */
module Flushing {
  import opened Bytes
  import opened Wrappers
  import opened Chains
  import P = Separation
  import L = LengthFraming

  datatype Stage =
    | Framer(kind: L.Kind, framer: L.Framer)
    | Splitter(config: P.Config, buffered: bool, buffer: Binary)

  function OnProcess(s: Stage, d: Binary): (Stage, Pieces) {
    match s
    case Framer(kind, framer) =>
      var (f, r) := L.Process(kind, framer, d);
      (Framer(kind, f), r)
    case Splitter(c, buffered, buffer) =>
      var (b, r) := P.Take(c, buffered, buffer, d);
      (Splitter(c, buffered, b), r)
  }

  function OnFinish(s: Stage, data: Option<Binary>): (Stage, Pieces) {
    match s
    case Framer(_, _) => (s, Some([]))
    case Splitter(c, buffered, buffer) =>
      var (b, r) := P.End(c, buffered, buffer, data);
      (Splitter(c, buffered, b), r)
  }

  const STAGES: Machine<Stage> := Machine(OnProcess, OnFinish)

  predicate Holds(s: Stage) {
    s.Splitter? && s.buffer != []
  }

  /** A splitter as its calls leave it, without a maximum length. */
  ghost predicate Sound(s: Stage) {
    s.Splitter? ==> s.config.max.None? && s.config.separator !in s.buffer && (!s.buffered ==> s.buffer == [])
  }

  // ----- a splitter loses no byte but separators

  lemma {:induction false} SplitBytes(sep: Byte, data: Binary, x: Byte)
    ensures x in Flatten(P.Records(sep, data)) || x in P.Rest(sep, data) <==> x in data && x != sep
    decreases |data|
  {
    var i := P.Find(sep, data);
    if i < |data| {
      var more := P.Records(sep, data[i + 1..]);
      SplitBytes(sep, data[i + 1..], x);
      assert data == data[..i] + [sep] + data[i + 1..];
      assert ([data[..i]] + more)[1..] == more;
    }
  }

  lemma {:induction false} NothingLong(c: P.Config, rs: seq<Binary>)
    requires c.max.None?
    ensures P.Keep(c, rs) == rs
    decreases |rs|
  {
    if rs != [] {
      NothingLong(c, rs[1..]);
      assert [rs[0]] + rs[1..] == rs;
    }
  }

  lemma {:induction false} FlattenBoth(a: seq<Binary>, b: seq<Binary>, x: Byte)
    ensures x in Flatten(a + b) <==> x in Flatten(a) || x in Flatten(b)
    decreases |a|
  {
    if a == [] {
      assert a + b == b;
    } else {
      FlattenBoth(a[1..], b, x);
      assert (a + b)[1..] == a[1..] + b;
    }
  }

  lemma FlattenSole(d: Binary)
    ensures Flatten([d]) == d
  {
    assert [d][1..] == [] && d + [] == d;
  }

  /** What a splitter gives for one piece when it is told to finish. */
  lemma EndGives(s: Stage, d: Binary)
    requires Sound(s) && s.Splitter?
    ensures var (t, r) := OnFinish(s, Some(d));
            && t == s.(buffer := []) && r.Some?
            && (r.value == [] <==> s.buffered && s.buffer == [] && d == [])
            && (forall x :: x in Flatten(r.value) <==> (x in s.buffer || x in d) && x != s.config.separator)
  {
    var sep, all := s.config.separator, s.buffer + d;
    var rs, rest := P.Records(sep, all), P.Rest(sep, all);
    NothingLong(s.config, rs);
    P.Splits(sep, all);
    assert s.buffer == [] ==> all == d;
    assert rs == [] && rest == [] ==> all == [];
    FlattenSole(rest);
    forall x ensures x in Flatten(rs + [rest]) <==> (x in s.buffer || x in d) && x != sep {
      SplitBytes(sep, all, x);
      FlattenBoth(rs, [rest], x);
    }
    if rest == [] {
      forall x ensures x in Flatten(rs + [rest]) <==> x in Flatten(rs) {
        FlattenBoth(rs, [rest], x);
      }
    }
  }

  /** The same for all pieces it is given. */
  lemma {:induction false} EndsGive(s: Stage, ds: seq<Binary>)
    requires Sound(s) && s.Splitter? && ds != []
    ensures var (t, r) := Through(Finishing(STAGES), s, ds);
            && t == s.(buffer := []) && r.Some?
            && (r.value == [] <==> s.buffered && s.buffer == [] && Flatten(ds) == [])
            && (forall x :: x in Flatten(r.value) <==> (x in s.buffer || x in Flatten(ds)) && x != s.config.separator)
    decreases |ds|
  {
    var (t, first) := OnFinish(s, Some(ds[0]));
    EndGives(s, ds[0]);
    var rest := Through(Finishing(STAGES), t, ds[1..]);
    if ds[1..] == [] {
      assert first.value + [] == first.value && ds[0] + [] == ds[0];
    } else {
      EndsGive(t, ds[1..]);
      forall x ensures x in Flatten(first.value + rest.1.value) <==> x in Flatten(first.value) || x in Flatten(rest.1.value) {
        FlattenBoth(first.value, rest.1.value, x);
      }
    }
  }

  // ----- who is told to finish

  /** Byte `x`, which processor `k` holds, gets to processor `i`: no splitter between takes it for a separator. */
  ghost predicate Comes(ss: seq<Stage>, k: nat, i: nat, x: Byte) {
    && k < i <= |ss| && Holds(ss[k]) && x in ss[k].buffer
    && (forall l :: k < l < i ==> ss[l].Splitter? && ss[l].config.separator != x)
  }

  ghost predicate Arrives(ss: seq<Stage>, i: nat, x: Byte) {
    exists k: nat :: Comes(ss, k, i, x)
  }

  /** Some byte gets to processor `i`. */
  ghost predicate Fed(ss: seq<Stage>, i: nat) {
    exists x :: Arrives(ss, i, x)
  }

  /** Processor `i` has nothing to give, as far as it is told at all. */
  ghost predicate Hushed(ss: seq<Stage>, i: nat)
    requires i < |ss|
  {
    ss[i].Framer? || (ss[i].buffer == [] && (i == 0 || (ss[i].buffered && !Fed(ss, i))))
  }

  ghost predicate HushedBefore(ss: seq<Stage>, j: nat)
    requires j <= |ss|
  {
    exists i :: 0 <= i < j && Hushed(ss, i)
  }

  /** What processor `j` is given. */
  ghost predicate GivenRight(ss: seq<Stage>, j: nat)
    requires 0 < j < |ss|
  {
    var given := GivenAtEnd(STAGES, ss, j);
    && given.Some? && (given.value == [] <==> HushedBefore(ss, j))
    && (given.value != [] ==> forall x :: x in Flatten(given.value) <==> Arrives(ss, j, x))
  }

  ghost predicate AllSound(ss: seq<Stage>) {
    forall i :: 0 <= i < |ss| ==> Sound(ss[i])
  }

  lemma FirstGives(ss: seq<Stage>)
    requires AllSound(ss) && |ss| > 1
    ensures GivenRight(ss, 1)
  {
    GivenAtEndNext(STAGES, ss, 0);
    var given := GivenAtEnd(STAGES, ss, 1);
    assert given.value == [] <==> Hushed(ss, 0);
    if given.value != [] {
      FlattenSole(ss[0].buffer);
      assert forall x :: x in ss[0].buffer <==> Comes(ss, 0, 1, x);
      assert forall x :: Comes(ss, 0, 1, x) <==> Arrives(ss, 1, x);
    }
  }

  /** What a framer is given is lost. */
  lemma FramerGives(ss: seq<Stage>, j: nat)
    requires 0 < j && j + 1 < |ss| && ss[j].Framer? && GivenRight(ss, j)
    ensures GivenRight(ss, j + 1)
  {
    GivenAtEndNext(STAGES, ss, j);
    DefaultSwallows(STAGES, ss[j], GivenAtEnd(STAGES, ss, j).value);
    assert Hushed(ss, j);
  }

  lemma SplitterGives(ss: seq<Stage>, j: nat)
    requires AllSound(ss) && 0 < j && j + 1 < |ss| && ss[j].Splitter? && GivenRight(ss, j)
    requires GivenAtEnd(STAGES, ss, j).value != []
    ensures GivenRight(ss, j + 1)
  {
    var given, s := GivenAtEnd(STAGES, ss, j).value, ss[j];
    GivenAtEndNext(STAGES, ss, j);
    EndsGive(s, given);
    FedIff(ss, j, given);
    assert HushedBefore(ss, j + 1) <==> Hushed(ss, j);
    var out := GivenAtEnd(STAGES, ss, j + 1).value;
    forall x ensures x in Flatten(out) <==> Arrives(ss, j + 1, x) {
      ComesFurther(ss, j, x);
    }
  }

  lemma FedIff(ss: seq<Stage>, j: nat, given: seq<Binary>)
    requires forall x :: x in Flatten(given) <==> Arrives(ss, j, x)
    ensures Fed(ss, j) <==> Flatten(given) != []
  {
    if Flatten(given) != [] {
      var x := Flatten(given)[0];
      assert x in Flatten(given) && Arrives(ss, j, x);
    }
  }

  lemma ComesFurther(ss: seq<Stage>, j: nat, x: Byte)
    requires 0 < j < |ss| && ss[j].Splitter? && Sound(ss[j])
    ensures Arrives(ss, j + 1, x) <==> (x in ss[j].buffer || Arrives(ss, j, x)) && x != ss[j].config.separator
  {
    var next := j + 1;
    if k: nat :| Comes(ss, k, next, x) {
      if k < j {
        assert Comes(ss, k, j, x);
      }
    }
    if x in ss[j].buffer {
      assert Comes(ss, j, j + 1, x);
    }
    if k: nat :| Comes(ss, k, j, x) {
      assert x != ss[j].config.separator ==> Comes(ss, k, j + 1, x);
    }
  }

  lemma {:induction false} AllGivenRight(ss: seq<Stage>, j: nat)
    requires AllSound(ss) && 0 < j < |ss|
    ensures GivenRight(ss, j)
    decreases j
  {
    if j == 1 {
      FirstGives(ss);
    } else {
      AllGivenRight(ss, j - 1);
      if ss[j - 1].Framer? {
        FramerGives(ss, j - 1);
      } else if GivenAtEnd(STAGES, ss, j - 1).value == [] {
        GivenAtEndNext(STAGES, ss, j - 1);
      } else {
        SplitterGives(ss, j - 1);
      }
    }
  }

  // ----- what is left behind

  lemma {:induction false} ChainSucceeds(ss: seq<Stage>, ds: seq<Binary>)
    requires AllSound(ss)
    ensures Chain(Finishing(STAGES), ss, ds).1.Some?
    decreases |ss|
  {
    if ss != [] {
      if ss[0].Framer? {
        DefaultSwallows(STAGES, ss[0], ds);
      } else if ds != [] {
        EndsGive(ss[0], ds);
      }
      ChainSucceeds(ss[1..], Through(Finishing(STAGES), ss[0], ds).1.value);
    }
  }

  /** A processor that holds data still does after the chain was finished if and only if one before it is hushed. */
  lemma KeepsIff(ss: seq<Stage>, j: nat)
    requires AllSound(ss) && j < |ss| && Holds(ss[j])
    ensures var (ts, r) := Finish(STAGES, ss);
            r.Some? && |ts| == |ss| && ts[j] == if HushedBefore(ss, j) then ss[j] else ss[j].(buffer := [])
  {
    var first := OnFinish(ss[0], None).1;
    ChainSucceeds(ss[1..], first.value);
    ChainLength(Finishing(STAGES), ss[1..], first.value);
    if j > 0 {
      AllGivenRight(ss, j);
      FinishReaches(STAGES, ss, j);
      var given := GivenAtEnd(STAGES, ss, j).value;
      if given != [] {
        EndsGive(ss[j], given);
      }
    }
  }

  /**
   Finishing flushes a chain, so that no splitter holds data any more, if and only if no splitter that holds
   data comes after a processor that is hushed: a framer, a first splitter that holds nothing, or a
   splitter that holds nothing and that no byte gets to.
   */
  lemma FlushesIff(ss: seq<Stage>)
    requires AllSound(ss)
    ensures var ts := Finish(STAGES, ss).0;
            && |ts| == |ss|
            && ((forall j :: 0 <= j < |ts| ==> !Holds(ts[j]))
                <==> (forall j :: 0 <= j < |ss| && Holds(ss[j]) ==> !HushedBefore(ss, j)))
  {
    var ts := Finish(STAGES, ss).0;
    FinishKeepsEmpty(ss);
    forall j | 0 <= j < |ss| && Holds(ss[j])
      ensures Holds(ts[j]) <==> HushedBefore(ss, j)
    {
      KeepsIff(ss, j);
    }
  }

  /** Finishing does not fill a processor. */
  lemma FinishKeepsEmpty(ss: seq<Stage>)
    requires AllSound(ss)
    ensures var ts := Finish(STAGES, ss).0;
            |ts| == |ss| && forall j :: 0 <= j < |ss| && !Holds(ss[j]) ==> !Holds(ts[j])
  {
    if ss != [] {
      var first := OnFinish(ss[0], None).1;
      ChainSucceeds(ss[1..], first.value);
      ChainLength(Finishing(STAGES), ss[1..], first.value);
      forall j | 0 < j < |ss| && !Holds(ss[j])
        ensures !Holds(Finish(STAGES, ss).0[j])
      {
        FinishReaches(STAGES, ss, j);
        StaysEmpty(ss[j], GivenAtEnd(STAGES, ss, j).value);
      }
    }
  }

  lemma StaysEmpty(s: Stage, ds: seq<Binary>)
    requires Sound(s) && !Holds(s)
    ensures !Holds(Through(Finishing(STAGES), s, ds).0)
  {
    if s.Framer? {
      DefaultSwallows(STAGES, s, ds);
    } else if ds != [] {
      EndsGive(s, ds);
    }
  }

  /** A splitter behind a framer keeps what it holds, and nothing comes out, although it would give it when told. */
  lemma HeldBack(kind: L.Kind, framer: L.Framer, c: P.Config, b: Binary)
    requires b != [] && c.separator !in b && P.Short(c, b)
    ensures var splitter := Splitter(c, true, b);
            && Finish(STAGES, [Framer(kind, framer), splitter]) == ([Framer(kind, framer), splitter], Some([]))
            && STAGES.finish(splitter, None) == (splitter.(buffer := []), Some([b]))
  {
    var ss := [Framer(kind, framer), Splitter(c, true, b)];
    SilenceStays(Finishing(STAGES), ss[1..]);
    assert [ss[0]] + ss[1..] == ss;
    assert [] + [b] == [b];
  }
}
