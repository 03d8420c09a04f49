/**
 The `chunk` postprocessor collects messages into outputs of at most `max` bytes, without splitting a
 message. The specification works on groups of messages; the code works on bytes.
 */
module Chunking {
  import opened Bytes
  import opened Wrappers

  /** The groups that went out, and the one that is still open. */
  datatype Packing = Packing(done: seq<seq<Binary>>, open: seq<Binary>)

  function Size(g: seq<Binary>): nat {
    |Flatten(g)|
  }

  /** A message that does not fit next to the open group closes it; one that fills it exactly closes it, too. */
  function Put(max: nat, p: Packing, x: Binary): Packing {
    if |x| > max then p
    else if Size(p.open) + |x| > max then Packing(p.done + [p.open], [x])
    else if Size(p.open) + |x| == max then Packing(p.done + [p.open + [x]], [])
    else Packing(p.done, p.open + [x])
  }

  /** A group goes out at a call exactly when the message is not too long and the open group is full with it. */
  lemma GivesIff(max: nat, p: Packing, x: Binary)
    ensures var q := Put(max, p, x);
            if |x| <= max && Size(p.open) + |x| >= max then |q.done| == |p.done| + 1 && q.done[..|p.done|] == p.done
            else q.done == p.done
  {
  }

  /**
   After a call the open group is full only if a message that fills a group by itself came to a group that was not empty,
   or if it was full before and the message was too long.
   */
  lemma FullIff(max: nat, p: Packing, x: Binary)
    requires max > 0 && Size(p.open) <= max
    ensures Size(Put(max, p, x).open) <= max
    ensures Size(Put(max, p, x).open) == max <==> if |x| > max then Size(p.open) == max else |x| == max && Size(p.open) > 0
  {
    FlattenOne(p.open, x);
  }

  function Pack(max: nat, p: Packing, xs: seq<Binary>): Packing
    decreases |xs|
  {
    if xs == [] then p else Pack(max, Put(max, p, xs[0]), xs[1..])
  }

  /** What comes out in all when the postprocessor is finished in the end. */
  function Closed(p: Packing): seq<seq<Binary>> {
    if Flatten(p.open) == [] then p.done else p.done + [p.open]
  }

  lemma {:induction false} FlattenAppend(a: seq<Binary>, b: seq<Binary>)
    ensures Flatten(a + b) == Flatten(a) + Flatten(b)
    decreases |a|
  {
    if a == [] {
      assert a + b == b;
    } else {
      FlattenAppend(a[1..], b);
      assert (a + b)[1..] == a[1..] + b;
      Assoc(a[0], Flatten(a[1..]), Flatten(b));
    }
  }

  lemma FlattenOne(a: seq<Binary>, x: Binary)
    ensures Flatten([x]) == x && Flatten(a + [x]) == Flatten(a) + x
  {
    assert [x][1..] == [] && x + [] == x;
    FlattenAppend(a, [x]);
  }

  function Texts(gs: seq<seq<Binary>>): seq<Binary> {
    if gs == [] then [] else Texts(gs[..|gs| - 1]) + [Flatten(gs[|gs| - 1])]
  }

  lemma TextsOne(gs: seq<seq<Binary>>, g: seq<Binary>)
    ensures Texts(gs + [g]) == Texts(gs) + [Flatten(g)]
  {
    assert (gs + [g])[..|gs|] == gs;
  }

  /** What is left to go out when there is one more message. */
  function Flush(max: nat, chunk: Binary, d: Binary): seq<Binary> {
    if chunk == [] then (if d == [] || |d| > max then [] else [d])
    else if d == [] || |d| > max then [chunk]
    else if |chunk| + |d| > max then [chunk, d]
    else [chunk + d]
  }

  lemma FlushCloses(max: nat, p: Packing, d: Binary)
    requires max > 0 && Size(p.open) <= max
    ensures Texts(Closed(Put(max, p, d))) == Texts(p.done) + Flush(max, Flatten(p.open), d)
  {
    var chunk := Flatten(p.open);
    FlattenOne(p.open, d);
    TextsOne(p.done, p.open);
    TextsOne(p.done, p.open + [d]);
    TextsOne(p.done + [p.open], [d]);
    assert Texts(p.done) + [chunk] + [d] == Texts(p.done) + [chunk, d];
    assert chunk == [] ==> chunk + d == d;
    assert d == [] ==> chunk + d == chunk;
  }

  class Chunk {
    const max: nat
    var chunk: Binary
    ghost var packing: Packing

    ghost predicate Valid()
      reads this
    {
      max > 0 && chunk == Flatten(packing.open) && |chunk| <= max
    }

    constructor (max: nat)
      requires max > 0
      ensures Valid() && this.max == max && packing == Packing([], [])
    {
      this.max, chunk, packing := max, [], Packing([], []);
    }

    /** The output is the group that was closed, if any. */
    method Process(data: Binary) returns (r: seq<Binary>)
      requires Valid()
      modifies this
      ensures Valid() && packing == Put(max, old(packing), data)
      ensures Texts(packing.done) == Texts(old(packing.done)) + r
    {
      FlattenOne(packing.open, data);
      TextsOne(packing.done, packing.open);
      TextsOne(packing.done, packing.open + [data]);
      var len := |chunk| + |data|;
      if |data| > max {
        r := [];
      } else if len > max {
        r := [chunk];
        chunk := data;
      } else if len == max {
        r := [chunk + data];
        chunk := [];
      } else {
        r := [];
        chunk := chunk + data;
      }
      packing := Put(max, packing, data);
    }

    /** Like one more call with the data, after which the open group goes out as well. */
    method Finish(data: Option<Binary>) returns (r: seq<Binary>)
      requires Valid()
      modifies this
      ensures Valid() && packing.open == []
      ensures packing.done == Closed(if data.None? then old(packing) else Put(max, old(packing), data.value))
      ensures Texts(packing.done) == Texts(old(packing.done)) + r
    {
      var output, d := chunk, if data.None? then [] else data.value;
      FlushCloses(max, packing, d);
      TextsOne(packing.done, packing.open);
      chunk := [];
      if output == [] {
        r := if d == [] || |d| > max then [] else [d];
      } else if d == [] || |d| > max {
        r := [output];
      } else if |output| + |d| > max {
        r := [output, d];
      } else {
        r := [output + d];
      }
      packing := Packing(Closed(if data.None? then packing else Put(max, packing, d)), []);
    }
  }

  // ----- what the groups are

  function Accepted(max: nat, xs: seq<Binary>): seq<Binary> {
    if xs == [] then []
    else if |xs[0]| > max then Accepted(max, xs[1..])
    else [xs[0]] + Accepted(max, xs[1..])
  }

  function Concat(gs: seq<seq<Binary>>): seq<Binary> {
    if gs == [] then [] else Concat(gs[..|gs| - 1]) + gs[|gs| - 1]
  }

  lemma ConcatOne(gs: seq<seq<Binary>>, g: seq<Binary>)
    ensures Concat(gs + [g]) == Concat(gs) + g
  {
    assert (gs + [g])[..|gs|] == gs;
  }

  ghost predicate Crowded(max: nat, gs: seq<seq<Binary>>, i: nat)
    requires i + 1 < |gs|
  {
    Size(gs[i]) + Size(gs[i + 1]) > max
  }

  /** Outputs are not empty and not too long, and two neighbours could not have been one output. */
  ghost predicate Dense(max: nat, p: Packing) {
    && (forall i :: 0 <= i < |p.done| ==> 0 < Size(p.done[i]) <= max)
    && (forall i :: 0 <= i < |p.done| - 1 ==> Crowded(max, p.done, i))
    && (|p.done| > 0 ==> Size(p.done[|p.done| - 1]) == max || Size(p.done[|p.done| - 1]) + Size(p.open) > max)
    && Size(p.open) <= max
  }

  /** A group that is closed keeps the outputs dense if it is not empty and could not be one with the last of them. */
  lemma CloseDense(max: nat, p: Packing, g: seq<Binary>, open: seq<Binary>)
    requires Dense(max, p) && 0 < Size(g) <= max && Size(p.open) <= Size(g)
    requires (Size(g) == max || Size(g) + Size(open) > max) && Size(open) <= max
    ensures Dense(max, Packing(p.done + [g], open))
  {
    var done := p.done + [g];
    forall i | 0 <= i < |done| - 1
      ensures Crowded(max, done, i)
    {
      assert i < |p.done| - 1 ==> Crowded(max, p.done, i);
    }
  }

  lemma PutDense(max: nat, p: Packing, x: Binary)
    requires max > 0 && Dense(max, p)
    ensures Dense(max, Put(max, p, x))
  {
    FlattenOne(p.open, x);
    var q := Put(max, p, x);
    if |q.done| > |p.done| {
      CloseDense(max, p, q.done[|p.done|], q.open);
    }
  }

  lemma {:induction false} PackDense(max: nat, p: Packing, xs: seq<Binary>)
    requires max > 0 && Dense(max, p)
    ensures Dense(max, Pack(max, p, xs))
    decreases |xs|
  {
    if xs != [] {
      PutDense(max, p, xs[0]);
      PackDense(max, Put(max, p, xs[0]), xs[1..]);
    }
  }

  lemma {:induction false} PackKeeps(max: nat, p: Packing, xs: seq<Binary>)
    ensures var q := Pack(max, p, xs);
            Concat(q.done) + q.open == Concat(p.done) + p.open + Accepted(max, xs)
    decreases |xs|
  {
    if xs != [] {
      var x, q := xs[0], Put(max, p, xs[0]);
      PackKeeps(max, q, xs[1..]);
      ConcatOne(p.done, p.open);
      ConcatOne(p.done, p.open + [x]);
      Assoc(Concat(p.done), p.open, [x]);
      if |x| <= max {
        Assoc(Concat(p.done) + p.open, [x], Accepted(max, xs[1..]));
      }
    }
  }

  // ----- no other grouping needs fewer outputs

  /** `n` full outputs and `c` bytes are no more than `m` outputs and `s` bytes. */
  predicate Ahead(max: nat, n: nat, c: nat, m: nat, s: nat) {
    n < m || (n == m && c <= s) || (n == m + 1 && c == 0 && s == max)
  }

  lemma PutAhead(max: nat, p: Packing, x: Binary, m: nat, s: nat)
    requires max > 0 && Size(p.open) <= max && s + |x| <= max
    requires Ahead(max, |p.done|, Size(p.open), m, s)
    ensures var q := Put(max, p, x);
            Size(q.open) <= max && Ahead(max, |q.done|, Size(q.open), m, s + |x|)
  {
    FlattenOne(p.open, x);
  }

  lemma {:induction false} GroupAhead(max: nat, p: Packing, g: seq<Binary>, m: nat, s: nat)
    requires max > 0 && Size(p.open) <= max && s + Size(g) <= max
    requires Ahead(max, |p.done|, Size(p.open), m, s)
    ensures var q := Pack(max, p, g);
            Size(q.open) <= max && Ahead(max, |q.done|, Size(q.open), m, s + Size(g))
    decreases |g|
  {
    if g != [] {
      PutAhead(max, p, g[0], m, s);
      GroupAhead(max, Put(max, p, g[0]), g[1..], m, s + |g[0]|);
    }
  }

  lemma {:induction false} PackAppend(max: nat, p: Packing, a: seq<Binary>, b: seq<Binary>)
    ensures Pack(max, p, a + b) == Pack(max, Pack(max, p, a), b)
    decreases |a|
  {
    if a == [] {
      assert a + b == b;
    } else {
      PackAppend(max, Put(max, p, a[0]), a[1..], b);
      assert (a + b)[1..] == a[1..] + b;
    }
  }

  lemma {:induction false} PackAccepted(max: nat, p: Packing, xs: seq<Binary>)
    ensures Pack(max, p, Accepted(max, xs)) == Pack(max, p, xs)
    decreases |xs|
  {
    if xs != [] {
      PackAccepted(max, Put(max, p, xs[0]), xs[1..]);
      assert |xs[0]| <= max ==> Accepted(max, xs)[1..] == Accepted(max, xs[1..]);
    }
  }

  lemma {:induction false} GroupsAhead(max: nat, groups: seq<seq<Binary>>)
    requires max > 0 && forall i :: 0 <= i < |groups| ==> Size(groups[i]) <= max
    ensures var q := Pack(max, Packing([], []), Concat(groups));
            Size(q.open) <= max && Ahead(max, |q.done|, Size(q.open), |groups|, 0)
    decreases |groups|
  {
    if groups != [] {
      var front, g := groups[..|groups| - 1], groups[|groups| - 1];
      GroupsAhead(max, front);
      PackAppend(max, Packing([], []), Concat(front), g);
      GroupAhead(max, Pack(max, Packing([], []), Concat(front)), g, |front|, 0);
    }
  }

  /**
   For all messages `xs` that come in, what goes out in all are consecutive groups of the messages that
   are not too long: nothing else is lost, doubled, reordered or split. Each output is at most `max`
   bytes, none is empty, and no other way to group the messages like this has fewer outputs.
   */
  lemma BestPacking(max: nat, xs: seq<Binary>, others: seq<seq<Binary>>)
    requires max > 0
    requires Concat(others) == Accepted(max, xs) && forall i :: 0 <= i < |others| ==> Size(others[i]) <= max
    ensures var q := Pack(max, Packing([], []), xs);
            && Dense(max, q)
            && Concat(q.done) + q.open == Accepted(max, xs)
            && Flatten(Texts(Closed(q))) == Flatten(Accepted(max, xs))
            && |Closed(q)| <= |others|
  {
    var empty := Packing([], []);
    PackDense(max, empty, xs);
    PackKeeps(max, empty, xs);
    assert Concat([]) + [] + Accepted(max, xs) == Accepted(max, xs);
    PackAccepted(max, empty, xs);
    GroupsAhead(max, others);
    var q := Pack(max, empty, xs);
    ClosedTexts(q);
  }

  lemma {:induction false} TextsJoin(gs: seq<seq<Binary>>)
    ensures Flatten(Texts(gs)) == Flatten(Concat(gs))
  {
    if gs != [] {
      var front, g := gs[..|gs| - 1], gs[|gs| - 1];
      TextsJoin(front);
      FlattenAppend(Concat(front), g);
      FlattenOne(Texts(front), Flatten(g));
    }
  }

  /** Outputs are made of the bytes of all messages in them; an open group without bytes gives none. */
  lemma ClosedTexts(p: Packing)
    ensures Flatten(Texts(Closed(p))) == Flatten(Concat(p.done) + p.open)
  {
    TextsJoin(Closed(p));
    ConcatOne(p.done, p.open);
    FlattenAppend(Concat(p.done), p.open);
    assert Flatten(Concat(p.done)) + [] == Flatten(Concat(p.done));
  }
}
