/** Draining in turn: what a bulk dequeue takes from the sub-queues of one queue, and from several queues by
    priority. A lane is the contents of one sub-queue. */
module Lanes {
  import opened Words

  type Value = nat

  function Total(lanes: seq<seq<Value>>): nat {
    if lanes == [] then 0 else |lanes[0]| + Total(lanes[1..])
  }

  function TotalAll(queues: seq<seq<seq<Value>>>): nat {
    if queues == [] then 0 else Total(queues[0]) + TotalAll(queues[1..])
  }

  function Concat(lanes: seq<seq<Value>>): seq<Value> {
    if lanes == [] then [] else lanes[0] + Concat(lanes[1..])
  }

  function ConcatAll(queues: seq<seq<seq<Value>>>): seq<Value> {
    if queues == [] then [] else Concat(queues[0]) + ConcatAll(queues[1..])
  }

  // ---------------------------------------------------------------- one queue

  /** before is what was taken from each lane and what is left of it. */
  ghost predicate Split(before: seq<seq<Value>>, taken: seq<seq<Value>>, after: seq<seq<Value>>) {
    |before| == |taken| == |after| && forall i :: 0 <= i < |before| ==> before[i] == taken[i] + after[i]
  }

  /** A lane is drawn on only when those before it have run dry. */
  ghost predicate InTurn(taken: seq<seq<Value>>, after: seq<seq<Value>>) {
    |taken| == |after| && forall i, j :: 0 <= i < j < |taken| && taken[j] != [] ==> after[i] == []
  }

  lemma {:induction false} TotalConcat(lanes: seq<seq<Value>>)
    ensures |Concat(lanes)| == Total(lanes)
  {
    if lanes != [] {
      TotalConcat(lanes[1..]);
    }
  }

  lemma {:induction false} ConcatSnoc(lanes: seq<seq<Value>>, s: seq<Value>)
    ensures Concat(lanes + [s]) == Concat(lanes) + s
  {
    if lanes != [] {
      assert (lanes + [s])[1..] == lanes[1..] + [s];
      ConcatSnoc(lanes[1..], s);
    } else {
      assert (lanes + [s])[1..] == [];
    }
  }

  lemma {:induction false} ConcatEmpties(lanes: seq<seq<Value>>, n: nat)
    requires n <= |lanes| && forall i :: n <= i < |lanes| ==> lanes[i] == []
    ensures Concat(lanes) == Concat(lanes[..n])
    decreases |lanes|
  {
    if n < |lanes| {
      var last := |lanes| - 1;
      ConcatEmpties(lanes[..last], n);
      assert lanes[..last][..n] == lanes[..n];
      ConcatSnoc(lanes[..last], []);
      assert lanes[..last] + [[]] == lanes;
    } else {
      assert lanes[..n] == lanes;
    }
  }

  lemma {:induction false} TotalSplit(before: seq<seq<Value>>, taken: seq<seq<Value>>, after: seq<seq<Value>>)
    requires Split(before, taken, after)
    ensures Total(before) == Total(taken) + Total(after)
  {
    if before != [] {
      TotalSplit(before[1..], taken[1..], after[1..]);
    }
  }

  lemma {:induction false} TotalZero(lanes: seq<seq<Value>>)
    ensures Total(lanes) == 0 <==> forall i :: 0 <= i < |lanes| ==> lanes[i] == []
  {
    if lanes != [] {
      TotalZero(lanes[1..]);
      if forall i :: 0 <= i < |lanes[1..]| ==> lanes[1..][i] == [] {
        forall i | 1 <= i < |lanes|
          ensures lanes[i] == []
        {
          assert lanes[i] == lanes[1..][i - 1];
        }
      } else {
        var i :| 0 <= i < |lanes[1..]| && lanes[1..][i] != [];
        assert lanes[i + 1] != [];
      }
    }
  }

  /** Lanes below i are done with, those from i on untouched. */
  ghost predicate Progress(lanes: seq<seq<Value>>, taken: seq<seq<Value>>, after: seq<seq<Value>>, i: nat) {
    && Split(lanes, taken, after)
    && (forall k :: 0 <= k < i && k < |lanes| ==> after[k] == [])
    && (forall k :: i <= k < |lanes| ==> taken[k] == [] && after[k] == lanes[k])
  }

  lemma NothingTaken(lanes: seq<seq<Value>>)
    ensures var none: seq<seq<Value>> := seq(|lanes|, _ => []);
            Progress(lanes, none, lanes, 0) && InTurn(none, lanes) && Concat(none) == []
  {
    var none: seq<seq<Value>> := seq(|lanes|, _ => []);
    ConcatEmpties(none, 0);
  }

  lemma TakeLane(lanes: seq<seq<Value>>, taken: seq<seq<Value>>, after: seq<seq<Value>>, i: nat, n: nat)
    requires Progress(lanes, taken, after, i) && i < |lanes| && n <= |lanes[i]|
    ensures var taken', after' := taken[i := lanes[i][..n]], after[i := lanes[i][n..]];
            && Split(lanes, taken', after') && InTurn(taken', after') && Concat(taken') == Concat(taken) + lanes[i][..n]
            && (n == |lanes[i]| ==> Progress(lanes, taken', after', i + 1))
  {
    var taken' := taken[i := lanes[i][..n]];
    ConcatEmpties(taken, i);
    ConcatEmpties(taken', i + 1);
    ConcatSnoc(taken[..i], taken'[i]);
    assert taken'[..i + 1] == taken[..i] + [taken'[i]];
  }

  // ---------------------------------------------------------------- the four queues

  /** A drain that stopped with less than it was asked for left nothing. */
  lemma DrainTotal(before: seq<seq<Value>>, taken: seq<seq<Value>>, after: seq<seq<Value>>, max: nat)
    requires Split(before, taken, after) && |Concat(taken)| <= max
    requires |Concat(taken)| < max ==> Progress(before, taken, after, |before|)
    ensures |Concat(taken)| == Min(max, Total(before))
  {
    hide Concat, Total;
    TotalConcat(taken);
    TotalSplit(before, taken, after);
    if |Concat(taken)| < max { TotalZero(after); }
  }

  ghost predicate SplitAll(before: seq<seq<seq<Value>>>, taken: seq<seq<seq<Value>>>, after: seq<seq<seq<Value>>>) {
    |before| == |taken| == |after| && forall p :: 0 <= p < |before| ==> Split(before[p], taken[p], after[p])
  }

  /** A priority is drawn on only when every higher one (a lower number) has run dry. */
  ghost predicate ByPriority(taken: seq<seq<seq<Value>>>, after: seq<seq<seq<Value>>>) {
    && |taken| == |after|
    && (forall p :: 0 <= p < |taken| ==> InTurn(taken[p], after[p]))
    && (forall p, q :: 0 <= p < q < |taken| && Total(taken[q]) > 0 ==> Total(after[p]) == 0)
  }

  lemma {:induction false} TotalAllConcat(queues: seq<seq<seq<Value>>>)
    ensures |ConcatAll(queues)| == TotalAll(queues)
  {
    if queues != [] {
      TotalConcat(queues[0]);
      TotalAllConcat(queues[1..]);
    }
  }

  lemma {:induction false} TotalAllSplit(before: seq<seq<seq<Value>>>, taken: seq<seq<seq<Value>>>, after: seq<seq<seq<Value>>>)
    requires SplitAll(before, taken, after)
    ensures TotalAll(before) == TotalAll(taken) + TotalAll(after)
  {
    if before != [] {
      TotalSplit(before[0], taken[0], after[0]);
      TotalAllSplit(before[1..], taken[1..], after[1..]);
    }
  }

  lemma {:induction false} ConcatAllSnoc(queues: seq<seq<seq<Value>>>, q: seq<seq<Value>>)
    ensures ConcatAll(queues + [q]) == ConcatAll(queues) + Concat(q)
  {
    if queues != [] {
      assert (queues + [q])[1..] == queues[1..] + [q];
      ConcatAllSnoc(queues[1..], q);
    } else {
      assert (queues + [q])[1..] == [];
    }
  }

  lemma {:induction false} TotalAllZero(queues: seq<seq<seq<Value>>>)
    requires forall p :: 0 <= p < |queues| ==> Total(queues[p]) == 0
    ensures TotalAll(queues) == 0
  {
    if queues != [] {
      TotalAllZero(queues[1..]);
    }
  }

  lemma NothingTakenHere(lanes: seq<seq<Value>>)
    ensures var none: seq<seq<Value>> := seq(|lanes|, _ => []);
            Split(lanes, none, lanes) && InTurn(none, lanes) && Concat(none) == [] && Total(none) == 0
  {
    NothingTaken(lanes);
    TotalZero(seq(|lanes|, _ => []));
  }

  /** What the next priority adds to a drain in progress: it is asked only when the higher ones are dry. */
  lemma ServedOne(before: seq<seq<seq<Value>>>, taken: seq<seq<seq<Value>>>, after: seq<seq<seq<Value>>>, p: nat,
                  part: seq<seq<Value>>, left: seq<seq<Value>>)
    requires p < |before| && |taken| == p && SplitAll(before[..p], taken, after) && ByPriority(taken, after)
    requires Split(before[p], part, left) && InTurn(part, left)
    requires Total(part) > 0 ==> forall q :: 0 <= q < p ==> Total(after[q]) == 0
    ensures SplitAll(before[..p + 1], taken + [part], after + [left]) && ByPriority(taken + [part], after + [left])
  {
    hide Split, InTurn, Total;
  }

  lemma UntouchedOne(before: seq<seq<seq<Value>>>, taken: seq<seq<seq<Value>>>, after: seq<seq<seq<Value>>>, p: nat)
    requires p < |before| && |taken| == p && SplitAll(before[..p], taken, after) && ByPriority(taken, after)
    ensures var none: seq<seq<Value>> := seq(|before[p]|, _ => []);
            && SplitAll(before[..p + 1], taken + [none], after + [before[p]])
            && ByPriority(taken + [none], after + [before[p]])
  {
    NothingTakenHere(before[p]);
    ServedOne(before, taken, after, p, seq(|before[p]|, _ => []), before[p]);
  }

  lemma PartLeft(lanes: seq<seq<Value>>, taken: seq<seq<Value>>, after: seq<seq<Value>>, n: nat)
    requires Split(lanes, taken, after) && n == |Concat(taken)|
    ensures Total(lanes) == n + Total(after)
  {
    TotalConcat(taken);
    TotalSplit(lanes, taken, after);
  }

  // ---------------------------------------------------------------- one drain after another

  ghost function Joined(t: seq<seq<Value>>, u: seq<seq<Value>>): seq<seq<Value>> {
    if |t| != |u| then [] else seq(|t|, i requires 0 <= i < |t| => t[i] + u[i])
  }

  ghost function JoinedAll(t: seq<seq<seq<Value>>>, u: seq<seq<seq<Value>>>): seq<seq<seq<Value>>> {
    if |t| != |u| then [] else seq(|t|, p requires 0 <= p < |t| => Joined(t[p], u[p]))
  }

  /** Two drains in a row take from every lane a longer front of it: each producer's order survives any number
      of drains, and what came out and what is left is what was there. */
  lemma DrainsCompose(before: seq<seq<seq<Value>>>, t: seq<seq<seq<Value>>>, mid: seq<seq<seq<Value>>>,
                      u: seq<seq<seq<Value>>>, after: seq<seq<seq<Value>>>)
    requires SplitAll(before, t, mid) && SplitAll(mid, u, after)
    ensures SplitAll(before, JoinedAll(t, u), after)
    ensures TotalAll(before) == |ConcatAll(t)| + |ConcatAll(u)| + TotalAll(after)
  {
    forall p | 0 <= p < |before|
      ensures Split(before[p], Joined(t[p], u[p]), after[p])
    {
      assert Split(before[p], t[p], mid[p]) && Split(mid[p], u[p], after[p]);
    }
    TotalAllSplit(before, t, mid);
    TotalAllSplit(mid, u, after);
    TotalAllConcat(t);
    TotalAllConcat(u);
  }
}
