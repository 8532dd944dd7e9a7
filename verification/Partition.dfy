/** Greedy partition of a batch into groups that can be submitted side by side. */
module Partition {

  import opened Basics
  import opened Ledger

  ghost predicate Clash(a: Tx, b: Tx) {
    Overlap(a.inputs, b.inputs)
  }

  ghost predicate Independent(group: seq<Tx>) {
    forall k, l :: 0 <= k < l < |group| ==> !Clash(group[k], group[l])
  }

  /** Each member of a group clashes with a member of every earlier group. */
  ghost predicate Forced(groups: seq<seq<Tx>>) {
    forall i, j, t :: 0 <= j < i < |groups| && t in groups[i] ==> ClashesIn(groups[j], t)
  }

  ghost predicate ClashesIn(group: seq<Tx>, t: Tx) {
    exists u :: u in group && Clash(u, t)
  }

  function Flatten(groups: seq<seq<Tx>>): seq<Tx> {
    if groups == [] then [] else groups[0] + Flatten(groups[1..])
  }

  /** Other positions of the batch that clash with position `p`. */
  ghost function Rivals(txs: seq<Tx>, p: nat): set<nat>
    requires p < |txs|
  {
    set q: nat | q < |txs| && q != p && Clash(txs[q], txs[p])
  }

  // ----- Counting groups

  /** `colour` puts each position in the first group without a clash. */
  ghost predicate FirstFit(txs: seq<Tx>, colour: seq<nat>) {
    && |colour| <= |txs|
    && forall p, g :: 0 <= p < |colour| && 0 <= g < colour[p] ==> HasRival(txs, colour, p, g)
  }

  ghost predicate HasRival(txs: seq<Tx>, colour: seq<nat>, p: nat, g: nat)
    requires p < |txs| && |colour| <= |txs|
  {
    exists q: nat :: q < |colour| && q != p && colour[q] == g && Clash(txs[q], txs[p])
  }

  lemma {:induction false} RivalsBelow(txs: seq<Tx>, colour: seq<nat>, p: nat, g: nat)
    requires FirstFit(txs, colour) && p < |colour| && g <= colour[p]
    ensures |set q | q in Rivals(txs, p) && q < |colour| && colour[q] < g| >= g
    decreases g
  {
    if g > 0 {
      RivalsBelow(txs, colour, p, g - 1);
      assert HasRival(txs, colour, p, g - 1);
      var q: nat :| q < |colour| && q != p && colour[q] == g - 1 && Clash(txs[q], txs[p]);
      var fewer := set q | q in Rivals(txs, p) && q < |colour| && colour[q] < g - 1;
      var all := set q | q in Rivals(txs, p) && q < |colour| && colour[q] < g;
      assert fewer + {q} <= all;
      SubsetSize(fewer + {q}, all);
    }
  }

  lemma ColourBoundsRivals(txs: seq<Tx>, colour: seq<nat>, p: nat)
    requires FirstFit(txs, colour) && p < |colour|
    ensures |Rivals(txs, p)| >= colour[p]
  {
    RivalsBelow(txs, colour, p, colour[p]);
    SubsetSize((set q | q in Rivals(txs, p) && q < |colour| && colour[q] < colour[p]), Rivals(txs, p));
  }

  lemma {:induction false} FlattenPush(groups: seq<seq<Tx>>, i: nat, t: Tx)
    requires i < |groups|
    ensures multiset(Flatten(groups[i := groups[i] + [t]])) == multiset(Flatten(groups)) + multiset{t}
  {
    var more := groups[i := groups[i] + [t]];
    if i == 0 {
      assert more[1..] == groups[1..];
    } else {
      assert more[1..] == groups[1..][i - 1 := groups[i] + [t]];
      FlattenPush(groups[1..], i - 1, t);
    }
  }

  lemma {:induction false} FlattenOpen(groups: seq<seq<Tx>>, t: Tx)
    ensures multiset(Flatten(groups + [[t]])) == multiset(Flatten(groups)) + multiset{t}
  {
    if groups == [] {
      assert groups + [[t]] == [[t]] && [[t]][1..] == [];
    } else {
      assert (groups + [[t]])[1..] == groups[1..] + [[t]];
      FlattenOpen(groups[1..], t);
    }
  }

  // ----- The partition

  /** `covered[i]` holds the inputs of group `i`, and `colour` the group of each position. */
  ghost predicate Books(txs: seq<Tx>, groups: seq<seq<Tx>>, covered: seq<set<OutPoint>>, colour: seq<nat>) {
    && |covered| == |groups| && |colour| <= |txs|
    && (forall i, o :: 0 <= i < |groups| ==> (o in covered[i] <==> exists t :: t in groups[i] && o in t.inputs))
    && (forall i, t :: 0 <= i < |groups| && t in groups[i] ==>
         exists q :: 0 <= q < |colour| && colour[q] == i && txs[q] == t)
    && (groups != [] ==> exists q :: 0 <= q < |colour| && colour[q] == |groups| - 1)
  }

  ghost predicate Placed(txs: seq<Tx>, colour: seq<nat>, g: nat, t: Tx)
    requires |colour| <= |txs|
  {
    exists q :: 0 <= q < |colour| && colour[q] == g && Clash(txs[q], t)
  }

  lemma MeetsGroup(txs: seq<Tx>, groups: seq<seq<Tx>>, covered: seq<set<OutPoint>>, colour: seq<nat>, i: nat, t: Tx)
    requires Books(txs, groups, covered, colour) && i < |groups|
    ensures covered[i] !! Elems(t.inputs) <==> !ClashesIn(groups[i], t)
    ensures ClashesIn(groups[i], t) ==> Placed(txs, colour, i, t)
  {
    if ClashesIn(groups[i], t) {
      var u :| u in groups[i] && Clash(u, t);
      var o :| o in u.inputs && o in t.inputs;
      assert o in covered[i] && o in Elems(t.inputs);
    } else {
      forall o | o in covered[i]
        ensures o !in t.inputs
      {
        var u :| u in groups[i] && o in u.inputs;
        assert !Clash(u, t);
      }
    }
  }

  /** The next position takes colour `i` when every group before `i` clashes with it. */
  lemma ColourMore(txs: seq<Tx>, colour: seq<nat>, i: nat)
    requires FirstFit(txs, colour) && |colour| < |txs|
    requires forall j: nat :: j < i ==> Placed(txs, colour, j, txs[|colour|])
    ensures FirstFit(txs, colour + [i])
  {
    var more := colour + [i];
    forall p, g | 0 <= p < |more| && 0 <= g < more[p]
      ensures HasRival(txs, more, p, g)
    {
      if p < |colour| {
        assert HasRival(txs, colour, p, g);
        var q: nat :| q < |colour| && q != p && colour[q] == g && Clash(txs[q], txs[p]);
        assert more[q] == g;
      } else {
        assert Placed(txs, colour, g, txs[p]);
        var q :| 0 <= q < |colour| && colour[q] == g && Clash(txs[q], txs[p]);
        assert more[q] == g;
      }
    }
  }

  lemma PushBooks(txs: seq<Tx>, groups: seq<seq<Tx>>, covered: seq<set<OutPoint>>, colour: seq<nat>, i: nat)
    requires Books(txs, groups, covered, colour) && i < |groups| && |colour| < |txs|
    ensures var t := txs[|colour|];
      Books(txs, groups[i := groups[i] + [t]], covered[i := covered[i] + Elems(t.inputs)], colour + [i])
  {
    var t, more := txs[|colour|], colour + [i];
    assert more[|colour|] == i;
    forall k, u | 0 <= k < |groups| && u in groups[k]
      ensures exists q :: 0 <= q < |more| && more[q] == k && txs[q] == u
    {
      var q :| 0 <= q < |colour| && colour[q] == k && txs[q] == u;
      assert more[q] == k;
    }
    var q :| 0 <= q < |colour| && colour[q] == |groups| - 1;
    assert more[q] == |groups| - 1;
    assert t in groups[i] + [t];
  }

  lemma OpenBooks(txs: seq<Tx>, groups: seq<seq<Tx>>, covered: seq<set<OutPoint>>, colour: seq<nat>)
    requires Books(txs, groups, covered, colour) && |colour| < |txs|
    ensures var t := txs[|colour|];
      Books(txs, groups + [[t]], covered + [Elems(t.inputs)], colour + [|groups|])
  {
    var t, more := txs[|colour|], colour + [|groups|];
    assert more[|colour|] == |groups| && (groups + [[t]])[|groups|] == [t];
    forall k, u | 0 <= k < |groups| && u in groups[k]
      ensures exists q :: 0 <= q < |more| && more[q] == k && txs[q] == u
    {
      var q :| 0 <= q < |colour| && colour[q] == k && txs[q] == u;
      assert more[q] == k;
    }
  }

  lemma PushKeeps(groups: seq<seq<Tx>>, i: nat, t: Tx)
    requires i < |groups| && Forced(groups) && !ClashesIn(groups[i], t)
    requires forall g :: 0 <= g < |groups| ==> Independent(groups[g])
    requires forall j :: 0 <= j < i ==> ClashesIn(groups[j], t)
    ensures var more := groups[i := groups[i] + [t]];
      Forced(more) && forall g :: 0 <= g < |more| ==> Independent(more[g])
  {
    var more := groups[i := groups[i] + [t]];
    forall a, b, u | 0 <= b < a < |more| && u in more[a]
      ensures ClashesIn(more[b], u)
    {
      assert ClashesIn(groups[b], u);
      var v :| v in groups[b] && Clash(v, u);
      assert v in more[b];
    }
    forall k, l | 0 <= k < l < |more[i]|
      ensures !Clash(more[i][k], more[i][l])
    {
      assert more[i][k] in groups[i];
    }
  }

  lemma OpenKeeps(groups: seq<seq<Tx>>, t: Tx)
    requires Forced(groups) && forall g :: 0 <= g < |groups| ==> Independent(groups[g])
    requires forall j :: 0 <= j < |groups| ==> ClashesIn(groups[j], t)
    ensures var more := groups + [[t]];
      Forced(more) && forall g :: 0 <= g < |more| ==> Independent(more[g])
  {
  }

  ghost predicate Sorted(txs: seq<Tx>, groups: seq<seq<Tx>>, covered: seq<set<OutPoint>>, colour: seq<nat>) {
    && Books(txs, groups, covered, colour) && FirstFit(txs, colour) && Forced(groups)
    && multiset(Flatten(groups)) == multiset(txs[..|colour|])
    && forall g :: 0 <= g < |groups| ==> Independent(groups[g])
  }

  /** Every group before `i` clashes with the next transaction. */
  ghost predicate Blocked(txs: seq<Tx>, groups: seq<seq<Tx>>, colour: seq<nat>, i: nat, t: Tx)
    requires |colour| <= |txs| && i <= |groups|
  {
    && (forall j :: 0 <= j < i ==> ClashesIn(groups[j], t))
    && (forall j: nat :: j < i ==> Placed(txs, colour, j, t))
  }

  lemma PushSorted(txs: seq<Tx>, groups: seq<seq<Tx>>, covered: seq<set<OutPoint>>, colour: seq<nat>, i: nat)
    requires Sorted(txs, groups, covered, colour) && |colour| < |txs| && i < |groups|
    requires Blocked(txs, groups, colour, i, txs[|colour|]) && !ClashesIn(groups[i], txs[|colour|])
    ensures var t := txs[|colour|];
      Sorted(txs, groups[i := groups[i] + [t]], covered[i := covered[i] + Elems(t.inputs)], colour + [i])
  {
    var t := txs[|colour|];
    assert txs[..|colour| + 1] == txs[..|colour|] + [t];
    ColourMore(txs, colour, i);
    PushKeeps(groups, i, t);
    FlattenPush(groups, i, t);
    PushBooks(txs, groups, covered, colour, i);
  }

  lemma OpenSorted(txs: seq<Tx>, groups: seq<seq<Tx>>, covered: seq<set<OutPoint>>, colour: seq<nat>)
    requires Sorted(txs, groups, covered, colour) && |colour| < |txs|
    requires Blocked(txs, groups, colour, |groups|, txs[|colour|])
    ensures var t := txs[|colour|];
      Sorted(txs, groups + [[t]], covered + [Elems(t.inputs)], colour + [|groups|])
  {
    var t := txs[|colour|];
    assert txs[..|colour| + 1] == txs[..|colour|] + [t];
    ColourMore(txs, colour, |groups|);
    OpenKeeps(groups, t);
    FlattenOpen(groups, t);
    OpenBooks(txs, groups, covered, colour);
  }

  /** The first group the next transaction fits in, or the number of groups. */
  method FindGroup(txs: seq<Tx>, groups: seq<seq<Tx>>, covered: seq<set<OutPoint>>, ghost colour: seq<nat>, t: Tx)
      returns (i: nat)
    requires Books(txs, groups, covered, colour)
    ensures i <= |groups| && Blocked(txs, groups, colour, i, t)
    ensures i < |groups| ==> !ClashesIn(groups[i], t)
  {
    i := 0;
    while i < |groups|
      invariant i <= |groups| && Blocked(txs, groups, colour, i, t)
    {
      MeetsGroup(txs, groups, covered, colour, i, t);
      if covered[i] !! Elems(t.inputs) { return; }
      i := i + 1;
    }
  }

  /** Conserves the batch, groups are free of clashes and as early as possible, and their
      number is bounded by the largest number of clashes of one transaction. */
  method PartitionNonConflicting(txs: seq<Tx>) returns (groups: seq<seq<Tx>>)
    ensures multiset(Flatten(groups)) == multiset(txs)
    ensures forall i :: 0 <= i < |groups| ==> Independent(groups[i])
    ensures Forced(groups)
    ensures groups != [] ==> exists p: nat :: p < |txs| && |groups| <= |Rivals(txs, p)| + 1
  {
    groups := [];
    var covered: seq<set<OutPoint>> := [];
    ghost var colour: seq<nat> := [];
    for p := 0 to |txs|
      invariant |colour| == p && Sorted(txs, groups, covered, colour)
    {
      var t := txs[p];
      var i := FindGroup(txs, groups, covered, colour, t);
      if i < |groups| {
        PushSorted(txs, groups, covered, colour, i);
        covered, groups := covered[i := covered[i] + Elems(t.inputs)], groups[i := groups[i] + [t]];
      } else {
        OpenSorted(txs, groups, covered, colour);
        covered, groups := covered + [Elems(t.inputs)], groups + [[t]];
      }
      colour := colour + [i];
    }
    assert txs[..|txs|] == txs;
    if groups != [] {
      ghost var p :| 0 <= p < |colour| && colour[p] == |groups| - 1;
      ColourBoundsRivals(txs, colour, p);
    }
  }
}
