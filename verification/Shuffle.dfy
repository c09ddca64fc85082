/**
 The Fisher-Yates shuffle with an optional limit (src/utils.ts). The random draws are a
 parameter: draws[k] is the index picked among the items still to be shuffled.
 */
module Shuffles {
  import opened Wrappers

  datatype ShuffleError = LimitTooLarge

  // All items are shuffled when the limit is a multiple of their number, 0 included. There is
  // no remainder by zero: an empty list takes the other branch.
  predicate Whole(n: nat, limit: int)
  {
    n > 0 && limit % n == 0
  }

  function LowerBound(n: nat, limit: int): nat
    requires limit <= n
  {
    if Whole(n, limit) then 1 else n - limit
  }

  // How many draws are made.
  function Count(n: nat, lowerBound: nat): nat
  {
    if n > lowerBound then n - lowerBound else 0
  }

  // Each draw picks one of the items left.
  predicate LegalDraws(draws: seq<nat>, n: nat, count: nat)
  {
    |draws| == count && count <= n && forall k :: 0 <= k < count ==> draws[k] < n - k
  }

  function Swap<T>(s: seq<T>, i: nat, j: nat): seq<T>
    requires i < |s| && j < |s|
  {
    s[i := s[j]][j := s[i]]
  }

  // What is left when the item at d has moved to the end.
  function Rest<T>(s: seq<T>, d: nat): (r: seq<T>)
    requires d < |s|
    ensures |r| == |s| - 1
  {
    Swap(s, |s| - 1, d)[..|s| - 1]
  }

  // The arrangement made from some items by some draws: each draw moves an item to the end of
  // what is left.
  function Arranged<T>(s: seq<T>, draws: seq<nat>): (r: seq<T>)
    requires LegalDraws(draws, |s|, |draws|)
    ensures |r| == |s|
    decreases |draws|
  {
    if draws == [] then s
    else
      LaterDraws(draws, |s|);
      Arranged(Rest(s, draws[0]), draws[1..]) + [s[draws[0]]]
  }

  lemma LaterDraws(draws: seq<nat>, n: nat)
    requires draws != [] && LegalDraws(draws, n, |draws|)
    ensures LegalDraws(draws[1..], n - 1, |draws[1..]|)
  {
    assert forall k :: 0 <= k < |draws| - 1 ==> draws[1..][k] == draws[k + 1];
  }

  // What is returned of an arrangement; slicing beyond the end gives nothing.
  function Returned<T>(arranged: seq<T>, limit: int): seq<T>
    requires limit <= |arranged|
  {
    if Whole(|arranged|, limit) then arranged else arranged[Min(LowerBound(|arranged|, limit), |arranged|)..]
  }

  method SwapItems<T>(items: array<T>, i: nat, j: nat)
    requires i < items.Length && j < items.Length
    modifies items
    ensures items[..] == Swap(old(items[..]), i, j)
  {
    var swapHold := items[i];
    items[i] := items[j];
    items[j] := swapHold;
  }

  method ShuffleInPlace<T>(items: array<T>, lowerBound: nat, draws: seq<nat>)
    requires LegalDraws(draws, items.Length, Count(items.Length, lowerBound))
    modifies items
    ensures LegalDraws(draws, items.Length, |draws|) && items[..] == Arranged(old(items[..]), draws)
  {
    hide Arranged, LegalDraws, Swap;
    var remaining := items.Length;
    var k := 0;
    ghost var now := items[..];
    DrawsLeft(draws, remaining, Count(items.Length, lowerBound));
    assert now[..remaining] == now && now + now[remaining..] == now;
    assert Arranged(now, draws) + now[remaining..] == Arranged(now, draws);
    while remaining > lowerBound
      invariant 0 <= remaining <= items.Length == |now| && k == items.Length - remaining <= |draws|
      invariant items[..] == now
      invariant LegalDraws(draws[k..], remaining, |draws| - k)
      invariant Arranged(now[..remaining], draws[k..]) + now[remaining..] == Arranged(old(items[..]), draws)
    {
      FirstDraw(draws[k..], remaining);
      remaining := remaining - 1;
      ArrangedStep(now, remaining, draws[k..]);
      SwapItems(items, remaining, draws[k]);
      now := Swap(now, remaining, draws[k]);
      assert draws[k..][1..] == draws[k + 1..];
      k := k + 1;
    }
    NoDraws(now[..remaining], draws[k..]);
  }

  method Shuffle<T>(sequence: seq<T>, limit: int, draws: seq<nat>) returns (r: Result<seq<T>, ShuffleError>)
    requires limit <= |sequence| ==> LegalDraws(draws, |sequence|, Count(|sequence|, LowerBound(|sequence|, limit)))
    ensures limit > |sequence| ==> r == Err(LimitTooLarge)
    ensures limit <= |sequence| ==>
      LegalDraws(draws, |sequence|, |draws|) && r == Ok(Returned(Arranged(sequence, draws), limit))
  {
    hide Arranged, LegalDraws;
    var items := new T[|sequence|](i requires 0 <= i < |sequence| => sequence[i]);
    assert items[..] == sequence;
    if limit > items.Length {
      return Err(LimitTooLarge);
    }
    var lowerBound := if Whole(items.Length, limit) then 1 else items.Length - limit;
    ShuffleInPlace(items, lowerBound, draws);
    r := Ok(if Whole(items.Length, limit) then items[..] else items[..][Min(lowerBound, items.Length)..]);
  }

  lemma NoDraws<T>(s: seq<T>, draws: seq<nat>)
    requires draws == []
    ensures LegalDraws(draws, |s|, |draws|) && Arranged(s, draws) == s
  {
  }

  lemma ArrangedStep<T>(before: seq<T>, remaining: nat, draws: seq<nat>)
    requires remaining < |before| && draws != [] && LegalDraws(draws, remaining + 1, |draws|)
    ensures draws[0] <= remaining
    ensures LegalDraws(draws[1..], remaining, |draws| - 1)
    ensures var after := Swap(before, remaining, draws[0]);
      && |after| == |before|
      && Arranged(before[..remaining + 1], draws) + before[remaining + 1..]
         == Arranged(after[..remaining], draws[1..]) + after[remaining..]
  {
    hide LegalDraws, Arranged;
    LaterDraws(draws, remaining + 1);
    FirstDraw(draws, remaining + 1);
    OneDraw(before[..remaining + 1], draws);
    var s, rest, after := before[..remaining + 1], before[remaining + 1..], Swap(before, remaining, draws[0]);
    assert Rest(s, draws[0]) == after[..remaining];
    assert after[remaining..] == [s[draws[0]]] + rest;
    Regroup(Arranged(after[..remaining], draws[1..]), [s[draws[0]]], rest);
  }

  lemma OneDraw<T>(s: seq<T>, draws: seq<nat>)
    requires draws != [] && LegalDraws(draws, |s|, |draws|)
    ensures draws[0] < |s| && LegalDraws(draws[1..], |s| - 1, |draws| - 1)
    ensures Arranged(s, draws) == Arranged(Rest(s, draws[0]), draws[1..]) + [s[draws[0]]]
  {
    LaterDraws(draws, |s|);
  }

  lemma DrawsLeft(draws: seq<nat>, n: nat, count: nat)
    requires LegalDraws(draws, n, count)
    ensures |draws| == count <= n && LegalDraws(draws, n, |draws|) && draws[0..] == draws
  {
  }

  lemma FirstDraw(draws: seq<nat>, n: nat)
    requires draws != [] && LegalDraws(draws, n, |draws|)
    ensures draws[0] < n
  {
  }

  lemma Regroup<T>(a: seq<T>, b: seq<T>, c: seq<T>)
    ensures a + b + c == a + (b + c)
  {
  }

  // ----- Draws and selections -----

  predicate Distinct<T(==)>(s: seq<T>)
  {
    forall i, j :: 0 <= i < j < |s| ==> s[i] != s[j]
  }

  // An ordered selection of some items, none twice.
  predicate Selection<T(==)>(t: seq<T>, items: seq<T>)
  {
    Distinct(t) && forall x :: x in t ==> x in items
  }

  // Taking one out of distinct items leaves the others.
  lemma RestSelects<T>(s: seq<T>, d: nat)
    requires d < |s| && Distinct(s)
    ensures Distinct(Rest(s, d)) && s[d] !in Rest(s, d)
    ensures forall x :: x in Rest(s, d) <==> x in s && x != s[d]
  {
    var last, rest := |s| - 1, Rest(s, d);
    forall x | x in s && x != s[d]
      ensures x in rest
    {
      var i :| 0 <= i < |s| && s[i] == x;
      assert rest[if i == last then d else i] == x;
    }
  }

  // An arrangement is of the same items, each once.
  lemma {:induction false} ArrangedSelects<T>(s: seq<T>, draws: seq<nat>)
    requires Distinct(s) && LegalDraws(draws, |s|, |draws|)
    ensures Selection(Arranged(s, draws), s)
    ensures forall x :: x in s ==> x in Arranged(s, draws)
    decreases |draws|
  {
    if draws != [] {
      hide LegalDraws, Arranged, Rest;
      OneDraw(s, draws);
      RestSelects(s, draws[0]);
      ArrangedSelects(Rest(s, draws[0]), draws[1..]);
    }
  }

  function IndexOf<T(==)>(s: seq<T>, x: T): (i: nat)
    requires x in s
    ensures i < |s| && s[i] == x
  {
    if s[0] == x then 0 else 1 + IndexOf(s[1..], x)
  }

  function Front<T>(t: seq<T>): seq<T>
    requires t != []
  {
    t[..|t| - 1]
  }

  lemma FrontSelects<T>(s: seq<T>, t: seq<T>)
    requires Distinct(s) && Selection(t, s) && t != []
    ensures var x := t[|t| - 1];
      x in s && Distinct(Rest(s, IndexOf(s, x))) && Selection(Front(t), Rest(s, IndexOf(s, x)))
  {
    var x := t[|t| - 1];
    RestSelects(s, IndexOf(s, x));
  }

  // The draws that put t at the end of the arrangement.
  function DrawsFor<T(==)>(s: seq<T>, t: seq<T>): (draws: seq<nat>)
    requires Distinct(s) && Selection(t, s) && |t| <= |s|
    ensures LegalDraws(draws, |s|, |t|)
    decreases |t|
  {
    if t == [] then []
    else
      FrontSelects(s, t);
      var d := IndexOf(s, t[|t| - 1]);
      var later := DrawsFor(Rest(s, d), Front(t));
      assert forall k :: 0 < k < |t| ==> ([d] + later)[k] == later[k - 1];
      [d] + later
  }

  lemma {:induction false} DrawsForArrange<T>(s: seq<T>, t: seq<T>)
    requires Distinct(s) && Selection(t, s) && |t| <= |s|
    ensures Arranged(s, DrawsFor(s, t))[|s| - |t|..] == t
    decreases |t|
  {
    if t != [] {
      hide Arranged, Distinct, Selection, Rest, Front, IndexOf, LegalDraws;
      FrontSelects(s, t);
      var draws, d := DrawsFor(s, t), IndexOf(s, t[|t| - 1]);
      DrawsLeft(draws, |s|, |t|);
      assert draws[0] == d && draws[1..] == DrawsFor(Rest(s, d), Front(t));
      OneDraw(s, draws);
      FrontLast(t);
      DrawsForArrange(Rest(s, d), Front(t));
      TailOf(Arranged(Rest(s, d), draws[1..]), s[d], |s| - |t|);
    }
  }

  lemma FrontLast<T>(t: seq<T>)
    requires t != []
    ensures |Front(t)| == |t| - 1 && t == Front(t) + [t[|t| - 1]]
  {
  }

  lemma TailOf<T>(a: seq<T>, x: T, k: nat)
    requires k <= |a|
    ensures (a + [x])[k..] == a[k..] + [x] && Front((a + [x])[k..]) == a[k..] && (a + [x])[k..][|a| - k] == x
  {
  }

  lemma {:induction false} ArrangeForDraws<T>(s: seq<T>, draws: seq<nat>)
    requires Distinct(s) && LegalDraws(draws, |s|, |draws|)
    ensures var t := Arranged(s, draws)[|s| - |draws|..];
      Selection(t, s) && DrawsFor(s, t) == draws
    decreases |draws|
  {
    TailSelects(s, draws);
    if draws != [] {
      hide Arranged, Distinct, Selection, Rest, Front, LegalDraws, IndexOf;
      var rest := Rest(s, draws[0]);
      OneDraw(s, draws);
      RestSelects(s, draws[0]);
      ArrangeForDraws(rest, draws[1..]);
      var t, k := Arranged(s, draws)[|s| - |draws|..], |s| - |draws|;
      TailOf(Arranged(rest, draws[1..]), s[draws[0]], k);
      IndexUnique(s, draws[0]);
      FrontSelects(s, t);
      assert DrawsFor(s, t) == [draws[0]] + DrawsFor(rest, Front(t));
    }
  }

  lemma TailSelects<T>(s: seq<T>, draws: seq<nat>)
    requires Distinct(s) && LegalDraws(draws, |s|, |draws|)
    ensures |draws| <= |s| && Selection(Arranged(s, draws)[|s| - |draws|..], s)
  {
    ArrangedSelects(s, draws);
  }

  lemma IndexUnique<T>(s: seq<T>, d: nat)
    requires d < |s| && Distinct(s)
    ensures IndexOf(s, s[d]) == d
  {
  }

  // ----- Main results -----

  // One draw for each item returned; but when all are, the last item needs none.
  lemma DrawsMade(n: nat, limit: nat)
    requires limit <= n
    ensures Count(n, LowerBound(n, limit)) == if n > 0 && (limit == 0 || limit == n) then n - 1 else limit
  {
  }

  // How many items are returned for a limit.
  function Size(n: nat, limit: nat): nat
    requires limit <= n
  {
    if Whole(n, limit) then n else limit
  }

  function DrawsOf<T(==)>(items: seq<T>, limit: nat, t: seq<T>): seq<nat>
    requires Distinct(items) && limit <= |items| && Selection(t, items) && |t| == Size(|items|, limit)
  {
    if Whole(|items|, limit) then
      assert forall x :: x in t[1..] ==> x in t;
      DrawsFor(items, t[1..])
    else DrawsFor(items, t)
  }

  // Whatever is drawn, the result is an ordered selection of the asked size.
  lemma ShuffleSelects<T>(items: seq<T>, limit: nat, draws: seq<nat>)
    requires Distinct(items) && limit <= |items|
    requires LegalDraws(draws, |items|, Count(|items|, LowerBound(|items|, limit)))
    ensures LegalDraws(draws, |items|, |draws|)
    ensures var t := Returned(Arranged(items, draws), limit); Selection(t, items) && |t| == Size(|items|, limit)
  {
    hide Arranged, LegalDraws;
    DrawsLeft(draws, |items|, Count(|items|, LowerBound(|items|, limit)));
    ArrangedSelects(items, draws);
  }

  // Every ordered selection of that size comes out, for the draws DrawsOf gives.
  lemma EverySelectionDrawn<T>(items: seq<T>, limit: nat, t: seq<T>)
    requires Distinct(items) && limit <= |items| && Selection(t, items) && |t| == Size(|items|, limit)
    ensures var draws := DrawsOf(items, limit, t);
      && LegalDraws(draws, |items|, Count(|items|, LowerBound(|items|, limit))) && LegalDraws(draws, |items|, |draws|)
      && Returned(Arranged(items, draws), limit) == t
  {
    hide Arranged, DrawsFor;
    if Whole(|items|, limit) {
      assert forall x :: x in t[1..] ==> x in t;
      DrawsForArrange(items, t[1..]);
      SameFirst(items, t);
    } else {
      DrawsForArrange(items, t);
    }
  }

  // Two arrangements of all items that agree from the second on agree on the first.
  lemma SameFirst<T>(items: seq<T>, t: seq<T>)
    requires items != [] && Distinct(items) && Selection(t, items) && |t| == |items| && Selection(t[1..], items)
    requires Arranged(items, DrawsFor(items, t[1..]))[1..] == t[1..]
    ensures Arranged(items, DrawsFor(items, t[1..])) == t
  {
    hide Arranged, DrawsFor;
    var a := Arranged(items, DrawsFor(items, t[1..]));
    ArrangedSelects(items, DrawsFor(items, t[1..]));
    assert t[0] in a;
    assert t[0] !in t[1..];
    assert a == [a[0]] + a[1..] && t == [t[0]] + t[1..];
  }

  // And for no other draws: so equally likely draws make equally likely selections.
  lemma DrawsRecovered<T>(items: seq<T>, limit: nat, draws: seq<nat>)
    requires Distinct(items) && limit <= |items|
    requires LegalDraws(draws, |items|, Count(|items|, LowerBound(|items|, limit)))
    ensures LegalDraws(draws, |items|, |draws|)
    ensures var t := Returned(Arranged(items, draws), limit);
      Selection(t, items) && |t| == Size(|items|, limit) && DrawsOf(items, limit, t) == draws
  {
    hide Arranged, LegalDraws, DrawsFor, Distinct, Selection;
    DrawsLeft(draws, |items|, Count(|items|, LowerBound(|items|, limit)));
    ShuffleSelects(items, limit, draws);
    ArrangeForDraws(items, draws);
    var t := Returned(Arranged(items, draws), limit);
    if Whole(|items|, limit) {
      assert |draws| == |items| - 1 && t[1..] == Arranged(items, draws)[|items| - |draws|..];
    } else {
      assert |draws| == limit && t == Arranged(items, draws)[|items| - |draws|..];
    }
  }
}
