/**
 The loops inside the agent's nodes.  Each method says what comes out in terms of what went in, and
 that it computes the function by which Conversation models the node.
 */
module NodeLoops {
  import opened Outcomes
  import opened Similarity
  import opened CartFilter
  import opened Conversation
  import opened Picking

  // ---------- parse_intent: merging ----------

  datatype Topic = OfName | OfBrand | OfQty

  /** The item says something of the topic. */
  predicate Says(e: Extracted, topic: Topic)
  {
    match topic
    case OfName => e.name != ""
    case OfBrand => e.brand.Some? && e.brand.value != ""
    case OfQty => e.qty.Some?
  }

  ghost function Saying(extracted: seq<Extracted>, topic: Topic): set<nat>
  {
    set n | 0 <= n < |extracted| && Says(extracted[n], topic)
  }

  /** The last of the items `among` that went into line `k`. */
  ghost function LastInto(into: seq<nat>, among: set<nat>, k: nat): (last: Option<nat>)
    ensures last.Some? ==> last.value < |into|
  {
    if into == [] then None
    else
      var n := |into| - 1;
      if into[n] == k && n in among then Some(n) else LastInto(into[..n], among, k)
  }

  lemma {:induction false} LastIntoIsLast(into: seq<nat>, among: set<nat>, k: nat)
    ensures var last := LastInto(into, among, k);
            && (last.Some? ==> into[last.value] == k && last.value in among)
            && forall n :: 0 <= n < |into| && into[n] == k && n in among ==> last.Some? && n <= last.value
  {
    if into != [] {
      LastIntoIsLast(into[..|into| - 1], among, k);
    }
  }

  const BLANK := Line("", None, None, false, "", Unset)

  ghost function Was(lines: seq<Line>, k: nat): Line
  {
    if k < |lines| then lines[k] else BLANK
  }

  /**
   On each topic the line says what the last item that went into it said, or else what it said before;
   a line that was told anything has to be looked up again.
   */
  ghost predicate Retold(was: Line, extracted: seq<Extracted>, into: seq<nat>, k: nat, now: Line)
    requires |into| <= |extracted|
  {
    var name := LastInto(into, Saying(extracted, OfName), k);
    var brand := LastInto(into, Saying(extracted, OfBrand), k);
    var qty := LastInto(into, Saying(extracted, OfQty), k);
    && now.name == (if name.Some? then extracted[name.value].name else was.name)
    && (if brand.Some? then now.brand == extracted[brand.value].brand
        else now.brand == was.brand || (was == BLANK && now.brand == Some("")))
    && now.qty == (if qty.Some? then extracted[qty.value].qty else was.qty)
    && (if name.Some? || brand.Some? || qty.Some? then !now.resolved && now.itemId == "" && now.status == Unset
        else now.resolved == was.resolved && now.itemId == was.itemId && now.status == was.status)
  }

  ghost predicate Mentioned(line: Line, extracted: seq<Extracted>, normalize: string -> string)
  {
    exists n :: 0 <= n < |extracted| && Similar(normalize(line.name), normalize(extracted[n].name))
  }

  /** Item `n` went into the first line that was similar when its turn came, or into a new last line. */
  ghost predicate WentInto(lines: seq<Line>, extracted: seq<Extracted>, normalize: string -> string, n: nat, k: nat)
    requires n < |extracted|
  {
    k == FirstSimilar(Merge(lines, extracted[..n], normalize), extracted[n].name, normalize, 0)
  }

  /** Every line has been retold by the items that went into it, and every new line comes from one. */
  ghost predicate Carried(lines: seq<Line>, extracted: seq<Extracted>, merged: seq<Line>, into: seq<nat>)
  {
    && |into| <= |extracted| && |lines| <= |merged|
    && (forall n :: 0 <= n < |into| ==> into[n] < |merged|)
    && (forall k :: |lines| <= k < |merged| ==> k in into)
    && forall k :: 0 <= k < |merged| ==> Retold(Was(lines, k), extracted, into, k, merged[k])
  }

  /** A merge confirms nothing: each line is an old one in its place, or unresolved. */
  ghost predicate NothingConfirmed(lines: seq<Line>, merged: seq<Line>)
  {
    |lines| <= |merged| && forall k :: 0 <= k < |merged| && merged[k].resolved ==> k < |lines| && merged[k] == lines[k]
  }

  ghost predicate UnmentionedKept(lines: seq<Line>, extracted: seq<Extracted>, merged: seq<Line>, normalize: string -> string)
  {
    |lines| <= |merged| && forall k :: 0 <= k < |lines| && !Mentioned(lines[k], extracted, normalize) ==> merged[k] == lines[k]
  }

  lemma LastIntoNext(into: seq<nat>, among: set<nat>, j: nat, k: nat)
    ensures LastInto(into + [j], among, k) == if j == k && |into| in among then Some(|into|) else LastInto(into, among, k)
  {
    assert (into + [j])[..|into|] == into;
  }

  lemma LastIntoNextAll(extracted: seq<Extracted>, into: seq<nat>, j: nat, k: nat)
    ensures forall topic ::
      LastInto(into + [j], Saying(extracted, topic), k)
      == if j == k && |into| in Saying(extracted, topic) then Some(|into|) else LastInto(into, Saying(extracted, topic), k)
  {
    forall topic
      ensures LastInto(into + [j], Saying(extracted, topic), k)
           == if j == k && |into| in Saying(extracted, topic) then Some(|into|) else LastInto(into, Saying(extracted, topic), k)
    {
      LastIntoNext(into, Saying(extracted, topic), j, k);
    }
  }

  /** The next item goes into line `j`; what that means for line `k`. */
  lemma RetoldNext(was: Line, extracted: seq<Extracted>, into: seq<nat>, j: nat, k: nat, before: Line)
    requires |into| < |extracted| && Retold(was, extracted, into, k, before)
    ensures Retold(was, extracted, into + [j], k, if j == k then Updated(before, extracted[|into|]) else before)
  {
    LastIntoNextAll(extracted, into, j, k);
  }

  lemma RetoldNew(extracted: seq<Extracted>, into: seq<nat>, k: nat)
    requires |into| < |extracted| && forall n :: 0 <= n < |into| ==> into[n] != k
    ensures Retold(BLANK, extracted, into + [k], k, NewLine(extracted[|into|]))
  {
    LastIntoNextAll(extracted, into, k, k);
    forall topic ensures LastInto(into, Saying(extracted, topic), k).None? {
      LastIntoIsLast(into, Saying(extracted, topic), k);
    }
  }

  lemma CarriedNext(lines: seq<Line>, extracted: seq<Extracted>, before: seq<Line>, into: seq<nat>, k: nat, after: seq<Line>)
    requires |into| < |extracted| && Carried(lines, extracted, before, into) && k <= |before|
    requires after == if k < |before| then before[k := Updated(before[k], extracted[|into|])] else before + [NewLine(extracted[|into|])]
    ensures Carried(lines, extracted, after, into + [k])
  {
    var next := into + [k];
    assert next[|into|] == k;
    forall j | 0 <= j < |after| ensures Retold(Was(lines, j), extracted, next, j, after[j]) {
      if j < |before| {
        RetoldNext(Was(lines, j), extracted, into, k, j, before[j]);
      } else {
        RetoldNew(extracted, into, k);
      }
    }
    forall j | |lines| <= j < |after| ensures j in next {
      assert j < |before| ==> j in into;
    }
  }

  lemma UnmentionedNext(lines: seq<Line>, extracted: seq<Extracted>, n: nat, normalize: string -> string,
                        before: seq<Line>, after: seq<Line>, k: nat)
    requires n < |extracted| && UnmentionedKept(lines, extracted[..n], before, normalize)
    requires |before| <= |after| && forall j :: 0 <= j < |before| && j != k ==> after[j] == before[j]
    requires k < |before| ==> Similar(normalize(before[k].name), normalize(extracted[n].name))
    ensures UnmentionedKept(lines, extracted[..n + 1], after, normalize)
  {
    forall j | 0 <= j < |lines| && !Mentioned(lines[j], extracted[..n + 1], normalize) ensures after[j] == lines[j] {
      assert extracted[..n + 1][n] == extracted[n];
      forall m | 0 <= m < n ensures !Similar(normalize(lines[j].name), normalize(extracted[..n][m].name)) {
        assert extracted[..n + 1][m] == extracted[..n][m];
      }
      assert !Mentioned(lines[j], extracted[..n], normalize);
    }
  }

  /** What the first `n` items have done. */
  ghost predicate MergedSoFar(lines: seq<Line>, extracted: seq<Extracted>, normalize: string -> string, n: nat,
                              merged: seq<Line>, into: seq<nat>)
    requires n <= |extracted|
  {
    && merged == Merge(lines, extracted[..n], normalize)
    && |into| == n && Carried(lines, extracted, merged, into)
    && (forall m :: 0 <= m < n ==> WentInto(lines, extracted, normalize, m, into[m]))
    && UnmentionedKept(lines, extracted[..n], merged, normalize) && NothingConfirmed(lines, merged)
  }

  function NewLine(e: Extracted): Line
  {
    Line(e.name, e.brand, e.qty, false, "", Unset)
  }

  lemma ConfirmedNext(lines: seq<Line>, before: seq<Line>, k: nat, after: seq<Line>, e: Extracted)
    requires NothingConfirmed(lines, before)
    requires after == if k < |before| then before[k := Updated(before[k], e)] else before + [NewLine(e)]
    ensures NothingConfirmed(lines, after)
  {
    forall j | 0 <= j < |after| && after[j].resolved ensures j < |lines| && after[j] == lines[j] {
      if j < |before| {
        assert before[j] == after[j];
      }
    }
  }

  lemma WentNext(lines: seq<Line>, extracted: seq<Extracted>, normalize: string -> string, n: nat, into: seq<nat>, k: nat)
    requires n < |extracted| && |into| == n && WentInto(lines, extracted, normalize, n, k)
    requires forall m :: 0 <= m < n ==> WentInto(lines, extracted, normalize, m, into[m])
    ensures forall m :: 0 <= m < n + 1 ==> WentInto(lines, extracted, normalize, m, (into + [k])[m])
  {
  }

  lemma MergedNext(lines: seq<Line>, extracted: seq<Extracted>, normalize: string -> string, n: nat,
                   before: seq<Line>, into: seq<nat>, k: nat, after: seq<Line>)
    requires n < |extracted| && MergedSoFar(lines, extracted, normalize, n, before, into)
    requires k == FirstSimilar(before, extracted[n].name, normalize, 0)
    requires after == if k < |before| then before[k := Updated(before[k], extracted[n])] else before + [NewLine(extracted[n])]
    ensures MergedSoFar(lines, extracted, normalize, n + 1, after, into + [k])
  {
    MergeNext(lines, extracted, n, normalize);
    CarriedNext(lines, extracted, before, into, k, after);
    UnmentionedNext(lines, extracted, n, normalize, before, after, k);
    ConfirmedNext(lines, before, k, after, extracted[n]);
    WentNext(lines, extracted, normalize, n, into, k);
  }

  lemma NoneMerged(lines: seq<Line>, extracted: seq<Extracted>, normalize: string -> string)
    ensures MergedSoFar(lines, extracted, normalize, 0, lines, [])
  {
  }

  lemma AllMerged(lines: seq<Line>, extracted: seq<Extracted>, normalize: string -> string, merged: seq<Line>, into: seq<nat>)
    requires MergedSoFar(lines, extracted, normalize, |extracted|, merged, into)
    ensures |into| == |extracted| && Carried(lines, extracted, merged, into)
    ensures forall n :: 0 <= n < |extracted| ==> WentInto(lines, extracted, normalize, n, into[n])
    ensures UnmentionedKept(lines, extracted, merged, normalize) && NothingConfirmed(lines, merged)
    ensures merged == Merge(lines, extracted, normalize)
  {
    assert extracted[..|extracted|] == extracted;
  }

  /** Each extracted item updates the first line with a similar name, or becomes a line of its own. */
  method MergeExtracted(lines: seq<Line>, extracted: seq<Extracted>, normalize: string -> string)
    returns (merged: seq<Line>, ghost into: seq<nat>)
    ensures |into| == |extracted| && Carried(lines, extracted, merged, into)
    ensures forall n :: 0 <= n < |extracted| ==> WentInto(lines, extracted, normalize, n, into[n])
    ensures UnmentionedKept(lines, extracted, merged, normalize)
    ensures NothingConfirmed(lines, merged)
    ensures merged == Merge(lines, extracted, normalize)
  {
    merged, into := lines, [];
    NoneMerged(lines, extracted, normalize);
    for n := 0 to |extracted|
      invariant MergedSoFar(lines, extracted, normalize, n, merged, into)
    {
      var e := extracted[n];
      var k := FindSimilar(merged, e.name, normalize);
      ghost var before := merged;
      if k < |merged| {
        merged := merged[k := Updated(merged[k], e)];
      } else {
        merged := merged + [NewLine(e)];
      }
      MergedNext(lines, extracted, normalize, n, before, into, k, merged);
      into := into + [k];
    }
    AllMerged(lines, extracted, normalize, merged, into);
  }

  lemma MergeNext(lines: seq<Line>, extracted: seq<Extracted>, n: nat, normalize: string -> string)
    requires n < |extracted|
    ensures var before, e := Merge(lines, extracted[..n], normalize), extracted[n];
            var k := FirstSimilar(before, e.name, normalize, 0);
            Merge(lines, extracted[..n + 1], normalize)
            == if k < |before| then before[k := Updated(before[k], e)] else before + [NewLine(e)]
  {
    assert extracted[..n + 1][..n] == extracted[..n];
  }

  method FindSimilar(lines: seq<Line>, name: string, normalize: string -> string) returns (k: nat)
    ensures k == FirstSimilar(lines, name, normalize, 0)
  {
    k := 0;
    while k < |lines|
      invariant k <= |lines| && FirstSimilar(lines, name, normalize, 0) == FirstSimilar(lines, name, normalize, k)
    {
      var similar := NamesSimilar(lines[k].name, name, normalize);
      if similar {
        return;
      }
      k := k + 1;
    }
  }

  // ---------- parse_intent: removing and substituting ----------

  ghost function Wanted(lines: seq<Line>, cancelled: Line -> bool): set<nat>
  {
    set k | 0 <= k < |lines| && !cancelled(lines[k])
  }

  lemma UncancelledNext(lines: seq<Line>, cancelled: Line -> bool, n: nat)
    requires n < |lines|
    ensures Uncancelled(lines[..n + 1], cancelled)
         == Uncancelled(lines[..n], cancelled) + if n in Wanted(lines, cancelled) then [lines[n]] else []
  {
    assert lines[..n + 1][..n] == lines[..n];
  }

  /** The lines that are not cancelled, all of them, once each and in order. */
  method DropRemoved(lines: seq<Line>, cancelled: Line -> bool) returns (kept: seq<Line>, ghost from: seq<nat>)
    ensures Picks(from, Wanted(lines, cancelled)) && Keeps(lines, from, kept)
    ensures kept == Uncancelled(lines, cancelled)
  {
    kept, from := [], [];
    ghost var wanted := Wanted(lines, cancelled);
    FilterBounds(lines, wanted, from, kept);
    for n := 0 to |lines|
      invariant Filtered(lines, wanted, n, from, kept)
      invariant kept == Uncancelled(lines[..n], cancelled)
    {
      UncancelledNext(lines, cancelled, n);
      FilterNext(lines, wanted, n, from, kept);
      if !cancelled(lines[n]) {
        kept, from := kept + [lines[n]], from + [n];
      }
    }
    FilterBounds(lines, wanted, from, kept);
    assert lines[..|lines|] == lines;
  }

  method FindPending(lines: seq<Line>, product: Option<string>, normalize: string -> string) returns (k: nat)
    ensures k == FirstPending(lines, product, normalize, 0)
  {
    k := 0;
    while k < |lines|
      invariant k <= |lines| && FirstPending(lines, product, normalize, 0) == FirstPending(lines, product, normalize, k)
    {
      if lines[k].status == StockoutPending {
        var similar := true;
        if product.Some? {
          similar := NamesSimilar(lines[k].name, product.value, normalize);
        }
        if similar {
          return;
        }
      }
      k := k + 1;
    }
  }

  function Waiting(lines: seq<Line>): set<nat>
  {
    set k | 0 <= k < |lines| && lines[k].status == StockoutPending
  }

  function Replacement(line: Line, swap: Swap): Line
  {
    Line(swap.product, Some(swap.brand), if swap.qty.Some? then swap.qty else line.qty, false, "", Unset)
  }

  /** The line has become the picked product, in the picked or else its own quantity, to be looked up again. */
  predicate Replaces(line: Line, swap: Swap, now: Line)
  {
    && now.name == swap.product && now.brand == Some(swap.brand)
    && (if swap.qty.Some? then now.qty == swap.qty else now.qty == line.qty)
    && !now.resolved && now.itemId == "" && now.status == Unset
  }

  ghost predicate ReplacedBy(line: Line, swaps: seq<Swap>, now: Line)
  {
    exists n :: 0 <= n < |swaps| && Replaces(line, swaps[n], now)
  }

  ghost predicate Serves(lines: seq<Line>, swap: Swap, normalize: string -> string, k: nat, after: seq<Line>)
  {
    && k < |lines| && lines[k].status == StockoutPending && |after| == |lines|
    && Replaces(lines[k], swap, after[k]) && (forall j :: 0 <= j < |lines| && j != k ==> after[j] == lines[j])
    && (forall j :: 0 <= j < k && lines[j].status == StockoutPending ==>
          !Similar(normalize(lines[j].name), normalize(swap.product)))
    && (Similar(normalize(lines[k].name), normalize(swap.product))
        || forall j :: 0 <= j < |lines| && lines[j].status == StockoutPending ==>
             j >= k && !Similar(normalize(lines[j].name), normalize(swap.product)))
  }

  /** A pick serves the first waiting line of a similar name, else the first waiting line, else none. */
  ghost predicate PickServes(lines: seq<Line>, swap: Swap, normalize: string -> string, after: seq<Line>)
  {
    if forall j :: 0 <= j < |lines| ==> lines[j].status != StockoutPending then after == lines
    else exists k :: Serves(lines, swap, normalize, k, after)
  }

  /** `states` are the carts before, between and after the picks. */
  ghost predicate PicksInTurn(lines: seq<Line>, swaps: seq<Swap>, normalize: string -> string, states: seq<seq<Line>>)
  {
    && |states| == |swaps| + 1 && states[0] == lines
    && forall n :: 0 <= n < |swaps| ==> PickServes(states[n], swaps[n], normalize, states[n + 1])
  }

  lemma TargetServes(lines: seq<Line>, swap: Swap, normalize: string -> string)
    ensures var k := SwapTarget(lines, swap.product, normalize);
            PickServes(lines, swap, normalize, if k < |lines| then lines[k := Replacement(lines[k], swap)] else lines)
  {
    var k := SwapTarget(lines, swap.product, normalize);
    if k < |lines| {
      var after := lines[k := Replacement(lines[k], swap)];
      TargetIsFirst(lines, swap.product, normalize);
      assert Serves(lines, swap, normalize, k, after);
    }
  }

  lemma TargetIsFirst(lines: seq<Line>, product: string, normalize: string -> string)
    ensures var k := SwapTarget(lines, product, normalize);
            && (forall j :: 0 <= j < k && j < |lines| && lines[j].status == StockoutPending ==>
                  !Similar(normalize(lines[j].name), normalize(product)))
            && (k < |lines| && !Similar(normalize(lines[k].name), normalize(product)) ==>
                  forall j :: 0 <= j < |lines| && lines[j].status == StockoutPending ==>
                    j >= k && !Similar(normalize(lines[j].name), normalize(product)))
  {
    var k := SwapTarget(lines, product, normalize);
    var first := FirstPending(lines, Some(product), normalize, 0);
    forall j | 0 <= j < |lines| && lines[j].status == StockoutPending && (j < first || first == |lines|)
      ensures !Similar(normalize(lines[j].name), normalize(product))
    {
      assert !Awaits(lines[j], Some(product), normalize);
    }
    if first == |lines| {
      forall j | 0 <= j < k ensures lines[j].status != StockoutPending {
        assert !Awaits(lines[j], None, normalize);
      }
    } else {
      assert Awaits(lines[first], Some(product), normalize);
    }
  }

  /** Every line is as it was, or was waiting and is now the replacement one of the picks names. */
  ghost predicate OnlyReplaced(lines: seq<Line>, swaps: seq<Swap>, swapped: seq<Line>)
  {
    && |swapped| == |lines|
    && forall k :: 0 <= k < |lines| && swapped[k] != lines[k] ==>
         lines[k].status == StockoutPending && ReplacedBy(lines[k], swaps, swapped[k])
  }

  lemma MorePicks(line: Line, swaps: seq<Swap>, n: nat, now: Line)
    requires n < |swaps|
    ensures ReplacedBy(line, swaps[..n], now) ==> ReplacedBy(line, swaps[..n + 1], now) && now.status == Unset
    ensures ReplacedBy(line, swaps[..n + 1], Replacement(line, swaps[n]))
  {
    if ReplacedBy(line, swaps[..n], now) {
      var m :| 0 <= m < n && Replaces(line, swaps[..n][m], now);
      assert swaps[..n + 1][m] == swaps[..n][m];
    }
    assert swaps[..n + 1][n] == swaps[n];
  }

  lemma StillReplaced(lines: seq<Line>, swaps: seq<Swap>, n: nat, swapped: seq<Line>)
    requires n < |swaps| && OnlyReplaced(lines, swaps[..n], swapped)
    ensures OnlyReplaced(lines, swaps[..n + 1], swapped)
    ensures forall k :: 0 <= k < |lines| && swapped[k].status == StockoutPending ==> swapped[k] == lines[k]
  {
    forall k | 0 <= k < |lines|
      ensures ReplacedBy(lines[k], swaps[..n], swapped[k]) ==>
        ReplacedBy(lines[k], swaps[..n + 1], swapped[k]) && swapped[k].status == Unset
    {
      MorePicks(lines[k], swaps, n, swapped[k]);
    }
  }

  lemma ReplaceNext(lines: seq<Line>, swaps: seq<Swap>, n: nat, before: seq<Line>, k: nat)
    requires n < |swaps| && OnlyReplaced(lines, swaps[..n], before) && k < |before| && before[k].status == StockoutPending
    ensures OnlyReplaced(lines, swaps[..n + 1], before[k := Replacement(before[k], swaps[n])])
    ensures Waiting(before[k := Replacement(before[k], swaps[n])]) == Waiting(before) - {k}
  {
    StillReplaced(lines, swaps, n, before);
    MorePicks(lines[k], swaps, n, before[k]);
  }

  lemma PicksOn(lines: seq<Line>, swaps: seq<Swap>, n: nat, normalize: string -> string, states: seq<seq<Line>>,
                before: seq<Line>, after: seq<Line>)
    requires n < |swaps| && PicksInTurn(lines, swaps[..n], normalize, states) && states[n] == before
    requires PickServes(before, swaps[n], normalize, after)
    ensures PicksInTurn(lines, swaps[..n + 1], normalize, states + [after])
  {
    var next := states + [after];
    forall m | 0 <= m <= n ensures PickServes(next[m], swaps[..n + 1][m], normalize, next[m + 1]) {
      if m < n {
        assert PickServes(states[m], swaps[..n][m], normalize, states[m + 1]);
      }
    }
  }

  /** What the first `n` picks have done. */
  ghost predicate SwappedSoFar(lines: seq<Line>, swaps: seq<Swap>, normalize: string -> string, n: nat,
                               swapped: seq<Line>, states: seq<seq<Line>>)
    requires n <= |swaps|
  {
    && PicksInTurn(lines, swaps[..n], normalize, states) && states[n] == swapped
    && swapped == Swapped(lines, swaps[..n], normalize)
    && OnlyReplaced(lines, swaps[..n], swapped) && Waiting(swapped) <= Waiting(lines)
    && |Waiting(swapped)| == |Waiting(lines)| - Min(n, |Waiting(lines)|)
  }

  lemma WaitingNext(lines: seq<Line>, swaps: seq<Swap>, n: nat, before: seq<Line>, k: nat, after: seq<Line>)
    requires n < |swaps| && OnlyReplaced(lines, swaps[..n], before) && Waiting(before) <= Waiting(lines)
    requires |Waiting(before)| == |Waiting(lines)| - Min(n, |Waiting(lines)|)
    requires if k < |before| then before[k].status == StockoutPending && after == before[k := Replacement(before[k], swaps[n])]
             else Waiting(before) == {} && after == before
    ensures OnlyReplaced(lines, swaps[..n + 1], after) && Waiting(after) <= Waiting(lines)
    ensures |Waiting(after)| == |Waiting(lines)| - Min(n + 1, |Waiting(lines)|)
  {
    if k < |before| {
      ReplaceNext(lines, swaps, n, before, k);
      assert k in Waiting(before);
    } else {
      StillReplaced(lines, swaps, n, before);
    }
  }

  lemma TraceNext(lines: seq<Line>, swaps: seq<Swap>, normalize: string -> string, n: nat,
                  before: seq<Line>, states: seq<seq<Line>>, k: nat, after: seq<Line>)
    requires n < |swaps| && PicksInTurn(lines, swaps[..n], normalize, states) && states[n] == before
    requires k == SwapTarget(before, swaps[n].product, normalize)
    requires after == if k < |before| then before[k := Replacement(before[k], swaps[n])] else before
    ensures PicksInTurn(lines, swaps[..n + 1], normalize, states + [after]) && (states + [after])[n + 1] == after
  {
    TargetServes(before, swaps[n], normalize);
    PicksOn(lines, swaps, n, normalize, states, before, after);
  }

  lemma SwappedUnfolds(lines: seq<Line>, swaps: seq<Swap>, normalize: string -> string, n: nat)
    requires n < |swaps|
    ensures var before, swap := Swapped(lines, swaps[..n], normalize), swaps[n];
            var k := SwapTarget(before, swap.product, normalize);
            Swapped(lines, swaps[..n + 1], normalize)
            == if k == |before| then before else before[k := Replacement(before[k], swap)]
  {
    assert swaps[..n + 1][..n] == swaps[..n];
  }

  lemma SwappedNext(lines: seq<Line>, swaps: seq<Swap>, normalize: string -> string, n: nat,
                    before: seq<Line>, states: seq<seq<Line>>, k: nat, after: seq<Line>)
    requires n < |swaps| && SwappedSoFar(lines, swaps, normalize, n, before, states)
    requires k == SwapTarget(before, swaps[n].product, normalize)
    requires after == if k < |before| then before[k := Replacement(before[k], swaps[n])] else before
    ensures SwappedSoFar(lines, swaps, normalize, n + 1, after, states + [after])
  {
    SwappedUnfolds(lines, swaps, normalize, n);
    TraceNext(lines, swaps, normalize, n, before, states, k, after);
    assert k == |before| ==> Waiting(before) == {};
    WaitingNext(lines, swaps, n, before, k, after);
  }

  lemma AllSwapped(lines: seq<Line>, swaps: seq<Swap>, normalize: string -> string, swapped: seq<Line>, states: seq<seq<Line>>)
    requires SwappedSoFar(lines, swaps, normalize, |swaps|, swapped, states)
    ensures PicksInTurn(lines, swaps, normalize, states) && states[|swaps|] == swapped
    ensures OnlyReplaced(lines, swaps, swapped) && Waiting(swapped) <= Waiting(lines)
    ensures |Waiting(swapped)| == |Waiting(lines)| - Min(|swaps|, |Waiting(lines)|)
    ensures swapped == Swapped(lines, swaps, normalize)
  {
    assert swaps[..|swaps|] == swaps;
  }

  /** Each pick serves one waiting line, while there is one; nothing but waiting lines changes. */
  method ApplySubstitutePhrase(lines: seq<Line>, swaps: seq<Swap>, normalize: string -> string)
    returns (swapped: seq<Line>, ghost states: seq<seq<Line>>)
    ensures PicksInTurn(lines, swaps, normalize, states) && states[|swaps|] == swapped
    ensures OnlyReplaced(lines, swaps, swapped) && Waiting(swapped) <= Waiting(lines)
    ensures |Waiting(swapped)| == |Waiting(lines)| - Min(|swaps|, |Waiting(lines)|)
    ensures swapped == Swapped(lines, swaps, normalize)
  {
    swapped, states := lines, [lines];
    for n := 0 to |swaps|
      invariant SwappedSoFar(lines, swaps, normalize, n, swapped, states)
    {
      var swap := swaps[n];
      ghost var before := swapped;
      var k := FindPending(swapped, Some(swap.product), normalize);
      if k == |swapped| {
        k := FindPending(swapped, None, normalize);
      }
      assert k == SwapTarget(before, swap.product, normalize);
      if k < |swapped| {
        swapped := swapped[k := Replacement(swapped[k], swap)];
      }
      SwappedNext(lines, swaps, normalize, n, before, states, k, swapped);
      states := states + [swapped];
    }
    AllSwapped(lines, swaps, normalize, swapped, states);
  }

  /** Named, not unknown to the catalog, and told apart by a brand or an item. */
  predicate WorthOne(line: Line)
  {
    line.name != "" && line.status != NotFound && ((line.brand.Some? && line.brand.value != "") || line.itemId != "" || line.resolved)
  }

  method ApplyDefaultQty(lines: seq<Line>) returns (items: seq<Line>)
    ensures |items| == |lines| && forall k :: 0 <= k < |lines| ==>
              && items[k] == lines[k].(qty := items[k].qty)
              && items[k].qty == if lines[k].qty.None? && WorthOne(lines[k]) then Some(1) else lines[k].qty
    ensures items == DefaultQtys(lines)
  {
    items := lines;
    for n := 0 to |lines|
      invariant |items| == |lines|
      invariant forall k :: 0 <= k < |lines| ==> items[k] == if k < n then DefaultQty(lines[k]) else lines[k]
    {
      var item := items[n];
      if item.qty.None? && item.status != NotFound && item.name != "" {
        if Given(item.brand) || item.itemId != "" || item.resolved {
          items := items[n := item.(qty := Some(1))];
        }
      }
    }
  }

  // ---------- parse_intent as a whole ----------

  /** A step that confirms nothing: its resolved lines were there before. */
  ghost predicate NothingInvented(before: seq<Line>, after: seq<Line>)
  {
    forall l :: l in after && l.resolved ==> l in before
  }

  lemma {:induction false} SurvivorsAreRows(items: seq<Line>, n: nat, normalize: string -> string)
    requires n <= |items|
    ensures forall l :: l in Survivors(items, n, normalize) ==> l in items
  {
    if n > 0 {
      SurvivorsAreRows(items, n - 1, normalize);
    }
  }

  /** The message does not touch the line: nothing similar is extracted, it is not cancelled and not waiting. */
  ghost predicate LeftAlone(line: Line, env: Env)
  {
    !Mentioned(line, env.extracted, env.normalize) && !env.cancelled(line) && line.status != StockoutPending
  }

  /** `l` is the line `m`, or what some pick has made of it, with the default quantity where it is due. */
  ghost predicate ComesFrom(m: Line, swaps: seq<Swap>, l: Line)
  {
    l == DefaultQty(m) || (m.status == StockoutPending && exists r :: ReplacedBy(m, swaps, r) && l == DefaultQty(r))
  }

  /** What the steps before the default quantities have made of the cart. */
  ghost predicate Prepared(lines: seq<Line>, env: Env, merged: seq<Line>, wanted: seq<Line>, from: seq<nat>,
                           cleaned: seq<Line>, swapped: seq<Line>)
  {
    && UnmentionedKept(lines, env.extracted, merged, env.normalize) && NothingConfirmed(lines, merged)
    && Picks(from, Wanted(merged, env.cancelled)) && Keeps(merged, from, wanted)
    && cleaned == Survivors(wanted, |wanted|, env.normalize) && OnlyReplaced(cleaned, env.swaps, swapped)
  }

  lemma PreparedConfirmsNothing(lines: seq<Line>, env: Env, merged: seq<Line>, wanted: seq<Line>, from: seq<nat>,
                                cleaned: seq<Line>, swapped: seq<Line>)
    requires Prepared(lines, env, merged, wanted, from, cleaned, swapped)
    ensures forall l :: l in DefaultQtys(swapped) && l.resolved ==> exists m :: m in lines && m.resolved && l == DefaultQty(m)
  {
    MergeInventsNothing(lines, merged);
    SurvivorsAreRows(wanted, |wanted|, env.normalize);
    assert NothingInvented(cleaned, swapped);
    DefaultsInventNothing(lines, swapped);
  }

  lemma LeftAloneComesThrough(lines: seq<Line>, env: Env, merged: seq<Line>, wanted: seq<Line>, from: seq<nat>, cleaned: seq<Line>,
                              swapped: seq<Line>, l: Line)
    requires Prepared(lines, env, merged, wanted, from, cleaned, swapped) && l in lines && l.resolved && LeftAlone(l, env)
    ensures DefaultQty(l) in DefaultQtys(swapped)
  {
    LeftAloneIsMerged(lines, env, merged, l);
    LeftAloneIsWanted(merged, env.cancelled, wanted, from, l);
    var i :| 0 <= i < |wanted| && wanted[i] == l;
    ResolvedRowSurvives(wanted, i, env.normalize);
    var j :| 0 <= j < |cleaned| && cleaned[j] == l;
    assert swapped[j] == l && DefaultQtys(swapped)[j] == DefaultQty(l);
  }

  lemma NothingElseComesThrough(lines: seq<Line>, env: Env, merged: seq<Line>, wanted: seq<Line>, from: seq<nat>, cleaned: seq<Line>,
                                swapped: seq<Line>, l: Line)
    requires Prepared(lines, env, merged, wanted, from, cleaned, swapped) && l in DefaultQtys(swapped)
    ensures exists m :: m in merged && !env.cancelled(m) && ComesFrom(m, env.swaps, l)
  {
    var j :| 0 <= j < |swapped| && DefaultQtys(swapped)[j] == l;
    SurvivorsAreRows(wanted, |wanted|, env.normalize);
    assert cleaned[j] in wanted;
    var i :| 0 <= i < |wanted| && wanted[i] == cleaned[j];
    assert from[i] in Wanted(merged, env.cancelled);
    assert ComesFrom(cleaned[j], env.swaps, l);
  }

  /** The carts between the steps, and which lines each step kept. */
  datatype Stages = Stages(merged: seq<Line>, kept: seq<nat>, wanted: seq<Line>, richest: seq<nat>, cleaned: seq<Line>,
                           states: seq<seq<Line>>)

  /** Merged, rid of what is cancelled and of what similar lines know better, served with the picks, given default quantities. */
  ghost predicate InStages(lines: seq<Line>, env: Env, via: Stages, parsed: seq<Line>)
  {
    && via.merged == Merge(lines, env.extracted, env.normalize)
    && Picks(via.kept, Wanted(via.merged, env.cancelled)) && Keeps(via.merged, via.kept, via.wanted)
    && Increasing(via.richest) && Keeps(via.wanted, via.richest, via.cleaned) && KnowMost(via.wanted, env.normalize, via.richest)
    && PicksInTurn(via.cleaned, env.swaps, env.normalize, via.states)
    && parsed == DefaultQtys(via.states[|env.swaps|])
  }

  /**
   `parse_intent` on the lines, from the merge to the default quantities.  It never confirms a line,
   a confirmed line the message leaves alone comes through, and nothing cancelled does.
   */
  method ParseLines(lines: seq<Line>, env: Env) returns (parsed: seq<Line>, ghost via: Stages)
    ensures InStages(lines, env, via, parsed)
    ensures forall l :: l in parsed && l.resolved ==> exists m :: m in lines && m.resolved && l == DefaultQty(m)
    ensures forall l :: l in lines && l.resolved && LeftAlone(l, env) ==> DefaultQty(l) in parsed
    ensures forall l :: l in parsed ==> exists m :: m in via.merged && !env.cancelled(m) && ComesFrom(m, env.swaps, l)
    ensures parsed == ParsedLines(lines, env)
  {
    var merged, into := MergeExtracted(lines, env.extracted, env.normalize);
    var wanted, from := DropRemoved(merged, env.cancelled);
    var cleaned, richest := DropDominated(wanted, env.normalize);
    var swapped, states := ApplySubstitutePhrase(cleaned, env.swaps, env.normalize);
    assert Prepared(lines, env, merged, wanted, from, cleaned, swapped);
    parsed := ApplyDefaultQty(swapped);
    via := Stages(merged, from, wanted, richest, cleaned, states);
    PreparedMeans(lines, env, merged, wanted, from, cleaned, swapped);
  }

  lemma PreparedMeans(lines: seq<Line>, env: Env, merged: seq<Line>, wanted: seq<Line>, from: seq<nat>,
                      cleaned: seq<Line>, swapped: seq<Line>)
    requires Prepared(lines, env, merged, wanted, from, cleaned, swapped)
    ensures var parsed := DefaultQtys(swapped);
            && (forall l :: l in parsed && l.resolved ==> exists m :: m in lines && m.resolved && l == DefaultQty(m))
            && (forall l :: l in lines && l.resolved && LeftAlone(l, env) ==> DefaultQty(l) in parsed)
            && forall l :: l in parsed ==> exists m :: m in merged && !env.cancelled(m) && ComesFrom(m, env.swaps, l)
  {
    var parsed := DefaultQtys(swapped);
    PreparedConfirmsNothing(lines, env, merged, wanted, from, cleaned, swapped);
    forall l | l in lines && l.resolved && LeftAlone(l, env) ensures DefaultQty(l) in parsed {
      LeftAloneComesThrough(lines, env, merged, wanted, from, cleaned, swapped, l);
    }
    forall l | l in parsed ensures exists m :: m in merged && !env.cancelled(m) && ComesFrom(m, env.swaps, l) {
      NothingElseComesThrough(lines, env, merged, wanted, from, cleaned, swapped, l);
    }
  }

  lemma MergeInventsNothing(lines: seq<Line>, merged: seq<Line>)
    requires NothingConfirmed(lines, merged)
    ensures NothingInvented(lines, merged)
  {
  }

  lemma DefaultsInventNothing(lines: seq<Line>, swapped: seq<Line>)
    requires NothingInvented(lines, swapped)
    ensures forall l :: l in DefaultQtys(swapped) && l.resolved ==> exists m :: m in lines && m.resolved && l == DefaultQty(m)
  {
    forall l | l in DefaultQtys(swapped) && l.resolved ensures exists m :: m in lines && m.resolved && l == DefaultQty(m) {
      var k :| 0 <= k < |swapped| && DefaultQtys(swapped)[k] == l;
      assert swapped[k] in lines && l == DefaultQty(swapped[k]);
    }
  }

  lemma LeftAloneIsMerged(lines: seq<Line>, env: Env, merged: seq<Line>, l: Line)
    requires l in lines && LeftAlone(l, env) && UnmentionedKept(lines, env.extracted, merged, env.normalize)
    ensures l in merged
  {
    var k :| 0 <= k < |lines| && lines[k] == l;
    assert merged[k] == l;
  }

  lemma LeftAloneIsWanted(lines: seq<Line>, cancelled: Line -> bool, kept: seq<Line>, from: seq<nat>, l: Line)
    requires l in lines && !cancelled(l) && Picks(from, Wanted(lines, cancelled)) && Keeps(lines, from, kept)
    ensures l in kept
  {
    var k: nat :| k < |lines| && lines[k] == l;
    assert k in Wanted(lines, cancelled);
    var j :| 0 <= j < |from| && from[j] == k;
    assert kept[j] == l;
  }

  // ---------- catalog and stock ----------

  /** What the line says of the order stays: the name and the brand it goes by, and any quantity it had. */
  predicate SameWish(line: Line, now: Line)
  {
    now.name == line.name && now.brand == line.brand && now.itemId == line.itemId && (line.qty.Some? ==> now.qty == line.qty)
  }

  /** What becomes of a line when the catalog answers, field by field. */
  predicate LookedUpAs(line: Line, answer: Answer, now: Line)
  {
    && (line.qty.Some? ==> now.qty == line.qty) && (now.qty == line.qty || now.qty == Some(1))
    && if line.status == StockoutPending then
         SameWish(line, now) && now.resolved == line.resolved && now.status == StockoutPending
       else if line.name == "" then
         SameWish(line, now) && now.resolved == line.resolved && now.status == MissingName && now.qty == line.qty
       else match answer
         case Match(id, name, brand) =>
           now.itemId == id && now.name == name && now.brand == Some(brand) && now.resolved && now.status == Confirmed
         case NoMatch => SameWish(line, now) && !now.resolved && now.status == NotFound && now.qty == line.qty
         case Undecided => SameWish(line, now) && !now.resolved && now.status == Ambiguous
  }

  method ResolveCatalogLines(lines: seq<Line>, answers: nat -> Answer) returns (items: seq<Line>)
    ensures |items| == |lines| && forall k :: 0 <= k < |lines| ==> LookedUpAs(lines[k], answers(k), items[k])
    ensures items == ResolvedLines(lines, answers)
  {
    items := lines;
    for n := 0 to |lines|
      invariant |items| == |lines|
      invariant forall k :: 0 <= k < |lines| ==> items[k] == if k < n then Resolved(lines[k], answers(k)) else lines[k]
    {
      var item := items[n];
      if item.status != StockoutPending {
        if item.name == "" {
          items := items[n := item.(status := MissingName)];
        } else {
          match answers(n) {
            case Match(id, name, brand) => items := items[n := Line(name, Some(brand), item.qty, true, id, Confirmed)];
            case NoMatch => items := items[n := item.(resolved := false, status := NotFound)];
            case Undecided => items := items[n := item.(resolved := false, status := Ambiguous)];
          }
        }
      }
    }
    items := ApplyDefaultQty(items);
  }

  /** `unavailable` reports the lines at `from`, in that order. */
  ghost predicate Reports(lines: seq<Line>, from: seq<nat>, unavailable: seq<Unavailable>)
  {
    && |unavailable| == |from|
    && forall j :: 0 <= j < |from| ==>
         && from[j] < |lines| && unavailable[j].itemId == lines[from[j]].itemId && unavailable[j].name == lines[from[j]].name
         && unavailable[j].brand == if lines[from[j]].brand.Some? then lines[from[j]].brand.value else ""
  }

  /** Confirmed lines with an item and a positive quantity that the stock does not cover. */
  ghost function OutOfStock(lines: seq<Line>, short: nat -> bool): set<nat>
  {
    set k: nat | k < |lines| && lines[k].resolved && lines[k].itemId != "" && lines[k].qty.Some? && lines[k].qty.value != 0
                 && lines[k].status != StockoutPending && short(k)
  }

  lemma ShortageNext(lines: seq<Line>, short: nat -> bool, n: nat)
    requires n < |lines|
    ensures Shortages(lines[..n + 1], short)
         == Shortages(lines[..n], short) + if n in OutOfStock(lines, short) then [UnavailableOf(lines[n])] else []
    ensures LastShortages(lines[..n + 1], short)
         == LastShortages(lines[..n], short) + if short(n) then [UnavailableOf(lines[n])] else []
  {
    assert lines[..n + 1][..n] == lines[..n];
  }

  /** Of the first `n` lines, those `among` have been reported. */
  ghost predicate ReportedSoFar(lines: seq<Line>, among: set<nat>, n: nat, from: seq<nat>, unavailable: seq<Unavailable>)
  {
    Picks(from, Below(among, n)) && Reports(lines, from, unavailable)
  }

  lemma ReportNext(lines: seq<Line>, among: set<nat>, n: nat, from: seq<nat>, unavailable: seq<Unavailable>)
    requires n < |lines| && ReportedSoFar(lines, among, n, from, unavailable)
    ensures if n in among then ReportedSoFar(lines, among, n + 1, from + [n], unavailable + [UnavailableOf(lines[n])])
            else ReportedSoFar(lines, among, n + 1, from, unavailable)
  {
    PickNext(from, among, n);
  }

  lemma ReportBounds(lines: seq<Line>, among: set<nat>, from: seq<nat>, unavailable: seq<Unavailable>)
    requires forall k :: k in among ==> k < |lines|
    ensures ReportedSoFar(lines, among, 0, [], [])
    ensures ReportedSoFar(lines, among, |lines|, from, unavailable) ==> Picks(from, among) && Reports(lines, from, unavailable)
  {
    PickBounds(among, |lines|);
  }

  method FindShortages(lines: seq<Line>, short: nat -> bool) returns (unavailable: seq<Unavailable>, ghost from: seq<nat>)
    ensures Picks(from, OutOfStock(lines, short)) && Reports(lines, from, unavailable)
    ensures unavailable == Shortages(lines, short)
  {
    unavailable, from := [], [];
    ghost var among := OutOfStock(lines, short);
    ReportBounds(lines, among, from, unavailable);
    for n := 0 to |lines|
      invariant ReportedSoFar(lines, among, n, from, unavailable)
      invariant unavailable == Shortages(lines[..n], short)
    {
      ShortageNext(lines, short, n);
      ReportNext(lines, among, n, from, unavailable);
      if RanOut(lines[n], short(n)) {
        unavailable, from := unavailable + [UnavailableOf(lines[n])], from + [n];
      }
    }
    ReportBounds(lines, among, from, unavailable);
    assert lines[..|lines|] == lines;
  }

  /** Reports exactly the orderable lines the stock does not cover; nothing else of the state changes but the status. */
  method CheckAvailability(st: OrderState, env: Env) returns (r: OrderState, ghost from: seq<nat>)
    ensures Picks(from, OutOfStock(st.lines, env.short)) && Reports(st.lines, from, r.unavailable)
    ensures r.status == if from == [] then st.status else AwaitingFields
    ensures r.(unavailable := st.unavailable, status := st.status) == st
    ensures r == CheckStock(st, env)
  {
    var unavailable;
    unavailable, from := FindShortages(st.lines, env.short);
    r := st.(unavailable := unavailable);
    if unavailable != [] {
      r := r.(status := AwaitingFields);
    }
  }

  method MarkLineStockoutPending(lines: seq<Line>, u: Unavailable, env: Env) returns (items: seq<Line>)
    ensures |items| == |lines| && forall k :: 0 <= k < |lines| ==>
              items[k] ==
                if (u.itemId != "" && lines[k].itemId == u.itemId)
                   || (u.name != "" && Similar(env.normalize(lines[k].name), env.normalize(u.name))
                       && (u.brand == ""
                           || env.lower(if lines[k].brand.Some? then lines[k].brand.value else "") == env.lower(u.brand)))
                then lines[k].(resolved := false, itemId := "", status := StockoutPending) else lines[k]
    ensures items == MarkPending(lines, u, env)
  {
    items := lines;
    for n := 0 to |lines|
      invariant |items| == |lines|
      invariant forall k :: 0 <= k < |lines| ==> items[k] == if k < n then MarkPending(lines, u, env)[k] else lines[k]
    {
      var item := items[n];
      var same := u.itemId != "" && item.itemId == u.itemId;
      if !same && u.name != "" {
        same := NamesSimilar(item.name, u.name, env.normalize);
        same := same && (u.brand == "" || env.lower(if item.brand.Some? then item.brand.value else "") == env.lower(u.brand));
      }
      if same {
        items := items[n := TakenOut(item)];
      }
    }
  }

  ghost predicate HitByAny(line: Line, us: seq<Unavailable>, env: Env)
  {
    exists n :: 0 <= n < |us| && Hits(line, us[n], env)
  }

  /** The lines any of the unavailable items hits are taken out of the order, and only those. */
  ghost predicate ExactlyTakenOut(lines: seq<Line>, us: seq<Unavailable>, env: Env, items: seq<Line>)
  {
    && |items| == |lines|
    && forall k :: 0 <= k < |lines| ==>
         items[k] == if HitByAny(lines[k], us, env) then lines[k].(resolved := false, itemId := "", status := StockoutPending)
                     else lines[k]
  }

  lemma HitOneMore(line: Line, us: seq<Unavailable>, n: nat, env: Env)
    requires n < |us|
    ensures HitByAny(line, us[..n + 1], env) <==> HitByAny(line, us[..n], env) || Hits(line, us[n], env)
  {
    assert us[..n + 1] == us[..n] + [us[n]];
    if HitByAny(line, us[..n], env) {
      var m :| 0 <= m < n && Hits(line, us[..n][m], env);
      assert us[..n + 1][m] == us[..n][m];
    }
    assert us[..n + 1][n] == us[n];
  }

  lemma TakenOutNext(lines: seq<Line>, us: seq<Unavailable>, n: nat, env: Env, before: seq<Line>)
    requires n < |us| && ExactlyTakenOut(lines, us[..n], env, before)
    ensures ExactlyTakenOut(lines, us[..n + 1], env, MarkPending(before, us[n], env))
  {
    var after := MarkPending(before, us[n], env);
    forall k | 0 <= k < |lines|
      ensures after[k] == if HitByAny(lines[k], us[..n + 1], env) then TakenOut(lines[k]) else lines[k]
    {
      HitOneMore(lines[k], us, n, env);
    }
  }

  /** Takes every line some unavailable item hits out of the order, exactly those, and forgets the report. */
  method SuggestAlternatives(st: OrderState, env: Env) returns (r: OrderState)
    ensures ExactlyTakenOut(st.lines, st.unavailable, env, r.lines) && r.unavailable == []
    ensures r.status == if st.unavailable == [] then st.status else AwaitingFields
    ensures r.(lines := st.lines, unavailable := st.unavailable, status := st.status) == st
    ensures r == Suggest(st, env)
  {
    if st.unavailable == [] {
      return st;
    }
    var lines := st.lines;
    for n := 0 to |st.unavailable|
      invariant lines == MarkAllPending(st.lines, st.unavailable[..n], env)
      invariant ExactlyTakenOut(st.lines, st.unavailable[..n], env, lines)
    {
      assert st.unavailable[..n + 1][..n] == st.unavailable[..n];
      TakenOutNext(st.lines, st.unavailable, n, env, lines);
      lines := MarkLineStockoutPending(lines, st.unavailable[n], env);
    }
    assert st.unavailable[..|st.unavailable|] == st.unavailable;
    return st.(lines := lines, unavailable := [], status := AwaitingFields);
  }

  // ---------- the field check ----------

  /** What the field check asks about a cart without an orderable line. */
  method PendingNeeds(lines: seq<Line>) returns (product: bool, qty: bool)
    ensures product == NeedsProduct(lines) && qty == NeedsQty(lines)
  {
    var any := false;
    product, qty := false, false;
    for n := 0 to |lines|
      invariant any == exists k :: 0 <= k < n && lines[k].status != NotFound
      invariant product == exists k :: 0 <= k < n && lines[k].status != NotFound && !(lines[k].name != "" && Given(lines[k].brand))
      invariant qty == exists k :: 0 <= k < n && lines[k].status != NotFound && lines[k].qty.None?
    {
      var item := lines[n];
      if item.status != NotFound {
        any := true;
        if !(item.name != "" && Given(item.brand)) {
          product := true;
        }
        if item.qty.None? {
          qty := true;
        }
      }
    }
    product := product || !any;
  }

  method ScanCart(lines: seq<Line>) returns (pending: bool, unquantified: bool)
    ensures pending == AnyPending(lines)
    ensures unquantified == exists k :: 0 <= k < |lines| && lines[k].resolved && lines[k].qty.None?
  {
    pending, unquantified := false, false;
    for n := 0 to |lines|
      invariant pending == exists k :: 0 <= k < n && lines[k].status == StockoutPending
      invariant unquantified == exists k :: 0 <= k < n && lines[k].resolved && lines[k].qty.None?
    {
      pending := pending || lines[n].status == StockoutPending;
      unquantified := unquantified || (lines[n].resolved && lines[n].qty.None?);
    }
  }

  /** The first half of `_compute_missing_fields`. */
  method MissingCartFields(lines: seq<Line>) returns (missing: seq<Field>)
    ensures missing == MissingInCart(lines)
  {
    var pending, unquantified := ScanCart(lines);
    if pending {
      missing := [Substitute];
    } else if lines == [] {
      missing := [ProductAndBrand, Quantity];
    } else if Orderable(lines) != [] {
      missing := if unquantified then [Quantity] else [];
    } else {
      var product, qty := PendingNeeds(lines);
      missing := if product then [ProductAndBrand] else [];
      if qty {
        missing := missing + [Quantity];
      }
    }
  }

  ghost predicate WantsProduct(lines: seq<Line>)
  {
    && (forall k :: 0 <= k < |lines| ==> lines[k].status != StockoutPending)
    && Orderable(lines) == []
    && ((forall k :: 0 <= k < |lines| ==> lines[k].status == NotFound)
        || exists k :: 0 <= k < |lines| && lines[k].status != NotFound && (lines[k].name == "" || lines[k].brand in {None, Some("")}))
  }

  ghost predicate WantsQuantity(lines: seq<Line>)
  {
    && (forall k :: 0 <= k < |lines| ==> lines[k].status != StockoutPending)
    && (lines == []
        || exists k :: 0 <= k < |lines| && lines[k].qty.None?
                       && if Orderable(lines) != [] then lines[k].resolved else lines[k].status != NotFound)
  }

  ghost predicate WantsSubstitute(lines: seq<Line>)
  {
    exists k :: 0 <= k < |lines| && lines[k].status == StockoutPending
  }

  ghost function OneIf(wanted: bool, field: Field): seq<Field>
  {
    if wanted then [field] else []
  }

  lemma ProductIsWanted(lines: seq<Line>)
    requires !AnyPending(lines) && Orderable(lines) == []
    ensures NeedsProduct(lines) <==> WantsProduct(lines)
  {
    forall k | 0 <= k < |lines| ensures !Given(lines[k].brand) <==> lines[k].brand in {None, Some("")} {}
  }

  lemma CartQuestions(lines: seq<Line>)
    ensures MissingInCart(lines)
         == OneIf(WantsSubstitute(lines), Substitute) + OneIf(WantsProduct(lines), ProductAndBrand) + OneIf(WantsQuantity(lines), Quantity)
  {
    if !AnyPending(lines) && Orderable(lines) == [] {
      ProductIsWanted(lines);
    }
  }

  /** The second half: each field the customer has not given is appended. */
  method ComputeMissingFields(st: OrderState) returns (missing: seq<Field>)
    ensures missing
         == OneIf(WantsSubstitute(st.lines), Substitute) + OneIf(WantsProduct(st.lines), ProductAndBrand)
            + OneIf(WantsQuantity(st.lines), Quantity) + OneIf(st.address == "", Address) + OneIf(st.phone == "", Phone)
            + OneIf(st.name == "", CustomerName) + OneIf(!st.mandate, SignedMandate)
    ensures missing == MissingFields(st)
  {
    CartQuestions(st.lines);
    missing := MissingCartFields(st.lines);
    missing := AppendIf(missing, st.address == "", Address);
    missing := AppendIf(missing, st.phone == "", Phone);
    missing := AppendIf(missing, st.name == "", CustomerName);
    missing := AppendIf(missing, !st.mandate, SignedMandate);
  }

  method AppendIf(fields: seq<Field>, absent: bool, field: Field) returns (r: seq<Field>)
    ensures r == fields + OneIf(absent, field)
  {
    r := fields;
    if absent {
      r := r + [field];
    }
  }

  // ---------- finalize_order ----------

  ghost function RunOut(n: nat, short: nat -> bool): set<nat>
  {
    set k: nat | k < n && short(k)
  }

  method LastCheck(lines: seq<Line>, short: nat -> bool) returns (unavailable: seq<Unavailable>, ghost from: seq<nat>)
    ensures Picks(from, RunOut(|lines|, short)) && Reports(lines, from, unavailable)
    ensures unavailable == LastShortages(lines, short)
  {
    unavailable, from := [], [];
    ghost var among := RunOut(|lines|, short);
    ReportBounds(lines, among, from, unavailable);
    for n := 0 to |lines|
      invariant ReportedSoFar(lines, among, n, from, unavailable)
      invariant unavailable == LastShortages(lines[..n], short)
    {
      ShortageNext(lines, short, n);
      ReportNext(lines, among, n, from, unavailable);
      if short(n) {
        unavailable, from := unavailable + [UnavailableOf(lines[n])], from + [n];
      }
    }
    ReportBounds(lines, among, from, unavailable);
    assert lines[..|lines|] == lines;
  }

  /** The lines that can be reserved and invoiced: confirmed, with an item and a quantity, and not waiting for a substitute. */
  ghost function Reservable(lines: seq<Line>): set<nat>
  {
    set k | 0 <= k < |lines| && lines[k].resolved && lines[k].itemId != "" && lines[k].qty.Some? && lines[k].status != StockoutPending
  }

  lemma ReservableNext(lines: seq<Line>, n: nat)
    requires |lines| == n + 1
    ensures Reservable(lines) == Reservable(lines[..n]) + if IsOrderable(lines[n]) then {n} else {}
    ensures forall k :: k in Reservable(lines[..n]) ==> k < n
  {
    forall k | 0 <= k < n ensures lines[..n][k] == lines[k] {}
  }

  lemma KeptInMore(lines: seq<Line>, n: nat, kept: seq<nat>, some: seq<Line>)
    requires n <= |lines| && Keeps(lines[..n], kept, some)
    ensures Keeps(lines, kept, some)
  {
  }

  /** `Orderable` keeps all of them, once each and in order. */
  lemma {:induction false} OrderableIsAll(lines: seq<Line>) returns (kept: seq<nat>)
    ensures Picks(kept, Reservable(lines)) && Keeps(lines, kept, Orderable(lines))
  {
    kept := [];
    if lines != [] {
      var n := |lines| - 1;
      kept := OrderableIsAll(lines[..n]);
      KeptInMore(lines, n, kept, Orderable(lines[..n]));
      ReservableNext(lines, n);
      if IsOrderable(lines[n]) {
        PickLast(kept, Reservable(lines[..n]), n);
        KeepNext(lines, kept, Orderable(lines[..n]), n);
        kept := kept + [n];
      }
    }
  }

  /**
   Leaves the cart reduced to its orderable lines exactly when there are some and none has run out;
   otherwise the cart stays.  The reservation id is kept or, with something to order, made.
   */
  method FinalizeOrder(st: OrderState, env: Env) returns (r: OrderState, ghost from: seq<nat>, ghost kept: seq<nat>)
    ensures Picks(kept, Reservable(st.lines)) && Keeps(st.lines, kept, Orderable(st.lines))
    ensures Picks(from, RunOut(|Orderable(st.lines)|, env.short))
    ensures r.lines == if Orderable(st.lines) != [] && from == [] then Orderable(st.lines) else st.lines
    ensures r.status == if Orderable(st.lines) != [] && from == [] then Validated else AwaitingFields
    ensures r.missing == if Orderable(st.lines) == [] then [ProductAndBrand] else st.missing
    ensures r.reservationId == if st.reservationId.Some? || Orderable(st.lines) == [] then st.reservationId else Some(env.freshId)
    ensures if from == [] then r.unavailable == st.unavailable else Reports(Orderable(st.lines), from, r.unavailable)
    ensures r.(lines := st.lines, status := st.status, missing := st.missing, reservationId := st.reservationId,
               unavailable := st.unavailable) == st
    ensures r == FinalCheck(st, env)
  {
    var lines := Orderable(st.lines);
    kept := OrderableIsAll(st.lines);
    if lines == [] {
      return st.(status := AwaitingFields, missing := [ProductAndBrand]), [], kept;
    }
    var id := if st.reservationId.Some? then st.reservationId else Some(env.freshId);
    var unavailable;
    unavailable, from := LastCheck(lines, env.short);
    if unavailable != [] {
      return st.(status := AwaitingFields, unavailable := unavailable, reservationId := id), from, kept;
    }
    return st.(lines := lines, status := Validated, reservationId := id), from, kept;
  }
}
