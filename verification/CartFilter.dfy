/** The cart clean-up after an intent has been merged: unresolved rows give way to richer rows of a similar name. */
module CartFilter {
  import opened Outcomes
  import opened Similarity
  import opened Picking

  datatype CatalogStatus = Unset | Confirmed | NotFound | Ambiguous | StockoutPending | MissingName

  /** A line of the cart; `itemId` is empty while it names no catalog item. */
  datatype Line = Line(
    name: string, brand: Option<string>, qty: Option<int>,
    resolved: bool, itemId: string, status: CatalogStatus)

  /** What may be known about a row besides its name. */
  datatype Fact = ItsBrand | ItsQuantity | ItsItem

  /** An empty brand and a zero quantity count as unknown. */
  predicate Knows(line: Line, f: Fact)
  {
    match f
    case ItsBrand => line.brand.Some? && line.brand.value != ""
    case ItsQuantity => line.qty.Some? && line.qty.value != 0
    case ItsItem => line.resolved
  }

  ghost function Known(line: Line): set<Fact>
  {
    set f | f in {ItsBrand, ItsQuantity, ItsItem} && Knows(line, f)
  }

  /** How much is known about a row. */
  function Score(line: Line): nat
  {
    (if line.brand.Some? && line.brand.value != "" then 1 else 0)
    + (if line.qty.Some? && line.qty.value != 0 then 1 else 0)
    + (if line.resolved then 1 else 0)
  }

  ghost function Just(line: Line, f: Fact): set<Fact>
  {
    if Knows(line, f) then {f} else {}
  }

  lemma ScoreCounts(line: Line)
    ensures Score(line) == |Known(line)|
  {
    var brand, qty, item := Just(line, ItsBrand), Just(line, ItsQuantity), Just(line, ItsItem);
    assert Known(line) == brand + qty + item;
    assert brand !! qty && brand + qty !! item;
    assert |brand + qty + item| == |brand| + |qty| + |item|;
  }

  predicate Dominates(other: Line, line: Line, normalize: string -> string)
  {
    && Similar(normalize(line.name), normalize(other.name))
    && Score(other) > Score(line) && !line.resolved
  }

  ghost predicate Dominated(items: seq<Line>, i: nat, normalize: string -> string)
    requires i < |items|
  {
    exists j :: 0 <= j < |items| && j != i && Dominates(items[j], items[i], normalize)
  }

  /** The undominated rows among the first `n`, in order. */
  ghost function Survivors(items: seq<Line>, n: nat, normalize: string -> string): seq<Line>
    requires n <= |items|
  {
    if n == 0 then []
    else Survivors(items, n - 1, normalize) + if Dominated(items, n - 1, normalize) then [] else [items[n - 1]]
  }

  /** Exactly the rows at `from` are resolved, or such that no other row of a similar name knows more. */
  ghost predicate KnowMost(items: seq<Line>, normalize: string -> string, from: seq<nat>)
  {
    forall i :: 0 <= i < |items| ==>
      (i in from <==> items[i].resolved || forall j :: 0 <= j < |items| && j != i ==>
         !(Similar(normalize(items[i].name), normalize(items[j].name)) && Score(items[j]) > Score(items[i])))
  }

  ghost function Undominated(items: seq<Line>, normalize: string -> string): set<nat>
  {
    set i | 0 <= i < |items| && !Dominated(items, i, normalize)
  }

  /** The inner loop: is there a similar row that knows more? */
  method FindDominating(items: seq<Line>, i: nat, normalize: string -> string) returns (dominated: bool)
    requires i < |items|
    ensures dominated <==> Dominated(items, i, normalize)
  {
    dominated := false;
    var j := 0;
    while j < |items| && !dominated
      invariant 0 <= j <= |items|
      invariant dominated ==> Dominated(items, i, normalize)
      invariant !dominated ==> forall k :: 0 <= k < j && k != i ==> !Dominates(items[k], items[i], normalize)
    {
      if j != i {
        var similar := NamesSimilar(items[i].name, items[j].name, normalize);
        if similar && Score(items[j]) > Score(items[i]) && !items[i].resolved {
          assert Dominates(items[j], items[i], normalize);
          dominated := true;
        }
      }
      j := j + 1;
    }
  }

  /** What the outer loop has kept of the first `n` rows. */
  ghost predicate CleanedSoFar(items: seq<Line>, normalize: string -> string, n: nat, cleaned: seq<Line>, from: seq<nat>)
    requires n <= |items|
  {
    && cleaned == Survivors(items, n, normalize)
    && Filtered(items, Undominated(items, normalize), n, from, cleaned)
  }

  lemma CleanNext(items: seq<Line>, normalize: string -> string, n: nat, cleaned: seq<Line>, from: seq<nat>)
    requires n < |items| && CleanedSoFar(items, normalize, n, cleaned, from)
    ensures if Dominated(items, n, normalize) then CleanedSoFar(items, normalize, n + 1, cleaned, from)
            else CleanedSoFar(items, normalize, n + 1, cleaned + [items[n]], from + [n])
  {
    FilterNext(items, Undominated(items, normalize), n, from, cleaned);
  }

  lemma CleanBounds(items: seq<Line>, normalize: string -> string, cleaned: seq<Line>, from: seq<nat>)
    ensures CleanedSoFar(items, normalize, 0, [], [])
    ensures CleanedSoFar(items, normalize, |items|, cleaned, from) ==>
              Picks(from, Undominated(items, normalize)) && Keeps(items, from, cleaned)
  {
    FilterBounds(items, Undominated(items, normalize), from, cleaned);
  }

  /** Keeps, once each and in order, the rows of which no similar row knows more, and every resolved row. */
  method DropDominated(items: seq<Line>, normalize: string -> string) returns (cleaned: seq<Line>, ghost from: seq<nat>)
    ensures Increasing(from) && Keeps(items, from, cleaned) && KnowMost(items, normalize, from)
    ensures cleaned == Survivors(items, |items|, normalize)
  {
    cleaned, from := [], [];
    CleanBounds(items, normalize, cleaned, from);
    for i := 0 to |items|
      invariant CleanedSoFar(items, normalize, i, cleaned, from)
    {
      CleanNext(items, normalize, i, cleaned, from);
      var dominated := FindDominating(items, i, normalize);
      if !dominated {
        cleaned, from := cleaned + [items[i]], from + [i];
      }
    }
    CleanBounds(items, normalize, cleaned, from);
    PickedMeans(items, normalize, from);
  }

  lemma PickedMeans(items: seq<Line>, normalize: string -> string, from: seq<nat>)
    requires Picks(from, Undominated(items, normalize))
    ensures KnowMost(items, normalize, from)
  {
    forall i | 0 <= i < |items|
      ensures i in from <==> items[i].resolved || forall j :: 0 <= j < |items| && j != i ==>
                !(Similar(normalize(items[i].name), normalize(items[j].name)) && Score(items[j]) > Score(items[i]))
    {
      assert i in from <==> !Dominated(items, i, normalize);
      if !items[i].resolved && Dominated(items, i, normalize) {
        var j :| 0 <= j < |items| && j != i && Dominates(items[j], items[i], normalize);
        assert Similar(normalize(items[i].name), normalize(items[j].name)) && Score(items[j]) > Score(items[i]);
      } else if !items[i].resolved {
        forall j | 0 <= j < |items| && j != i
          ensures !(Similar(normalize(items[i].name), normalize(items[j].name)) && Score(items[j]) > Score(items[i]))
        {
          assert !Dominates(items[j], items[i], normalize);
        }
      }
    }
  }

  lemma {:induction false} KeptRowSurvives(items: seq<Line>, i: nat, n: nat, normalize: string -> string)
    requires i < n <= |items| && !Dominated(items, i, normalize)
    ensures items[i] in Survivors(items, n, normalize)
  {
    if i < n - 1 {
      KeptRowSurvives(items, i, n - 1, normalize);
    }
  }

  /** A row the catalog has confirmed is never lost. */
  lemma ResolvedRowSurvives(items: seq<Line>, i: nat, normalize: string -> string)
    requires i < |items| && items[i].resolved
    ensures items[i] in Survivors(items, |items|, normalize)
  {
    KeptRowSurvives(items, i, |items|, normalize);
  }

  /** Each row of the chain dominates the one before it. */
  ghost predicate Chain(items: seq<Line>, chain: seq<nat>, normalize: string -> string)
  {
    && chain != []
    && (forall k :: 0 <= k < |chain| ==> chain[k] < |items|)
    && forall k :: 0 <= k < |chain| - 1 ==> Dominates(items[chain[k + 1]], items[chain[k]], normalize)
  }

  /**
   Every row is linked by similar, strictly richer rows to one that is kept; a kept row is its own
   chain.  Scores end at three, so the chain is at most four rows long.
   */
  lemma {:induction false} ChainToSurvivor(items: seq<Line>, i: nat, normalize: string -> string)
    returns (chain: seq<nat>)
    requires i < |items|
    ensures Chain(items, chain, normalize) && chain[0] == i
    ensures !Dominated(items, chain[|chain| - 1], normalize)
    ensures items[chain[|chain| - 1]] in Survivors(items, |items|, normalize)
    ensures |chain| <= 4 - Score(items[i])
    decreases 3 - Score(items[i])
  {
    if j :| 0 <= j < |items| && j != i && Dominates(items[j], items[i], normalize) {
      var rest := ChainToSurvivor(items, j, normalize);
      chain := [i] + rest;
      forall k | 0 <= k < |chain| - 1 ensures Dominates(items[chain[k + 1]], items[chain[k]], normalize) {
        assert chain[k + 1] == rest[k] && (k > 0 ==> chain[k] == rest[k - 1]);
      }
    } else {
      chain := [i];
      KeptRowSurvives(items, i, |items|, normalize);
    }
  }

  lemma NeverEmptied(items: seq<Line>, normalize: string -> string)
    requires items != []
    ensures Survivors(items, |items|, normalize) != []
  {
    var chain := ChainToSurvivor(items, 0, normalize);
  }
}
