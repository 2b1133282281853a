/** What it means for a loop to pick some of the elements it walks over, in their order. */
module Picking {
  ghost predicate Increasing(from: seq<nat>)
  {
    forall i, j :: 0 <= i < j < |from| ==> from[i] < from[j]
  }

  /** `from` lists `wanted`, once each and in order. */
  ghost predicate Picks(from: seq<nat>, wanted: set<nat>)
  {
    Increasing(from) && forall k :: k in from <==> k in wanted
  }

  ghost function Below(wanted: set<nat>, n: nat): set<nat>
  {
    set k | k in wanted && k < n
  }

  lemma PickNext(from: seq<nat>, wanted: set<nat>, n: nat)
    requires Picks(from, Below(wanted, n))
    ensures Picks(if n in wanted then from + [n] else from, Below(wanted, n + 1))
  {
    forall j | 0 <= j < |from| ensures from[j] < n {
      assert from[j] in Below(wanted, n);
    }
    if n in wanted {
      assert (from + [n])[|from|] == n;
      assert Below(wanted, n + 1) == Below(wanted, n) + {n};
      forall k ensures k in from + [n] <==> k in from || k == n {}
    } else {
      assert Below(wanted, n + 1) == Below(wanted, n);
    }
  }

  lemma PickLast(from: seq<nat>, wanted: set<nat>, n: nat)
    requires Picks(from, wanted) && forall k :: k in wanted ==> k < n
    ensures Picks(from + [n], wanted + {n})
  {
    assert Below(wanted + {n}, n) == wanted && Below(wanted + {n}, n + 1) == wanted + {n};
    PickNext(from, wanted + {n}, n);
  }

  /** Nothing is picked yet, and nothing is left to pick. */
  lemma PickBounds(wanted: set<nat>, n: nat)
    requires forall k :: k in wanted ==> k < n
    ensures Below(wanted, 0) == {} && Below(wanted, n) == wanted
  {
  }

  /** `kept` are the elements at `from`, in that order. */
  ghost predicate Keeps<T>(all: seq<T>, from: seq<nat>, kept: seq<T>)
  {
    |kept| == |from| && forall j :: 0 <= j < |from| ==> from[j] < |all| && kept[j] == all[from[j]]
  }

  lemma KeepNext<T>(all: seq<T>, from: seq<nat>, kept: seq<T>, n: nat)
    requires n < |all| && Keeps(all, from, kept)
    ensures Keeps(all, from + [n], kept + [all[n]])
  {
  }

  /** Of the first `n` elements, `kept` are the `wanted` ones, once each and in order. */
  ghost predicate Filtered<T>(all: seq<T>, wanted: set<nat>, n: nat, from: seq<nat>, kept: seq<T>)
  {
    Picks(from, Below(wanted, n)) && Keeps(all, from, kept)
  }

  lemma FilterNext<T>(all: seq<T>, wanted: set<nat>, n: nat, from: seq<nat>, kept: seq<T>)
    requires n < |all| && Filtered(all, wanted, n, from, kept)
    ensures if n in wanted then Filtered(all, wanted, n + 1, from + [n], kept + [all[n]])
            else Filtered(all, wanted, n + 1, from, kept)
  {
    PickNext(from, wanted, n);
    KeepNext(all, from, kept, n);
  }

  lemma FilterBounds<T>(all: seq<T>, wanted: set<nat>, from: seq<nat>, kept: seq<T>)
    requires forall k :: k in wanted ==> k < |all|
    ensures Filtered(all, wanted, 0, [], [])
    ensures Filtered(all, wanted, |all|, from, kept) ==> Picks(from, wanted) && Keeps(all, from, kept)
  {
    PickBounds(wanted, |all|);
  }
}
