/**
 Typo-tolerant name matching: the two-row edit-distance loop shared by the cart's name comparison
 and the catalog's fuzzy matcher, against the recursive definition and against plain English.
 */
module Similarity {

  function Min(a: nat, b: nat): nat
  {
    if a <= b then a else b
  }

  /** Edit distance with unit costs between the first `i` characters of `a` and the first `j` of `b`. */
  function Prefixes(a: string, b: string, i: nat, j: nat): nat
    requires i <= |a| && j <= |b|
  {
    if i == 0 then j
    else if j == 0 then i
    else
      var cost := if a[i - 1] == b[j - 1] then 0 else 1;
      Min(Min(Prefixes(a, b, i, j - 1) + 1, Prefixes(a, b, i - 1, j) + 1), Prefixes(a, b, i - 1, j - 1) + cost)
  }

  function Dist(a: string, b: string): nat
  {
    Prefixes(a, b, |a|, |b|)
  }

  predicate OccursAt(haystack: string, needle: string, i: nat)
  {
    i + |needle| <= |haystack| && haystack[i..i + |needle|] == needle
  }

  /** Python's `needle in haystack`. */
  predicate Contains(haystack: string, needle: string)
  {
    exists i :: 0 <= i <= |haystack| && OccursAt(haystack, needle, i)
  }

  predicate SubstitutedAt(a: string, b: string, k: nat)
  {
    |a| == |b| && k < |a| && a[..k] == b[..k] && a[k + 1..] == b[k + 1..]
  }

  /** `b` is `a` with one character inserted at `k`. */
  predicate InsertedAt(a: string, b: string, k: nat)
  {
    |b| == |a| + 1 && k <= |a| && b[..k] == a[..k] && b[k + 1..] == a[k..]
  }

  predicate OneEdit(a: string, b: string)
  {
    || (exists k :: 0 <= k < |a| && SubstitutedAt(a, b, k))
    || (exists k :: 0 <= k <= |a| && InsertedAt(a, b, k))
    || (exists k :: 0 <= k <= |b| && InsertedAt(b, a, k))
  }

  /** What the name comparison decides, on names already normalised. */
  predicate Similar(left: string, right: string)
  {
    left != "" && right != "" && (Contains(right, left) || Contains(left, right) || OneEdit(left, right))
  }

  // ---------- the recursive definition ----------

  lemma LeastOf(x: nat, y: nat, z: nat)
    ensures var m := Min(Min(x, y), z); m in {x, y, z} && m <= x && m <= y && m <= z
  {
  }

  /** Why names whose lengths differ by more than one can be told apart without the table. */
  lemma {:induction false} LengthGap(a: string, b: string, i: nat, j: nat)
    requires i <= |a| && j <= |b|
    ensures i - j <= Prefixes(a, b, i, j) && j - i <= Prefixes(a, b, i, j)
  {
    if i == 0 || j == 0 {
    } else {
      LengthGap(a, b, i - 1, j);
      LengthGap(a, b, i, j - 1);
      LengthGap(a, b, i - 1, j - 1);
      var cost := if a[i - 1] == b[j - 1] then 0 else 1;
      LeastOf(Prefixes(a, b, i, j - 1) + 1, Prefixes(a, b, i - 1, j) + 1, Prefixes(a, b, i - 1, j - 1) + cost);
    }
  }

  lemma {:induction false} DistanceZero(a: string, b: string, i: nat, j: nat)
    requires i <= |a| && j <= |b|
    ensures Prefixes(a, b, i, j) == 0 <==> a[..i] == b[..j]
  {
    if i > 0 && j > 0 {
      DistanceZero(a, b, i - 1, j - 1);
      assert a[..i] == a[..i - 1] + [a[i - 1]] && b[..j] == b[..j - 1] + [b[j - 1]];
    }
  }

  lemma OneEditExtends(a: string, b: string, c: char)
    requires OneEdit(a, b)
    ensures OneEdit(a + [c], b + [c])
  {
    var x, y := a + [c], b + [c];
    if k :| 0 <= k < |a| && SubstitutedAt(a, b, k) {
      assert x[..k] == a[..k] && y[..k] == b[..k];
      assert x[k + 1..] == a[k + 1..] + [c] && y[k + 1..] == b[k + 1..] + [c];
      assert SubstitutedAt(x, y, k);
    } else if k :| 0 <= k <= |a| && InsertedAt(a, b, k) {
      InsertionExtends(a, b, k, c);
    } else {
      var k :| 0 <= k <= |b| && InsertedAt(b, a, k);
      InsertionExtends(b, a, k, c);
    }
  }

  lemma InsertionExtends(a: string, b: string, k: nat, c: char)
    requires InsertedAt(a, b, k)
    ensures InsertedAt(a + [c], b + [c], k)
  {
    assert (a + [c])[..k] == a[..k] && (b + [c])[..k] == b[..k];
    assert (a + [c])[k..] == a[k..] + [c] && (b + [c])[k + 1..] == b[k + 1..] + [c];
  }

  /** Longer by its last character, or different in its last character only. */
  lemma EditAtEnd(x: string, c: char, d: char)
    ensures InsertedAt(x, x + [c], |x|)
    ensures SubstitutedAt(x + [c], x + [d], |x|)
    ensures OneEdit(x, x + [c]) && OneEdit(x + [c], x) && OneEdit(x + [c], x + [d])
  {
    assert (x + [c])[..|x|] == x[..|x|] == (x + [d])[..|x|];
    assert (x + [c])[|x| + 1..] == x[|x|..] == (x + [d])[|x| + 1..];
    assert InsertedAt(x, x + [c], |x|) && SubstitutedAt(x + [c], x + [d], |x|);
  }

  lemma CloseComesFrom(a: string, b: string, i: nat, j: nat)
    requires 0 < i <= |a| && 0 < j <= |b| && Prefixes(a, b, i, j) <= 1
    ensures || Prefixes(a, b, i - 1, j) == 0 || Prefixes(a, b, i, j - 1) == 0 || Prefixes(a, b, i - 1, j - 1) == 0
            || (a[i - 1] == b[j - 1] && Prefixes(a, b, i - 1, j - 1) <= 1)
  {
  }

  /** Where a distance of at most one can come from: equal neighbours, or a close cell and a common last character. */
  lemma CloseCell(a: string, b: string, i: nat, j: nat)
    requires 0 < i <= |a| && 0 < j <= |b| && Prefixes(a, b, i, j) <= 1
    ensures || a[..i - 1] == b[..j] || a[..i] == b[..j - 1] || a[..i - 1] == b[..j - 1]
            || (a[i - 1] == b[j - 1] && Prefixes(a, b, i - 1, j - 1) <= 1)
  {
    CloseComesFrom(a, b, i, j);
    if Prefixes(a, b, i - 1, j) == 0 {
      ZeroIsEqual(a, b, i - 1, j);
    } else if Prefixes(a, b, i, j - 1) == 0 {
      ZeroIsEqual(a, b, i, j - 1);
    } else if Prefixes(a, b, i - 1, j - 1) == 0 {
      ZeroIsEqual(a, b, i - 1, j - 1);
    }
  }

  lemma ZeroIsEqual(a: string, b: string, i: nat, j: nat)
    requires i <= |a| && j <= |b| && Prefixes(a, b, i, j) == 0
    ensures a[..i] == b[..j]
  {
    DistanceZero(a, b, i, j);
  }

  /** Equality of the prefixes next to a cell is one edit at the cell. */
  lemma EqualBeforeLast(x: string, c: char, y: string, d: char)
    requires x == y || x == y + [d] || x + [c] == y
    ensures x + [c] == y + [d] || OneEdit(x + [c], y + [d])
  {
    EditAtEnd(x, c, d);
    if x == y + [d] {
      EditAtEnd(x, c, c);
    } else if x + [c] == y {
      EditAtEnd(y, d, d);
    }
  }

  lemma {:induction false} CloseIsOneEdit(a: string, b: string, i: nat, j: nat)
    requires i <= |a| && j <= |b| && Prefixes(a, b, i, j) <= 1
    ensures a[..i] == b[..j] || OneEdit(a[..i], b[..j])
  {
    if i == 0 {
      assert j == 1 ==> InsertedAt(a[..i], b[..j], 0);
    } else if j == 0 {
      assert InsertedAt(b[..j], a[..i], 0);
    } else {
      var x, c, y, d := a[..i - 1], a[i - 1], b[..j - 1], b[j - 1];
      assert a[..i] == x + [c] && b[..j] == y + [d];
      CloseCell(a, b, i, j);
      if x == y || x == y + [d] || x + [c] == y {
        EqualBeforeLast(x, c, y, d);
      } else {
        CloseIsOneEdit(a, b, i - 1, j - 1);
        OneEditExtends(x, y, c);
      }
    }
  }

  lemma {:induction false} SubstitutionIsClose(a: string, b: string, k: nat, i: nat)
    requires SubstitutedAt(a, b, k) && i <= |a|
    ensures Prefixes(a, b, i, i) <= if i > k then 1 else 0
  {
    if i > 0 {
      SubstitutionIsClose(a, b, k, i - 1);
      if i - 1 < k {
        assert a[i - 1] == a[..k][i - 1] == b[i - 1];
      } else if i - 1 > k {
        assert a[i - 1] == a[k + 1..][i - k - 2] == b[i - 1];
      }
    }
  }

  lemma {:induction false} InsertionIsClose(a: string, b: string, k: nat, i: nat)
    requires InsertedAt(a, b, k) && i <= |a|
    ensures i <= k ==> Prefixes(a, b, i, i) == 0
    ensures i >= k ==> Prefixes(a, b, i, i + 1) <= 1
  {
    if i <= k {
      assert a[..i] == a[..k][..i] == b[..i];
      DistanceZero(a, b, i, i);
    } else {
      InsertionIsClose(a, b, k, i - 1);
      assert b[i] == b[k + 1..][i - k - 1] == a[k..][i - k - 1] == a[i - 1];
    }
  }

  lemma {:induction false} DeletionIsClose(a: string, b: string, k: nat, i: nat)
    requires InsertedAt(b, a, k) && i <= |b|
    ensures i <= k ==> Prefixes(a, b, i, i) == 0
    ensures i >= k ==> Prefixes(a, b, i + 1, i) <= 1
  {
    if i <= k {
      assert a[..i] == a[..k][..i] == b[..i];
      DistanceZero(a, b, i, i);
    } else {
      DeletionIsClose(a, b, k, i - 1);
      assert a[i] == a[k + 1..][i - k - 1] == b[k..][i - k - 1] == b[i - 1];
    }
  }

  /** Distance at most one means equal, or one character inserted, deleted or substituted. */
  lemma CloseExactlyWhenOneEdit(a: string, b: string)
    ensures Dist(a, b) <= 1 <==> a == b || OneEdit(a, b)
  {
    assert a[..|a|] == a && b[..|b|] == b;
    if Dist(a, b) <= 1 {
      CloseIsOneEdit(a, b, |a|, |b|);
    }
    if a == b {
      DistanceZero(a, b, |a|, |b|);
    } else if k :| 0 <= k < |a| && SubstitutedAt(a, b, k) {
      SubstitutionIsClose(a, b, k, |a|);
    } else if k :| 0 <= k <= |a| && InsertedAt(a, b, k) {
      InsertionIsClose(a, b, k, |a|);
    } else if k :| 0 <= k <= |b| && InsertedAt(b, a, k) {
      DeletionIsClose(a, b, k, |b|);
    }
  }

  /** Nothing but the needle, with something or nothing on either side. */
  predicate Frames(haystack: string, before: string, needle: string, after: string)
  {
    haystack == before + needle + after
  }

  lemma ContainsExactlyWhen(haystack: string, needle: string)
    ensures Contains(haystack, needle) <==> exists before, after :: Frames(haystack, before, needle, after)
  {
    if i :| 0 <= i <= |haystack| && OccursAt(haystack, needle, i) {
      assert Frames(haystack, haystack[..i], needle, haystack[i + |needle|..]);
    }
    if before, after :| Frames(haystack, before, needle, after) {
      assert haystack[|before|..|before| + |needle|] == needle;
      assert OccursAt(haystack, needle, |before|);
    }
  }

  lemma ContainsItself(s: string)
    ensures Contains(s, s)
  {
    assert OccursAt(s, s, 0);
  }

  lemma OneEditSymmetric(a: string, b: string)
    requires OneEdit(a, b)
    ensures OneEdit(b, a)
  {
    if k :| 0 <= k < |a| && SubstitutedAt(a, b, k) {
      assert SubstitutedAt(b, a, k);
    }
  }

  lemma SimilarSymmetric(left: string, right: string)
    requires Similar(left, right)
    ensures Similar(right, left)
  {
    if OneEdit(left, right) {
      OneEditSymmetric(left, right);
    }
  }

  // ---------- the loops ----------

  /** The first `n` entries of row `i`. */
  ghost predicate IsRow(row: seq<nat>, left: string, right: string, i: nat, n: nat)
    requires i <= |left| && n <= |right| + 1
  {
    |row| == n && forall j :: 0 <= j < n ==> row[j] == Prefixes(left, right, i, j)
  }

  method TwoRowDistance(left: string, right: string) returns (d: nat)
    ensures d == Dist(left, right)
  {
    var prev: seq<nat> := seq(|right| + 1, j requires 0 <= j => j);
    for i := 0 to |left|
      invariant IsRow(prev, left, right, i, |right| + 1)
    {
      var curr: seq<nat> := [i + 1];
      for j := 0 to |right|
        invariant IsRow(curr, left, right, i + 1, j + 1)
      {
        var cost := if left[i] == right[j] then 0 else 1;
        curr := curr + [Min(Min(curr[j] + 1, prev[j + 1] + 1), prev[j] + cost)];
      }
      prev := curr;
    }
    return prev[|prev| - 1];
  }

  /** Lower-casing and dropping everything but letters and digits is the caller's `normalize`. */
  method NamesSimilar(a: string, b: string, normalize: string -> string) returns (similar: bool)
    ensures similar <==> Similar(normalize(a), normalize(b))
    ensures similar <==>
              && normalize(a) != "" && normalize(b) != ""
              && (|| (exists before, after :: Frames(normalize(a), before, normalize(b), after))
                  || (exists before, after :: Frames(normalize(b), before, normalize(a), after))
                  || OneEdit(normalize(a), normalize(b)))
  {
    ContainsExactlyWhen(normalize(a), normalize(b));
    ContainsExactlyWhen(normalize(b), normalize(a));
    var left, right := normalize(a), normalize(b);
    if left == "" || right == "" {
      return false;
    }
    CloseExactlyWhenOneEdit(left, right);
    if left == right || Contains(right, left) || Contains(left, right) {
      ContainsItself(left);
      return true;
    }
    LengthGap(left, right, |left|, |right|);
    if |left| - |right| > 1 || |right| - |left| > 1 {
      return false;
    }
    var d := TwoRowDistance(left, right);
    return d <= 1;
  }

  /** The catalog's matcher uses the same loop, but wants needles of one or two characters verbatim. */
  method FuzzyContains(haystack: string, needle: string) returns (found: bool)
    ensures found <==> || needle == "" || (exists before, after :: Frames(haystack, before, needle, after))
                       || (|needle| > 2 && OneEdit(haystack, needle))
  {
    ContainsExactlyWhen(haystack, needle);
    if needle == "" {
      return true;
    }
    if Contains(haystack, needle) {
      return true;
    }
    if |needle| <= 2 {
      return false;
    }
    CloseExactlyWhenOneEdit(haystack, needle);
    LengthGap(haystack, needle, |haystack|, |needle|);
    if |haystack| - |needle| > 1 || |needle| - |haystack| > 1 {
      return false;
    }
    ContainsItself(needle);
    var d := TwoRowDistance(haystack, needle);
    return d <= 1;
  }
}
