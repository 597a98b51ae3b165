/** The two-row edit distance and what it means (payment/vop.go). */
module EditDistance {

  type Rune = int

  function Min(a: int, b: int): int {
    if a <= b then a else b
  }

  function Cost(x: Rune, y: Rune): int {
    if x == y then 0 else 1
  }

  /** The recurrence on prefixes. */
  function Lev(a: seq<Rune>, b: seq<Rune>): nat
    decreases |a| + |b|
  {
    if a == [] then |b|
    else if b == [] then |a|
    else
      var a', b' := a[..|a| - 1], b[..|b| - 1];
      Min(Lev(a', b) + 1, Min(Lev(a, b') + 1, Lev(a', b') + Cost(a[|a| - 1], b[|b| - 1])))
  }

  // ----- the declarative meaning: a shortest chain of single edits -----

  datatype Edit = Insert(at: nat, rune: Rune) | Delete(at: nat) | Substitute(at: nat, rune: Rune)

  predicate Applicable(e: Edit, s: seq<Rune>) {
    if e.Insert? then e.at <= |s| else e.at < |s|
  }

  function ApplyEdit(e: Edit, s: seq<Rune>): seq<Rune>
    requires Applicable(e, s)
  {
    match e
    case Insert(at, rune) => s[..at] + [rune] + s[at..]
    case Delete(at) => s[..at] + s[at + 1..]
    case Substitute(at, rune) => s[at := rune]
  }

  /** A script of single edits, anywhere in the text and in any order, that turns a into b. */
  predicate Rewrites(script: seq<Edit>, a: seq<Rune>, b: seq<Rune>) {
    if script == [] then a == b
    else Applicable(script[0], a) && Rewrites(script[1..], ApplyEdit(script[0], a), b)
  }

  // ----- metric laws -----

  lemma LevBounds(a: seq<Rune>, b: seq<Rune>)
    ensures |a| - |b| <= Lev(a, b) && |b| - |a| <= Lev(a, b) <= |a| + |b|
    decreases |a| + |b|
  {
  }

  lemma {:induction false} LevSymmetric(a: seq<Rune>, b: seq<Rune>)
    ensures Lev(a, b) == Lev(b, a)
    decreases |a| + |b|
  {
    if a != [] && b != [] {
      var a', b' := a[..|a| - 1], b[..|b| - 1];
      LevSymmetric(a', b);
      LevSymmetric(a, b');
      LevSymmetric(a', b');
    }
  }

  lemma {:induction false} LevZero(a: seq<Rune>, b: seq<Rune>)
    ensures Lev(a, b) == 0 <==> a == b
    decreases |a| + |b|
  {
    if a != [] && b != [] {
      var a', b' := a[..|a| - 1], b[..|b| - 1];
      LevZero(a', b');
      assert a == a' + [a[|a| - 1]] && b == b' + [b[|b| - 1]];
    }
  }

  lemma {:induction false} LevTriangle(a: seq<Rune>, b: seq<Rune>, c: seq<Rune>)
    ensures Lev(a, c) <= Lev(a, b) + Lev(b, c)
    decreases |a| + |b| + |c|
  {
    if a == [] {
      LevBounds(b, c);
    } else if c == [] {
      LevBounds(a, b);
    } else if b == [] {
      LevBounds(a, c);
    } else {
      var a', b', c' := a[..|a| - 1], b[..|b| - 1], c[..|c| - 1];
      LevTriangle(a', b, c);
      LevTriangle(a, b, c');
      LevTriangle(a, b', c);
      LevTriangle(a, b', c');
      LevTriangle(a', b', c);
      LevTriangle(a', b', c');
    }
  }

  // ----- the distance is the length of a shortest script -----

  /** Appending the same tail to both sides does not increase the distance. */
  lemma {:induction false} LevAppend(a: seq<Rune>, b: seq<Rune>, tail: seq<Rune>)
    ensures Lev(a + tail, b + tail) <= Lev(a, b)
    decreases |tail|
  {
    if tail == [] {
      assert a + tail == a && b + tail == b;
    } else {
      var init, last := tail[..|tail| - 1], tail[|tail| - 1];
      LevAppend(a, b, init);
      assert (a + tail)[..|a + tail| - 1] == a + init;
      assert (b + tail)[..|b + tail| - 1] == b + init;
    }
  }

  /** One unfolding, as bounds. */
  lemma LevStep(a: seq<Rune>, b: seq<Rune>)
    ensures a != [] ==> Lev(a, b) <= Lev(a[..|a| - 1], b) + 1
    ensures b != [] ==> Lev(a, b) <= Lev(a, b[..|b| - 1]) + 1
    ensures a != [] && b != [] ==> Lev(a, b) <= Lev(a[..|a| - 1], b[..|b| - 1]) + Cost(a[|a| - 1], b[|b| - 1])
  {
  }

  /** Two texts that agree except for at most one last rune are at most one apart. */
  lemma NearlyEqual(head: seq<Rune>, x: seq<Rune>, y: seq<Rune>)
    requires |x| <= 1 && |y| <= 1
    ensures Lev(head + x, head + y) <= 1
  {
    if x == [] && y == [] {
      LevZero(head + x, head + y);
    } else if x == [] {
      assert head + x == head && y == [y[0]];
      OneMore(head, y[0]);
    } else if y == [] {
      assert head + y == head && x == [x[0]];
      OneMore(head, x[0]);
      LevSymmetric(head, head + [x[0]]);
    } else {
      assert x == [x[0]] && y == [y[0]];
      OneOther(head, x[0], y[0]);
    }
  }

  lemma OneMore(head: seq<Rune>, y: Rune)
    ensures Lev(head, head + [y]) <= 1
  {
    LevZero(head, head);
    LevStep(head, head + [y]);
    assert (head + [y])[..|head|] == head;
  }

  lemma OneOther(head: seq<Rune>, x: Rune, y: Rune)
    ensures Lev(head + [x], head + [y]) <= 1
  {
    LevZero(head, head);
    LevStep(head + [x], head + [y]);
    assert (head + [x])[..|head|] == head && (head + [y])[..|head|] == head;
  }

  /** An edit replaces at most one rune by at most one rune. */
  lemma EditShape(e: Edit, s: seq<Rune>) returns (head: seq<Rune>, x: seq<Rune>, y: seq<Rune>, tail: seq<Rune>)
    requires Applicable(e, s)
    ensures |x| <= 1 && |y| <= 1 && s == head + x + tail && ApplyEdit(e, s) == head + y + tail
  {
    head := s[..e.at];
    x := if e.Insert? then [] else [s[e.at]];
    y := if e.Delete? then [] else [e.rune];
    tail := if e.Insert? then s[e.at..] else s[e.at + 1..];
  }

  /** One edit changes the text by at most one. */
  lemma SingleEdit(e: Edit, s: seq<Rune>)
    requires Applicable(e, s)
    ensures Lev(s, ApplyEdit(e, s)) <= 1
  {
    var head, x, y, tail := EditShape(e, s);
    NearlyEqual(head, x, y);
    LevAppend(head + x, head + y, tail);
  }

  /** No script is shorter than the distance. */
  lemma {:induction false} NoShorterScript(script: seq<Edit>, a: seq<Rune>, b: seq<Rune>)
    requires Rewrites(script, a, b)
    ensures Lev(a, b) <= |script|
    decreases |script|
  {
    if script == [] {
      LevZero(a, b);
    } else {
      var mid := ApplyEdit(script[0], a);
      SingleEdit(script[0], a);
      NoShorterScript(script[1..], mid, b);
      LevTriangle(a, mid, b);
    }
  }

  /** A script on a prefix still applies when a tail follows. */
  lemma {:induction false} RewritesBefore(script: seq<Edit>, a: seq<Rune>, b: seq<Rune>, tail: seq<Rune>)
    requires Rewrites(script, a, b)
    ensures Rewrites(script, a + tail, b + tail)
    decreases |script|
  {
    if script != [] {
      var e := script[0];
      RewritesBefore(script[1..], ApplyEdit(e, a), b, tail);
      EditBefore(e, a, tail);
    }
  }

  lemma EditBefore(e: Edit, a: seq<Rune>, tail: seq<Rune>)
    requires Applicable(e, a)
    ensures Applicable(e, a + tail) && ApplyEdit(e, a + tail) == ApplyEdit(e, a) + tail
  {
    assert ApplyEdit(e, a + tail) == ApplyEdit(e, a) + tail;
  }

  lemma {:induction false} RewritesThen(script: seq<Edit>, more: seq<Edit>, a: seq<Rune>, b: seq<Rune>, c: seq<Rune>)
    requires Rewrites(script, a, b) && Rewrites(more, b, c)
    ensures Rewrites(script + more, a, c)
    decreases |script|
  {
    if script == [] {
      assert script + more == more;
    } else {
      RewritesThen(script[1..], more, ApplyEdit(script[0], a), b, c);
      assert (script + more)[1..] == script[1..] + more;
    }
  }

  lemma OneEdit(e: Edit, a: seq<Rune>, b: seq<Rune>)
    requires Applicable(e, a) && ApplyEdit(e, a) == b
    ensures Rewrites([e], a, b)
  {
    assert [e][1..] == [];
  }

  lemma DeleteLast(a: seq<Rune>, b: seq<Rune>, rest: seq<Edit>)
    requires a != [] && Rewrites(rest, a[..|a| - 1], b)
    ensures Rewrites([Delete(|a| - 1)] + rest, a, b)
  {
    OneEdit(Delete(|a| - 1), a, a[..|a| - 1]);
    RewritesThen([Delete(|a| - 1)], rest, a, a[..|a| - 1], b);
  }

  lemma InsertLast(a: seq<Rune>, b: seq<Rune>, rest: seq<Edit>)
    requires b != [] && Rewrites(rest, a, b[..|b| - 1])
    ensures Rewrites(rest + [Insert(|b| - 1, b[|b| - 1])], a, b)
  {
    OneEdit(Insert(|b| - 1, b[|b| - 1]), b[..|b| - 1], b);
    RewritesThen(rest, [Insert(|b| - 1, b[|b| - 1])], a, b[..|b| - 1], b);
  }

  lemma SubstituteLast(a: seq<Rune>, b: seq<Rune>, rest: seq<Edit>)
    requires a != [] && b != [] && Rewrites(rest, a[..|a| - 1], b[..|b| - 1])
    ensures Rewrites(rest + [Substitute(|b| - 1, b[|b| - 1])], a, b)
  {
    var x, y, b' := a[|a| - 1], b[|b| - 1], b[..|b| - 1];
    KeepLast(a, b', rest);
    assert ApplyEdit(Substitute(|b| - 1, y), b' + [x]) == b;
    OneEdit(Substitute(|b| - 1, y), b' + [x], b);
    RewritesThen(rest, [Substitute(|b| - 1, y)], a, b' + [x], b);
  }

  lemma KeepLast(a: seq<Rune>, b: seq<Rune>, rest: seq<Edit>)
    requires a != [] && Rewrites(rest, a[..|a| - 1], b)
    ensures Rewrites(rest, a, b + [a[|a| - 1]])
  {
    RewritesBefore(rest, a[..|a| - 1], b, [a[|a| - 1]]);
    assert a[..|a| - 1] + [a[|a| - 1]] == a;
  }

  lemma LevLast(a: seq<Rune>, b: seq<Rune>)
    requires a != [] && b != []
    requires Lev(a, b) != Lev(a[..|a| - 1], b) + 1 && Lev(a, b) != Lev(a, b[..|b| - 1]) + 1
    ensures Lev(a, b) == Lev(a[..|a| - 1], b[..|b| - 1]) + if a[|a| - 1] == b[|b| - 1] then 0 else 1
  {
  }

  /** A script as long as the distance exists. */
  lemma {:induction false} ShortestScript(a: seq<Rune>, b: seq<Rune>) returns (script: seq<Edit>)
    ensures Rewrites(script, a, b) && |script| == Lev(a, b)
    decreases |a| + |b|
  {
    if a == [] && b == [] {
      script := [];
    } else if a != [] && (b == [] || Lev(a, b) == Lev(a[..|a| - 1], b) + 1) {
      var rest := ShortestScript(a[..|a| - 1], b);
      DeleteLast(a, b, rest);
      script := [Delete(|a| - 1)] + rest;
    } else if b != [] && (a == [] || Lev(a, b) == Lev(a, b[..|b| - 1]) + 1) {
      var rest := ShortestScript(a, b[..|b| - 1]);
      InsertLast(a, b, rest);
      script := rest + [Insert(|b| - 1, b[|b| - 1])];
    } else {
      LevLast(a, b);
      var rest := ShortestScript(a[..|a| - 1], b[..|b| - 1]);
      if a[|a| - 1] == b[|b| - 1] {
        KeepLast(a, b[..|b| - 1], rest);
        assert b[..|b| - 1] + [a[|a| - 1]] == b;
        script := rest;
      } else {
        SubstituteLast(a, b, rest);
        script := rest + [Substitute(|b| - 1, b[|b| - 1])];
      }
    }
  }

  /** The distance is attained by a script and undercut by none. */
  lemma {:induction false} LevIsShortest(a: seq<Rune>, b: seq<Rune>)
    ensures exists script :: Rewrites(script, a, b) && |script| == Lev(a, b)
    ensures forall script :: Rewrites(script, a, b) ==> Lev(a, b) <= |script|
  {
    var shortest := ShortestScript(a, b);
    forall script | Rewrites(script, a, b) ensures Lev(a, b) <= |script| {
      NoShorterScript(script, a, b);
    }
  }

  // ----- the program -----

  /** One cell of the table: the distance between two prefixes. */
  lemma Cell(a: seq<Rune>, b: seq<Rune>, i: nat, j: nat)
    requires i < |a| && j < |b|
    ensures Lev(a[..i + 1], b[..j + 1])
         == Min(Lev(a[..i + 1], b[..j]) + 1, Min(Lev(a[..i], b[..j + 1]) + 1, Lev(a[..i], b[..j]) + Cost(a[i], b[j])))
  {
    assert a[..i + 1][..i] == a[..i] && b[..j + 1][..j] == b[..j];
  }

  /** A row of the table: the distances from a prefix of `a` to every prefix of `b`. */
  predicate IsRow(row: seq<int>, a: seq<Rune>, i: nat, b: seq<Rune>, width: nat) {
    && i <= |a| && width <= |b| + 1 && width <= |row|
    && forall k :: 0 <= k < width ==> row[k] == Lev(a[..i], b[..k])
  }

  /** The inner loop: the next row from the previous one. */
  method NextRow(a: seq<Rune>, i: nat, b: seq<Rune>, previous: array<int>) returns (current: array<int>)
    requires i < |a| && previous.Length == |b| + 1 && IsRow(previous[..], a, i, b, |b| + 1)
    ensures fresh(current) && current.Length == |b| + 1 && IsRow(current[..], a, i + 1, b, |b| + 1)
  {
    current := new int[|b| + 1];
    current[0] := i + 1;
    for j := 0 to |b|
      invariant IsRow(current[..], a, i + 1, b, j + 1)
    {
      var cost := if a[i] != b[j] then 1 else 0;
      Cell(a, b, i, j);
      assert previous[..][j] == Lev(a[..i], b[..j]) && previous[..][j + 1] == Lev(a[..i], b[..j + 1]);
      assert current[..][j] == Lev(a[..i + 1], b[..j]);
      current[j + 1] := Min(current[j] + 1, Min(previous[j + 1] + 1, previous[j] + cost));
      assert forall k :: 0 <= k <= j ==> current[..][k] == Lev(a[..i + 1], b[..k]);
    }
  }

  /** The two rolling rows compute the length of a shortest script of single edits. */
  method Levenshtein(a: seq<Rune>, b: seq<Rune>) returns (distance: nat)
    ensures distance == Lev(a, b)
    ensures exists script :: Rewrites(script, a, b) && |script| == distance
    ensures forall script :: Rewrites(script, a, b) ==> distance <= |script|
  {
    if |a| == 0 {
      LevIsShortest(a, b);
      return |b|;
    }
    var previous := new int[|b| + 1];
    for j := 0 to |b| + 1
      invariant forall k :: 0 <= k < j ==> previous[k] == k
    {
      previous[j] := j;
    }
    assert a[..0] == [];
    for i := 0 to |a|
      invariant previous.Length == |b| + 1 && IsRow(previous[..], a, i, b, |b| + 1)
    {
      previous := NextRow(a, i, b, previous);
    }
    assert a[..|a|] == a && b[..|b|] == b;
    assert previous[..][|b|] == Lev(a, b);
    distance := previous[|b|];
    LevIsShortest(a, b);
  }
}
