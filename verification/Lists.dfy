/** Lists of names as the services normalise them: trimmed, without blanks, each kept where it first stands. */
module Lists {
  import Text

  /** Positions of a sequence of the given length, each once and in order. */
  ghost predicate Ascending(idx: seq<int>, length: nat) {
    && (forall k | 0 <= k < |idx| :: 0 <= idx[k] < length)
    && (forall j, k | 0 <= j < k < |idx| :: idx[j] < idx[k])
  }

  /** Entries trimmed, blank ones dropped, duplicates kept. */
  function Cleaned(xs: seq<string>): seq<string> {
    if xs == [] then []
    else
      var (front, v) := (Cleaned(xs[..|xs| - 1]), Text.TrimSpace(xs[|xs| - 1]));
      if v == "" then front else front + [v]
  }

  lemma {:induction false} CleanedIsStable(xs: seq<string>)
    ensures Cleaned(Cleaned(xs)) == Cleaned(xs)
    ensures forall v | v in Cleaned(xs) :: v != "" && Text.TrimSpace(v) == v
  {
    if xs != [] {
      CleanedIsStable(xs[..|xs| - 1]);
      var (front, v) := (Cleaned(xs[..|xs| - 1]), Text.TrimSpace(xs[|xs| - 1]));
      Text.TrimSpaceIdempotent(xs[|xs| - 1]);
      if v != "" {
        assert (front + [v])[..|front|] == front;
      }
    }
  }

  /** Which entries cleaning keeps, and as what. */
  lemma {:induction false} CleanedInOrder(xs: seq<string>) returns (idx: seq<int>)
    ensures Ascending(idx, |xs|) && |idx| == |Cleaned(xs)|
    ensures forall k | 0 <= k < |idx| :: Cleaned(xs)[k] == Text.TrimSpace(xs[idx[k]])
    ensures forall i | 0 <= i < |xs| :: i in idx <==> Text.TrimSpace(xs[i]) != ""
  {
    if xs == [] {
      idx := [];
    } else {
      idx := CleanedInOrder(xs[..|xs| - 1]);
      assert Cleaned(xs) == Cleaned(xs[..|xs| - 1]) + if Text.TrimSpace(xs[|xs| - 1]) != "" then [Text.TrimSpace(xs[|xs| - 1])] else [];
      hide Cleaned, Text.TrimSpace;
      if Text.TrimSpace(xs[|xs| - 1]) != "" {
        idx := idx + [|xs| - 1];
      }
    }
  }

  /** The entries that are in a set, in order, with their repeats. */
  function Among(xs: seq<string>, names: set<string>): (r: seq<string>)
    ensures forall v :: v in r <==> v in xs && v in names
  {
    if xs == [] then []
    else
      assert xs == xs[..|xs| - 1] + [xs[|xs| - 1]];
      Among(xs[..|xs| - 1], names) + if xs[|xs| - 1] in names then [xs[|xs| - 1]] else []
  }

  /** Which entries are kept: all of the set and no other, each where it stood. */
  lemma {:induction false} AmongInOrder(xs: seq<string>, names: set<string>) returns (idx: seq<int>)
    ensures Ascending(idx, |xs|) && |idx| == |Among(xs, names)|
    ensures forall k | 0 <= k < |idx| :: Among(xs, names)[k] == xs[idx[k]]
    ensures forall i | 0 <= i < |xs| :: i in idx <==> xs[i] in names
  {
    if xs == [] {
      idx := [];
    } else {
      idx := AmongInOrder(xs[..|xs| - 1], names);
      if xs[|xs| - 1] in names {
        idx := idx + [|xs| - 1];
      }
    }
  }

  lemma AmongGrows(xs: seq<string>, i: nat, names: set<string>)
    requires i < |xs|
    ensures Among(xs[..i + 1], names) == Among(xs[..i], names) + if xs[i] in names then [xs[i]] else []
  {
    assert xs[..i + 1][..i] == xs[..i];
  }

  /** The first occurrence of every entry, in order. */
  function Distinct(xs: seq<string>): (d: seq<string>)
    ensures forall v :: v in d <==> v in xs
  {
    if xs == [] then []
    else
      var d := Distinct(xs[..|xs| - 1]);
      assert xs == xs[..|xs| - 1] + [xs[|xs| - 1]];
      if xs[|xs| - 1] in d then d else d + [xs[|xs| - 1]]
  }

  lemma DistinctGrows(xs: seq<string>, v: string)
    ensures Distinct(xs + [v]) == if v in Distinct(xs) then Distinct(xs) else Distinct(xs) + [v]
  {
    assert (xs + [v])[..|xs|] == xs;
  }

  function FirstAt(xs: seq<string>, v: string): (k: nat)
    requires v in xs
    ensures k < |xs| && xs[k] == v && v !in xs[..k]
  {
    var front := xs[..|xs| - 1];
    if v in front then
      assert xs[..FirstAt(front, v)] == front[..FirstAt(front, v)];
      FirstAt(front, v)
    else
      assert xs == front + [xs[|xs| - 1]];
      |xs| - 1
  }

  /** No entry twice, and entries stand in the order they first occurred. */
  lemma {:induction false} DistinctKeepsOrder(xs: seq<string>)
    ensures forall i, j | 0 <= i < j < |Distinct(xs)| ::
              && Distinct(xs)[i] in xs && Distinct(xs)[j] in xs
              && FirstAt(xs, Distinct(xs)[i]) < FirstAt(xs, Distinct(xs)[j])
  {
    if xs != [] {
      var front := xs[..|xs| - 1];
      DistinctKeepsOrder(front);
      var d := Distinct(front);
      forall i, j | 0 <= i < j < |Distinct(xs)|
        ensures && Distinct(xs)[i] in xs && Distinct(xs)[j] in xs
                && FirstAt(xs, Distinct(xs)[i]) < FirstAt(xs, Distinct(xs)[j])
      {
        assert d[i] in d && Distinct(xs)[i] == d[i] && FirstAt(xs, d[i]) == FirstAt(front, d[i]);
        assert Distinct(xs)[j] in Distinct(xs);
        if j < |d| {
          assert d[j] in d && Distinct(xs)[j] == d[j];
        }
      }
    }
  }

  ghost predicate NoRepeats(xs: seq<string>) {
    forall i, j | 0 <= i < j < |xs| :: xs[i] != xs[j]
  }

  lemma DistinctHasNoRepeats(xs: seq<string>)
    ensures NoRepeats(Distinct(xs))
  {
    DistinctKeepsOrder(xs);
  }
}
