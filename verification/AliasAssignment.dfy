/** Aliases of the upstream artifacts a stage sees. `preferred` holds each record's safe preferred alias. */
module AliasAssignment {

  function Digit(n: nat): char
    requires n < 10
  {
    ['0', '1', '2', '3', '4', '5', '6', '7', '8', '9'][n]
  }

  function Decimal(n: nat): (s: string)
    ensures |s| > 0
  {
    if n < 10 then [Digit(n)] else Decimal(n / 10) + [Digit(n % 10)]
  }

  function Suffixed(alias: string, n: nat): string {
    alias + "_" + Decimal(n)
  }

  /** The number that a string of digits stands for. */
  function Value(s: string): int {
    if s == "" then 0 else 10 * Value(s[..|s| - 1]) + (s[|s| - 1] as int - '0' as int)
  }

  /** A suffix is its number in decimal digits, without leading zeros. */
  lemma {:induction false} DecimalReadsBack(n: nat)
    ensures Value(Decimal(n)) == n
    ensures forall i :: 0 <= i < |Decimal(n)| ==> '0' <= Decimal(n)[i] <= '9'
    ensures n > 0 ==> Decimal(n)[0] != '0'
  {
    if n < 10 {
      assert Decimal(n)[..0] == "";
    } else {
      DecimalReadsBack(n / 10);
      assert Decimal(n)[..|Decimal(n)| - 1] == Decimal(n / 10);
    }
  }

  lemma DecimalInjective(a: nat, b: nat)
    requires Decimal(a) == Decimal(b)
    ensures a == b
  {
    DecimalReadsBack(a);
    DecimalReadsBack(b);
  }

  lemma SuffixInjective(alias: string, a: nat, b: nat)
    requires Suffixed(alias, a) == Suffixed(alias, b)
    ensures a == b
  {
    assert Suffixed(alias, a)[|alias| + 1..] == Decimal(a);
    assert Suffixed(alias, b)[|alias| + 1..] == Decimal(b);
    DecimalInjective(a, b);
  }

  /** The smallest suffix from 2 on that is free. */
  predicate FirstFree(used: set<string>, alias: string, n: nat) {
    n >= 2 && Suffixed(alias, n) !in used && forall k :: 2 <= k < n ==> Suffixed(alias, k) in used
  }

  /** What `add` calls its record. */
  ghost predicate Named(used: set<string>, preferred: string, alias: string) {
    if preferred !in used then alias == preferred
    else exists n :: FirstFree(used, preferred, n) && alias == Suffixed(preferred, n)
  }

  ghost function Range(alias: string, n: nat): (s: set<string>)
    requires n >= 2
    ensures forall x :: x in s <==> exists k :: 2 <= k < n && x == Suffixed(alias, k)
  {
    set k | 2 <= k < n :: Suffixed(alias, k)
  }

  lemma {:induction false} RangeSize(alias: string, n: nat)
    requires n >= 2
    ensures |Range(alias, n)| == n - 2
  {
    if n == 2 {
      assert Range(alias, 2) == {};
    } else {
      RangeSize(alias, n - 1);
      forall k | 2 <= k < n - 1 ensures Suffixed(alias, k) != Suffixed(alias, n - 1) {
        if Suffixed(alias, k) == Suffixed(alias, n - 1) { SuffixInjective(alias, k, n - 1); }
      }
      assert Range(alias, n) == Range(alias, n - 1) + {Suffixed(alias, n - 1)};
    }
  }

  lemma {:induction false} SubsetSize(a: set<string>, b: set<string>)
    requires a <= b
    ensures |a| <= |b|
  {
    if a != {} {
      var x :| x in a;
      SubsetSize(a - {x}, b - {x});
    }
  }

  /** The suffix loop ends because the used aliases are finitely many and the suffixed ones all differ. */
  method FreeAlias(used: set<string>, preferred: string) returns (alias: string)
    ensures Named(used, preferred, alias) && alias !in used
  {
    if preferred !in used { return preferred; }
    var n := 2;
    RangeSize(preferred, 2);
    while Suffixed(preferred, n) in used
      invariant n >= 2 && Range(preferred, n) <= used
      invariant n - 2 <= |used|
      decreases |used| + 2 - n
    {
      n := n + 1;
      RangeSize(preferred, n);
      SubsetSize(Range(preferred, n), used);
    }
    forall k | 2 <= k < n ensures Suffixed(preferred, k) in used {
      assert Suffixed(preferred, k) in Range(preferred, n);
    }
    assert FirstFree(used, preferred, n);
    alias := Suffixed(preferred, n);
  }

  function Elements(aliases: seq<string>): set<string> {
    set i | 0 <= i < |aliases| :: aliases[i]
  }

  /** The aliases are given out in order, each free of the earlier ones. */
  ghost predicate Assigned(preferred: seq<string>, aliases: seq<string>) {
    && |aliases| == |preferred|
    && forall i :: 0 <= i < |aliases| ==>
         aliases[i] !in Elements(aliases[..i]) && Named(Elements(aliases[..i]), preferred[i], aliases[i])
  }

  method AssignAliases(preferred: seq<string>) returns (aliases: seq<string>, byAlias: map<string, nat>)
    ensures Assigned(preferred, aliases)
    ensures byAlias.Keys == Elements(aliases) && |byAlias| == |preferred|
    ensures forall i :: 0 <= i < |aliases| ==> byAlias[aliases[i]] == i
  {
    aliases, byAlias := [], map[];
    var used: set<string> := {};
    for i := 0 to |preferred|
      invariant Assigned(preferred[..i], aliases)
      invariant used == byAlias.Keys == Elements(aliases) && |byAlias| == i
      invariant forall j :: 0 <= j < i ==> byAlias[aliases[j]] == j
    {
      var alias := FreeAlias(used, preferred[i]);
      ghost var longer := aliases + [alias];
      assert Assigned(preferred[..i + 1], longer) by {
        assert preferred[..i + 1][..i] == preferred[..i];
        ExtendedAssignment(preferred[..i + 1], aliases, alias);
      }
      ElementsExtended(aliases, alias);
      MemberOf(aliases, alias);
      used := used + {alias};
      byAlias := byAlias[alias := i];
      aliases := aliases + [alias];
      assert aliases == longer;
    }
    assert preferred[..|preferred|] == preferred;
  }

  lemma MemberOf(aliases: seq<string>, alias: string)
    requires alias !in Elements(aliases)
    ensures forall j :: 0 <= j < |aliases| ==> aliases[j] != alias
  {
    forall j | 0 <= j < |aliases| ensures aliases[j] != alias {
      assert aliases[j] in Elements(aliases);
    }
  }

  lemma ElementsExtended(aliases: seq<string>, alias: string)
    ensures Elements(aliases + [alias]) == Elements(aliases) + {alias}
  {
    var longer := aliases + [alias];
    forall x | x in Elements(aliases) + {alias} ensures x in Elements(longer) {
      if x == alias {
        assert longer[|aliases|] == alias;
      } else {
        var j :| 0 <= j < |aliases| && aliases[j] == x;
        assert longer[j] == x;
      }
    }
    forall x | x in Elements(longer) ensures x in Elements(aliases) + {alias} {
      var j :| 0 <= j < |longer| && longer[j] == x;
      assert j < |aliases| ==> aliases[j] == x;
    }
  }

  lemma ExtendedAssignment(preferred: seq<string>, aliases: seq<string>, alias: string)
    requires |preferred| == |aliases| + 1 && Assigned(preferred[..|aliases|], aliases)
    requires alias !in Elements(aliases) && Named(Elements(aliases), preferred[|aliases|], alias)
    ensures Assigned(preferred, aliases + [alias])
  {
    var longer := aliases + [alias];
    forall i | 0 <= i < |longer|
      ensures longer[i] !in Elements(longer[..i]) && Named(Elements(longer[..i]), preferred[i], longer[i])
    {
      if i < |aliases| {
        assert longer[..i] == aliases[..i];
        assert preferred[..|aliases|][i] == preferred[i];
      } else {
        assert longer[..i] == aliases;
      }
    }
  }

  /** Records and aliases correspond one to one. */
  lemma AliasesDistinct(preferred: seq<string>, aliases: seq<string>, i: nat, j: nat)
    requires Assigned(preferred, aliases) && i < j < |aliases|
    ensures aliases[i] != aliases[j]
  {
    assert aliases[..j][i] == aliases[i];
    assert aliases[i] in Elements(aliases[..j]);
  }

  /** A record keeps its preferred alias exactly if no earlier record was given it, under its own
      preference or as somebody's suffixed alias. */
  lemma FirstClaimantKeeps(preferred: seq<string>, aliases: seq<string>, i: nat)
    requires Assigned(preferred, aliases) && i < |aliases|
    ensures aliases[i] == preferred[i] <==> forall j :: 0 <= j < i ==> aliases[j] != preferred[i]
  {
    var used := Elements(aliases[..i]);
    assert preferred[i] in used <==> exists j :: 0 <= j < i && aliases[..i][j] == preferred[i];
    if preferred[i] in used {
      var n :| FirstFree(used, preferred[i], n) && aliases[i] == Suffixed(preferred[i], n);
      assert |aliases[i]| > |preferred[i]|;
      var j :| 0 <= j < i && aliases[..i][j] == preferred[i];
      assert aliases[j] == preferred[i];
    }
  }

  /** The names of the first `i` records that all prefer one alias. */
  predicate Counted(names: seq<string>, alias: string) {
    forall j :: 0 <= j < |names| ==> names[j] == if j == 0 then alias else Suffixed(alias, j + 1)
  }

  lemma CountedUpTo(names: seq<string>, alias: string, n: nat)
    requires names != [] && Counted(names, alias)
    ensures FirstFree(Elements(names), alias, n) <==> n == |names| + 1
  {
    var used := Elements(names);
    forall k: nat | 2 <= k <= |names| ensures Suffixed(alias, k) in used {
      assert names[k - 1] in used;
    }
    if Suffixed(alias, |names| + 1) in used {
      var j :| 0 <= j < |names| && names[j] == Suffixed(alias, |names| + 1);
      assert |Suffixed(alias, |names| + 1)| > |alias|;
      SuffixInjective(alias, j + 1, |names| + 1);
    }
  }

  /** Records that all prefer one alias are called by it, by it with _2, with _3, and so on. */
  lemma {:induction false} SameAliasCounts(preferred: seq<string>, aliases: seq<string>, alias: string, i: nat)
    requires Assigned(preferred, aliases) && forall j :: 0 <= j < |preferred| ==> preferred[j] == alias
    requires i < |aliases|
    ensures aliases[i] == if i == 0 then alias else alias + "_" + Decimal(i + 1)
    decreases i
  {
    var names := aliases[..i];
    forall j | 0 <= j < i ensures names[j] == if j == 0 then alias else Suffixed(alias, j + 1) {
      SameAliasCounts(preferred, aliases, alias, j);
    }
    assert Named(Elements(names), alias, aliases[i]);
    if i > 0 {
      assert names[0] in Elements(names);
      var n: nat :| FirstFree(Elements(names), alias, n) && aliases[i] == Suffixed(alias, n);
      CountedUpTo(names, alias, n);
    }
  }

  /** The assignment is a function of the preferences. */
  lemma {:induction false} AssignmentUnique(preferred: seq<string>, a: seq<string>, b: seq<string>)
    requires Assigned(preferred, a) && Assigned(preferred, b)
    ensures a == b
    decreases |preferred|
  {
    if preferred != [] {
      var n := |preferred| - 1;
      ShorterAssignment(preferred, a);
      ShorterAssignment(preferred, b);
      AssignmentUnique(preferred[..n], a[..n], b[..n]);
      var used := Elements(a[..n]);
      if preferred[n] in used {
        var x :| FirstFree(used, preferred[n], x) && a[n] == Suffixed(preferred[n], x);
        var y :| FirstFree(used, preferred[n], y) && b[n] == Suffixed(preferred[n], y);
        assert x == y;
      }
      assert a == a[..n] + [a[n]] && b == b[..n] + [b[n]];
    }
  }

  lemma ShorterAssignment(preferred: seq<string>, a: seq<string>)
    requires preferred != [] && Assigned(preferred, a)
    ensures Assigned(preferred[..|preferred| - 1], a[..|a| - 1])
  {
    var n := |preferred| - 1;
    forall i | 0 <= i < n
      ensures a[..n][i] !in Elements(a[..n][..i]) && Named(Elements(a[..n][..i]), preferred[..n][i], a[..n][i])
    {
      assert a[..n][..i] == a[..i];
    }
  }
}
