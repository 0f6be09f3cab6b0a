/** `slugify`: anchors for headings, made unique by a numeric suffix found by search. */
module Slug {
  import opened Text

  predicate IsSlugChar(c: char) { 'a' <= c <= 'z' || '0' <= c <= '9' }

  predicate DashesApart(s: string) {
    && (forall i :: 0 <= i < |s| ==> IsSlugChar(s[i]) || s[i] == '-')
    && (forall i :: 0 < i < |s| && s[i - 1] == '-' ==> s[i] != '-')
  }

  /** The language of `[a-z0-9]+(-[a-z0-9]+)*`. */
  predicate IsSlug(s: string) {
    && s != "" && s[0] != '-' && s[|s| - 1] != '-'
    && DashesApart(s)
  }

  /** Length of the leading run outside `[a-z0-9]`. */
  function OtherRun(s: string): (n: nat)
    ensures n <= |s| && (n < |s| ==> IsSlugChar(s[n]))
    ensures s != "" && !IsSlugChar(s[0]) ==> n > 0
  {
    if s == "" || IsSlugChar(s[0]) then 0 else 1 + OtherRun(s[1..])
  }

  /** Every run outside `[a-z0-9]` becomes one dash. */
  function Dashed(s: string): (r: string)
    ensures DashesApart(r)
    ensures s != "" && IsSlugChar(s[0]) ==> r != "" && r[0] == s[0]
    decreases |s|
  {
    if s == "" then "" else
    if IsSlugChar(s[0]) then [s[0]] + Dashed(s[1..])
    else "-" + Dashed(s[OtherRun(s)..])
  }

  lemma TrimKeepsDashesApart(s: string, p: char -> bool)
    requires DashesApart(s)
    ensures DashesApart(Trim(s, p))
  {}

  function SlugBase(ascii: string): (r: string)
    ensures IsSlug(r)
  {
    var dash := (c: char) => c == '-';
    TrimKeepsDashesApart(Dashed(ascii), dash);
    var r := Trim(Dashed(ascii), dash);
    if r == "" then "section" else r
  }

  /** The base with a number after it, as `f"{original}-{counter}"` writes it. */
  function Candidate(base: string, n: nat): string { base + "-" + Decimal(n) }

  lemma CandidateInjective(base: string, m: nat, n: nat)
    requires Candidate(base, m) == Candidate(base, n)
    ensures m == n
  {
    assert Candidate(base, m)[|base| + 1..] == Decimal(m);
    assert Candidate(base, n)[|base| + 1..] == Decimal(n);
    DecimalInjective(m, n);
  }

  lemma CandidateIsSlug(base: string, n: nat)
    requires IsSlug(base)
    ensures IsSlug(Candidate(base, n))
  {
    var d := Decimal(n);
    assert forall i :: 0 <= i < |d| ==> IsDigit(d[i]) by {
      forall i | 0 <= i < |d| ensures IsDigit(d[i]) { assert d[i] in d; }
    }
  }

  // ------------------------------------------------------------------ the search

  ghost predicate IsLater(base: string, k: nat, s: string) {
    exists j: nat :: j >= k && s == Candidate(base, j)
  }

  /** The used names the search can still meet: what shrinks with every probe. */
  ghost function Later(base: string, used: set<string>, k: nat): set<string> {
    set s | s in used && IsLater(base, k, s)
  }

  lemma LaterShrinks(base: string, used: set<string>, k: nat)
    requires Candidate(base, k) in used
    ensures Later(base, used, k + 1) < Later(base, used, k)
  {
    forall s | s in Later(base, used, k + 1) ensures s in Later(base, used, k) {
      var j: nat :| j >= k + 1 && s == Candidate(base, j);
      assert IsLater(base, k, s);
    }
    assert IsLater(base, k, Candidate(base, k));
    assert Candidate(base, k) in Later(base, used, k);
    if Candidate(base, k) in Later(base, used, k + 1) {
      var j: nat :| j >= k + 1 && Candidate(base, k) == Candidate(base, j);
      CandidateInjective(base, k, j);
    }
  }

  /** The least unused suffix from `k` on. */
  function FreeSuffix(base: string, used: set<string>, k: nat): (n: nat)
    ensures n >= k && Candidate(base, n) !in used
    ensures forall j :: k <= j < n ==> Candidate(base, j) in used
    decreases Later(base, used, k)
  {
    if Candidate(base, k) in used then
      LaterShrinks(base, used, k);
      FreeSuffix(base, used, k + 1)
    else k
  }

  function SlugFor(base: string, used: set<string>): (slug: string)
    ensures slug !in used
  {
    if base in used then Candidate(base, FreeSuffix(base, used, 2)) else base
  }

  function Probed(base: string, k: nat): set<string> {
    if k <= 2 then {base} else Probed(base, k - 1) + {Candidate(base, k - 1)}
  }

  lemma {:induction false} ProbedCount(base: string, k: nat)
    requires k >= 2
    ensures |Probed(base, k)| == k - 1
    ensures forall s :: s in Probed(base, k) ==> s == base || exists j :: 2 <= j < k && s == Candidate(base, j)
  {
    if k > 2 {
      ProbedCount(base, k - 1);
      var c := Candidate(base, k - 1);
      assert |c| > |base|;
      if c in Probed(base, k - 1) {
        var j :| 2 <= j < k - 1 && c == Candidate(base, j);
        CandidateInjective(base, k - 1, j);
      }
    }
  }

  lemma SubsetCount(a: set<string>, b: set<string>)
    requires a <= b
    ensures |a| <= |b|
  {
    assert b == a + (b - a);
  }

  /** Pigeonhole: `used` cannot block more suffixes than it has members. */
  lemma SuffixBounded(base: string, used: set<string>)
    requires base in used
    ensures FreeSuffix(base, used, 2) <= |used| + 1
  {
    var n := FreeSuffix(base, used, 2);
    ProbedCount(base, n);
    assert Probed(base, n) <= used;
    SubsetCount(Probed(base, n), used);
  }

  /** The least unused suffix is where the first gap is. */
  lemma {:induction false} LeastIs(base: string, used: set<string>, k: nat, n: nat)
    requires 2 <= k <= n && Candidate(base, n) !in used
    requires forall j :: k <= j < n ==> Candidate(base, j) in used
    ensures FreeSuffix(base, used, k) == n
    decreases n - k
  {
    hide Candidate;
    if k < n {
      LeastIs(base, used, k + 1, n);
    }
  }

  /** Where the search stops. */
  lemma SearchEnds(base: string, used: set<string>, counter: nat)
    requires counter >= 2 && (counter > 2 ==> base in used)
    requires forall j :: 2 <= j < counter - 1 ==> Candidate(base, j) in used
    requires (if counter == 2 then base else Candidate(base, counter - 1)) !in used
    ensures SlugFor(base, used) == if counter == 2 then base else Candidate(base, counter - 1)
    ensures counter - 1 <= |used| + 1
  {
    hide Candidate;
    if base in used {
      SuffixBounded(base, used);
      LeastIs(base, used, 2, counter - 1);
    }
  }

  /** The set of names handed out so far, which `slugify` reads and extends. */
  class Registry {
    var used: set<string>

    constructor ()
      ensures used == {}
    {
      used := {};
    }

    /** Returns the new name; `probes` counts the membership tests of the loop. */
    method Slugify(u: Unicode, text: string) returns (slug: string, ghost probes: nat)
      modifies this
      ensures slug == SlugFor(SlugBase(u.fold(text)), old(used))
      ensures used == old(used) + {slug}
      ensures slug !in old(used) && IsSlug(slug)
      ensures probes <= |old(used)| + 1
    {
      hide *;
      var original := SlugBase(u.fold(text));
      slug := original;
      var counter := 2;
      probes := 1;
      while slug in used
        invariant used == old(used)
        invariant counter >= 2 && probes == counter - 1
        invariant slug == if counter == 2 then original else Candidate(original, counter - 1)
        invariant counter > 2 ==> original in used
        invariant forall j :: 2 <= j < counter - 1 ==> Candidate(original, j) in used
        invariant IsSlug(slug)
        decreases counter == 2, Later(original, used, counter - 1)
      {
        if counter > 2 {
          LaterShrinks(original, used, counter - 1);
        }
        slug := Candidate(original, counter);
        CandidateIsSlug(original, counter);
        counter := counter + 1;
        probes := probes + 1;
      }
      SearchEnds(original, used, counter);
      used := used + {slug};
    }
  }

  // ------------------------------------------------------- a sequence of headings

  function Members(s: seq<string>): set<string> { set x | x in s }

  /** The slugs of a sequence of titles, in order. */
  function Slugs(u: Unicode, titles: seq<string>): (r: seq<string>)
    ensures |r| == |titles|
  {
    if titles == [] then [] else
      var n := |titles| - 1;
      var before := Slugs(u, titles[..n]);
      before + [SlugFor(SlugBase(u.fold(titles[n])), Members(before))]
  }

  ghost predicate Distinct(s: seq<string>) {
    forall i, j :: 0 <= i < j < |s| ==> s[i] != s[j]
  }

  /** No title sequence, whatever its repetitions, makes `slugify` repeat itself. */
  lemma {:induction false} SlugsDistinct(u: Unicode, titles: seq<string>)
    ensures Distinct(Slugs(u, titles))
    ensures forall k :: 0 <= k < |titles| ==> IsSlug(Slugs(u, titles)[k])
  {
    hide IsSlug, SlugBase, FreeSuffix;
    if titles != [] {
      var n := |titles| - 1;
      SlugsDistinct(u, titles[..n]);
      var base := SlugBase(u.fold(titles[n]));
      var before := Slugs(u, titles[..n]);
      if base in Members(before) {
        CandidateIsSlug(base, FreeSuffix(base, Members(before), 2));
      }
      assert forall i :: 0 <= i < n ==> before[i] in Members(before);
    }
  }
}
