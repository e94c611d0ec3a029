/**
 * The two string operations the toolbar commit applies to the target's `cssText`:
 * `replaceAll(" ", "")` and `replace(pattern, "")` with a string pattern, which
 * removes the first occurrence only.
 */
module StyleText {
  import opened Wrappers

  /** Every space removed; every other character kept, in order. */
  function StripSpaces(s: string): (r: string)
    ensures ' ' !in r
    ensures r == s <==> ' ' !in s
  {
    if s == [] then []
    else (if s[0] == ' ' then [] else [s[0]]) + StripSpaces(s[1..])
  }

  /** Stripping loses every space and nothing else: each other character keeps its count. */
  lemma {:induction false} StripSpacesKeepsOtherCharacters(s: string)
    ensures multiset(StripSpaces(s)) == multiset(s)[' ' := 0]
  {
    if s != [] {
      assert s == [s[0]] + s[1..];
      StripSpacesKeepsOtherCharacters(s[1..]);
    }
  }

  /** Stripping distributes over concatenation, so it keeps the order of what it keeps. */
  lemma {:induction false} StripSpacesConcat(a: string, b: string)
    ensures StripSpaces(a + b) == StripSpaces(a) + StripSpaces(b)
  {
    if a != [] {
      assert (a + b)[0] == a[0];
      assert (a + b)[1..] == a[1..] + b;
      StripSpacesConcat(a[1..], b);
    } else {
      assert a + b == b;
    }
  }

  /** A space-free head passes through stripping unchanged. */
  lemma StripAfterSpaceFree(x: string, y: string)
    requires ' ' !in x
    ensures StripSpaces(x + y) == x + StripSpaces(y)
  {
    StripSpacesConcat(x, y);
  }

  /** Removing the one space between two space-free texts joins them. */
  lemma StripOneSpace(x: string, y: string)
    requires ' ' !in x && ' ' !in y
    ensures StripSpaces(x + " " + y) == x + y
  {
    StripSpacesConcat(x + " ", y);
    StripSpacesConcat(x, " ");
  }

  /** `p` stands in `s` starting at index `i`. */
  predicate OccursAt(s: string, p: string, i: nat)
  {
    i + |p| <= |s| && s[i..i + |p|] == p
  }

  /** `s.indexOf(p, i)`: the first index from `i` on where `p` stands in `s`. */
  function FirstOccurrenceFrom(s: string, p: string, i: nat): (r: Option<nat>)
    requires i <= |s|
    decreases |s| - i
    ensures r.Some? ==> i <= r.value && OccursAt(s, p, r.value)
    ensures r.Some? ==> forall j: nat :: i <= j < r.value ==> !OccursAt(s, p, j)
    ensures r.None? ==> forall j: nat :: i <= j ==> !OccursAt(s, p, j)
  {
    if OccursAt(s, p, i) then Some(i)
    else if i == |s| then None
    else FirstOccurrenceFrom(s, p, i + 1)
  }

  /** `s.indexOf(p)`. */
  function FirstOccurrence(s: string, p: string): (r: Option<nat>)
    ensures r.Some? ==> OccursAt(s, p, r.value) && forall j: nat :: j < r.value ==> !OccursAt(s, p, j)
    ensures r.None? ==> forall j: nat :: !OccursAt(s, p, j)
  {
    FirstOccurrenceFrom(s, p, 0)
  }

  /** `s.replace(p, "")`: the first occurrence of `p` cut out; `s` itself when there is none. */
  function RemoveFirst(s: string, p: string): (r: string)
    ensures r == s || |r| == |s| - |p|
  {
    match FirstOccurrence(s, p)
    case None => s
    case Some(i) => s[..i] + s[i + |p|..]
  }

  /** What `replace` keeps holds only characters of the text it worked on. */
  lemma RemoveFirstKeepsOnlyOld(s: string, p: string)
    ensures multiset(RemoveFirst(s, p)) <= multiset(s)
  {
    match FirstOccurrence(s, p)
    case None =>
    case Some(i) =>
      assert s == s[..i] + s[i..i + |p|] + s[i + |p|..];
      assert multiset(s) == multiset(s[..i]) + multiset(s[i..i + |p|]) + multiset(s[i + |p|..]);
  }

  /** Removing from a space-free text leaves it space-free. */
  lemma RemoveFirstSpaceFree(s: string, p: string)
    requires ' ' !in s
    ensures ' ' !in RemoveFirst(s, p)
  {
    RemoveFirstKeepsOnlyOld(s, p);
    assert ' ' !in multiset(s);
  }

  /** With no occurrence, nothing is removed. */
  lemma RemoveFirstWithoutMatch(s: string, p: string)
    requires forall j: nat :: !OccursAt(s, p, j)
    ensures RemoveFirst(s, p) == s
  {
  }

  /** With a first occurrence at `i`, exactly that occurrence is cut out. */
  lemma RemoveFirstCutsFirst(s: string, p: string, i: nat)
    requires OccursAt(s, p, i)
    requires forall j: nat :: j < i ==> !OccursAt(s, p, j)
    ensures RemoveFirst(s, p) == s[..i] + s[i + |p|..]
  {
    var k := FirstOccurrence(s, p);
    assert k == Some(i);
  }

  /** The empty pattern is found at index 0, so removing it changes nothing. */
  lemma RemoveEmptyIsIdentity(s: string)
    ensures RemoveFirst(s, "") == s
  {
    assert OccursAt(s, "", 0);
  }

  /** Wherever a pattern holding a space stands, the text holds a space too. */
  lemma SpacedOccurrence(s: string, p: string, j: nat)
    requires ' ' in p
    ensures OccursAt(s, p, j) ==> ' ' in s
  {
    if OccursAt(s, p, j) {
      var k :| 0 <= k < |p| && p[k] == ' ';
      assert s[j..j + |p|][k] == s[j + k];
    }
  }

  /** So removing a spaced pattern from a space-free text leaves it as it was. */
  lemma SpacedPatternRemovesNothing(s: string, p: string)
    requires ' ' in p && ' ' !in s
    ensures RemoveFirst(s, p) == s
  {
    forall j: nat
      ensures !OccursAt(s, p, j)
    {
      SpacedOccurrence(s, p, j);
    }
    RemoveFirstWithoutMatch(s, p);
  }
}
