/**
 * The toolbar command dispatcher of `ResizePlugin`: which clicks and input changes
 * commit a style fragment, and what successive commits make of the target's `cssText`.
 */
module Toolbar {
  import opened Wrappers
  import opened StyleText
  import opened NumberText
  import opened StyleCommit

  /**
   * When the group's previous fragment is not found in the stripped text, the commit
   * only appends. In particular a group never committed before searches for the text
   * `undefined`, and its first commit appends unless that text occurs.
   */
  lemma CommitWithoutMatchAppends(css: string, previous: Fragment, styles: Fragment)
    requires forall j: nat :: !OccursAt(StripSpaces(css), ToText(previous), j)
    ensures CommitText(css, previous, styles) == StripSpaces(css) + (";" + ToText(styles))
  {
    RemoveFirstWithoutMatch(StripSpaces(css), ToText(previous));
  }

  /** A group never committed before searches for the literal text `undefined`. */
  lemma FreshGroupSearchesUndefined(memo: map<string, Fragment>, group: string, css: string, styles: Fragment)
    requires group !in memo
    ensures CommitText(css, Remembered(memo, group), styles)
         == RemoveFirst(StripSpaces(css), "undefined") + (";" + ToText(styles))
  {
  }

  /**
   * When the group's previous fragment first occurs at `i` in the stripped text,
   * exactly that occurrence is cut out and the rest is kept in order.
   */
  lemma CommitCutsFirstMatch(css: string, previous: Fragment, styles: Fragment, i: nat)
    requires OccursAt(StripSpaces(css), ToText(previous), i)
    requires forall j: nat :: j < i ==> !OccursAt(StripSpaces(css), ToText(previous), j)
    ensures var s := StripSpaces(css);
      CommitText(css, previous, styles) == s[..i] + s[i + |ToText(previous)|..] + (";" + ToText(styles))
  {
    var s := StripSpaces(css);
    var p := ToText(previous);
    RemoveFirstCutsFirst(s, p, i);
    assert CommitText(css, previous, styles) == RemoveFirst(s, p) + (";" + ToText(styles));
  }

  /**
   * Two commits in a row to one group with a space-free fragment replace it: the
   * second commit cuts out the fragment the first appended and appends its own,
   * provided the fragment did not already stand earlier in the text.
   */
  lemma {:induction false} ConsecutiveCommitsReplace(css: string, previous: Fragment, first: string, second: Fragment)
    requires ' ' !in first
    requires var c1 := CommitText(css, previous, Defined(first));
      forall j: nat :: j < |c1| - |first| ==> !OccursAt(c1, first, j)
    ensures var c1 := CommitText(css, previous, Defined(first));
      CommitText(c1, Defined(first), second) == c1[..|c1| - |first|] + (";" + ToText(second))
  {
    var c1 := CommitText(css, previous, Defined(first));
    CommitSpaceFree(css, previous, Defined(first));
    CommitEndsWithFragment(css, previous, Defined(first));
    var i := |c1| - |first|;
    assert c1[i + |first|..] == [];
    RemoveFirstCutsFirst(c1, first, i);
    assert RemoveFirst(c1, first) == c1[..i];
  }

  /**
   * A commit to a space-free style text whose group fragment does not occur in it keeps
   * the whole text and appends: whatever other groups committed before stays.
   */
  lemma OtherGroupCommitAppends(c: string, previous: Fragment, styles: string)
    requires ' ' !in c
    requires forall j: nat :: !OccursAt(c, ToText(previous), j)
    ensures CommitText(c, previous, Defined(styles)) == c + (";" + styles)
  {
    CommitWithoutMatchAppends(c, previous, Defined(styles));
  }

  /**
   * A commit to another group in between does not stop a group's next commit from
   * replacing its fragment. Group A commits `first`; group B, whose remembered fragment
   * does not occur in the text, commits `other`, and both fragments stand; A's next
   * commit then cuts `first` and keeps `other`, provided `first` does not stand earlier.
   */
  lemma InterleavedCommitsReplace(css: string, previous: Fragment, first: string,
                                  otherPrevious: Fragment, other: string, second: Fragment)
    requires ' ' !in first && ' ' !in other
    requires var c1 := CommitText(css, previous, Defined(first));
      forall j: nat :: !OccursAt(c1, ToText(otherPrevious), j)
    requires var c1 := CommitText(css, previous, Defined(first));
      forall j: nat :: j < |c1| - |first| ==> !OccursAt(c1 + (";" + other), first, j)
    ensures var c1 := CommitText(css, previous, Defined(first));
      var c2 := CommitText(c1, otherPrevious, Defined(other));
      c2 == c1 + (";" + other) &&
      CommitText(c2, Defined(first), second) == c1[..|c1| - |first|] + (";" + other) + (";" + ToText(second))
  {
    var c1 := CommitText(css, previous, Defined(first));
    CommitSpaceFree(css, previous, Defined(first));
    OtherGroupCommitAppends(c1, otherPrevious, other);
    CommitSpaceFree(c1, otherPrevious, Defined(other));
    CommitEndsWithFragment(css, previous, Defined(first));
    AppendedFragmentCut(c1, first, other, second);
  }

  /** The cut in `InterleavedCommitsReplace`: `first` ends `c1`, and `;other` follows it. */
  lemma AppendedFragmentCut(c1: string, first: string, other: string, second: Fragment)
    requires ' ' !in c1 + (";" + other)
    requires |first| <= |c1|
    requires OccursAt(c1, first, |c1| - |first|)
    requires forall j: nat :: j < |c1| - |first| ==> !OccursAt(c1 + (";" + other), first, j)
    ensures CommitText(c1 + (";" + other), Defined(first), second)
         == c1[..|c1| - |first|] + (";" + other) + (";" + ToText(second))
  {
    var c2 := c1 + (";" + other);
    var i := |c1| - |first|;
    assert c2[i..i + |first|] == c1[i..i + |first|];
    CommitCutsFirstMatch(c2, Defined(first), second, i);
    assert c2[..i] == c1[..i];
    assert c2[i + |first|..] == ";" + other;
  }

  /** A commit of a space-free fragment leaves a space-free style text. */
  lemma CommitSpaceFree(css: string, previous: Fragment, styles: Fragment)
    requires ' ' !in ToText(styles)
    ensures ' ' !in CommitText(css, previous, styles)
  {
    RemoveFirstSpaceFree(StripSpaces(css), ToText(previous));
  }

  /** Click and input targets, reduced to what the handlers read of them. */
  datatype ClickTarget = ClickTarget(classes: set<string>, dataType: Option<string>, dataStyles: Option<string>)
  datatype InputTarget = InputTarget(dataType: Option<string>, value: string)

  /** A commit to run: the group (`data-type`) and the fragment to apply. */
  datatype Command = Command(group: string, styles: Fragment)

  /** JavaScript truthiness of an optional string: present and non-empty. */
  predicate Truthy(v: Option<string>)
  {
    v.Some? && v.value != ""
  }

  /** `toolbarClick`: a `btn` with a `data-type` commits its `data-styles` (possibly undefined). */
  function ClickCommand(t: ClickTarget): (r: Option<Command>)
    ensures r.Some? <==> Truthy(t.dataType) && "btn" in t.classes
    ensures r.Some? ==> r.value.group == t.dataType.value
    ensures r.Some? ==> (r.value.styles.Defined? <==> t.dataStyles.Some?)
    ensures r.Some? && t.dataStyles.Some? ==> r.value.styles.text == t.dataStyles.value
  {
    if Truthy(t.dataType) && "btn" in t.classes then
      Some(Command(t.dataType.value, if t.dataStyles.Some? then Defined(t.dataStyles.value) else Undefined))
    else None
  }

  /**
   * The fragment the percentage field commits for the number `n`: `width: `, the
   * number's text, `%;`. The text between reads back as `n`.
   */
  function WidthPercent(n: int): (f: string)
    ensures |f| >= 9 && f[..7] == "width: " && f[|f| - 2..] == "%;"
    ensures ToNumber(f[7..|f| - 2]) == Some(n) && Canonical(f[7..|f| - 2])
  {
    var f := "width: " + IntToDecimal(n) + "%;";
    assert f[7..|f| - 2] == IntToDecimal(n);
    DecimalRoundTrip(n);
    f
  }

  /**
   * `toolbarInputChange`: a field with a `data-type` whose text converts to a non-zero
   * number commits `width: N%;`, N being that number written back as text.
   */
  function InputCommand(t: InputTarget): (r: Option<Command>)
    ensures r.Some? <==> Truthy(t.dataType) && DecimalLiteral(t.value) &&
                         exists i :: 0 <= i < |t.value| && '1' <= t.value[i] <= '9'
    ensures r.Some? ==> r.value.group == t.dataType.value && r.value.styles.Defined?
    ensures r.Some? ==> var f := r.value.styles.text;
      |f| >= 9 && f[..7] == "width: " && f[|f| - 2..] == "%;" &&
      ToNumber(f[7..|f| - 2]) == ToNumber(t.value) && Canonical(f[7..|f| - 2])
  {
    NumberTruthy(t.value);
    var n := ToNumber(t.value);
    if Truthy(t.dataType) && n.Some? && n.value != 0 then
      Some(Command(t.dataType.value, Defined(WidthPercent(n.value))))
    else None
  }

  /**
   * The field's text is normalised through a number: the fragment holds the canonical
   * spelling `m` of the field's value, whatever spelling the field had.
   */
  lemma InputFragmentIsCanonical(t: InputTarget, m: string)
    requires InputCommand(t).Some?
    requires Canonical(m) && ToNumber(m) == ToNumber(t.value)
    ensures InputCommand(t) == Some(Command(t.dataType.value, Defined("width: " + m + "%;")))
  {
    var c := InputCommand(t).value;
    var f := c.styles.text;
    CanonicalUnique(f[7..|f| - 2], m);
    assert f == f[..7] + f[7..|f| - 2] + f[|f| - 2..];
    assert c == Command(t.dataType.value, Defined(f));
  }

  /** `007` commits `width: 7%;`, not `width: 007%;`. */
  lemma LeadingZerosDropped()
    ensures InputCommand(InputTarget(Some("width"), "007")) == Some(Command("width", Defined("width: 7%;")))
  {
    var t := InputTarget(Some("width"), "007");
    assert "007"[..2] == "00" && "00"[..1] == "0" && "0"[..0] == "";
    assert ToNumber("007") == Some(7);
    assert '1' <= t.value[2] <= '9';
    InputFragmentIsCanonical(t, "7");
    assert "width: " + "7" + "%;" == "width: 7%;";
  }

  /** A `+` sign is dropped: `+5` commits `width: 5%;`. */
  lemma PlusSignDropped()
    ensures InputCommand(InputTarget(Some("width"), "+5")) == Some(Command("width", Defined("width: 5%;")))
  {
    var t := InputTarget(Some("width"), "+5");
    assert t.value[1..] == "5";
    assert '1' <= t.value[1] <= '9';
    InputFragmentIsCanonical(t, "5");
    assert "width: " + "5" + "%;" == "width: 5%;";
  }

  /** A padded negative is normalised: `-05` commits `width: -5%;`. */
  lemma NegativePaddingDropped()
    ensures InputCommand(InputTarget(Some("width"), "-05")) == Some(Command("width", Defined("width: -5%;")))
  {
    var t := InputTarget(Some("width"), "-05");
    assert t.value[1..] == "05" && "05"[..1] == "0" && "0"[..0] == "";
    assert ToNumber("-05") == Some(-5);
    assert '1' <= t.value[2] <= '9';
    assert "-5"[1..] == "5";
    InputFragmentIsCanonical(t, "-5");
    assert "width: " + "-5" + "%;" == "width: -5%;";
  }

  /** The percentage fragment holds a space (after the colon). */
  lemma WidthPercentHasSpace(n: int)
    ensures ' ' in WidthPercent(n)
  {
    assert WidthPercent(n)[6] == ' ';
  }

  /** `;width: N%;` is the space-free `;width:`, one space, and the space-free `N%;`. */
  lemma WidthPercentShape(n: int)
    ensures ";" + WidthPercent(n) == ";width:" + " " + (IntToDecimal(n) + "%;")
    ensures ' ' !in ";width:" && ' ' !in IntToDecimal(n) + "%;"
  {
    DecimalLiteralHasNoSpace(IntToDecimal(n));
    assert ' ' !in "%;";
  }

  /** Stripping `;width: N%;` gives `;width:N%;`. */
  lemma StripWidthPercent(n: int)
    ensures StripSpaces(";" + WidthPercent(n)) == ";width:" + IntToDecimal(n) + "%;"
  {
    WidthPercentShape(n);
    StripOneSpace(";width:", IntToDecimal(n) + "%;");
  }

  /**
   * A fragment committed from the percentage field is never removed by the group's
   * next commit: it is remembered with its space, while the text it is searched in
   * has just been stripped of spaces.
   */
  lemma InputFragmentNeverRemoved(css: string, previous: Fragment, n: int, next: Fragment)
    ensures var c1 := CommitText(css, previous, Defined(WidthPercent(n)));
      CommitText(c1, Defined(WidthPercent(n)), next) == StripSpaces(c1) + (";" + ToText(next))
  {
    var c1 := CommitText(css, previous, Defined(WidthPercent(n)));
    WidthPercentHasSpace(n);
    SpacedPatternRemovesNothing(StripSpaces(c1), WidthPercent(n));
  }

  /** What the percentage field committed stays in the style text, in its space-free form. */
  lemma InputFragmentStaysStripped(css: string, previous: Fragment, n: int)
    ensures var kept := StripSpaces(CommitText(css, previous, Defined(WidthPercent(n))));
      var g := ";width:" + IntToDecimal(n) + "%;";
      |kept| >= |g| && kept[|kept| - |g|..] == g
  {
    var head := RemoveFirst(StripSpaces(css), ToText(previous));
    var g := ";width:" + IntToDecimal(n) + "%;";
    RemoveFirstSpaceFree(StripSpaces(css), ToText(previous));
    StripAfterSpaceFree(head, ";" + WidthPercent(n));
    StripWidthPercent(n);
    assert StripSpaces(CommitText(css, previous, Defined(WidthPercent(n)))) == head + g;
    assert (head + g)[|head|..] == g;
  }
}
