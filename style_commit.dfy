/**
 * The commit routine `_setStylesForToolbar` applies to the target's `cssText`, and the
 * per-group fragment it remembers on the target as `_styles_<type>`.
 */
module StyleCommit {
  import opened StyleText

  /** A string or `undefined`: a `data-styles` value, or a remembered `_styles_<type>` value. */
  datatype Fragment = Undefined | Defined(text: string)

  /** String conversion, as in a template literal and in `replace`'s pattern argument. */
  function ToText(f: Fragment): string
  {
    match f
    case Undefined => "undefined"
    case Defined(t) => t
  }

  /** The `_styles_<group>` value remembered on the target; `undefined` when never set. */
  function Remembered(memo: map<string, Fragment>, group: string): (f: Fragment)
    ensures group in memo ==> f == memo[group]
    ensures group !in memo ==> ToText(f) == "undefined"
  {
    if group in memo then memo[group] else Undefined
  }

  /**
   * The new `cssText` of a commit: the old text without spaces and without the first
   * occurrence of the group's previous fragment, then `;` and the new fragment.
   */
  function CommitText(css: string, previous: Fragment, styles: Fragment): (r: string)
    ensures |r| > |ToText(styles)| && r[|r| - |ToText(styles)| - 1..] == ";" + ToText(styles)
  {
    RemoveFirst(StripSpaces(css), ToText(previous)) + (";" + ToText(styles))
  }

  /**
   * A commit's text is what was kept of the old text, then `;` and the applied
   * fragment; the kept part holds no space.
   */
  lemma CommitShape(css: string, previous: Fragment, styles: Fragment)
    ensures var r := CommitText(css, previous, styles);
      var k := |r| - |ToText(styles)| - 1;
      0 <= k && r[k..] == ";" + ToText(styles) && ' ' !in r[..k]
  {
    var kept := RemoveFirst(StripSpaces(css), ToText(previous));
    var r := kept + (";" + ToText(styles));
    assert r[..|kept|] == kept && r[|kept|..] == ";" + ToText(styles);
    RemoveFirstSpaceFree(StripSpaces(css), ToText(previous));
  }

  /** The kept part of a commit holds no character the old text did not hold. */
  lemma CommitKeepsOnlyOldCharacters(css: string, previous: Fragment, styles: Fragment)
    ensures var r := CommitText(css, previous, styles);
      multiset(r[..|r| - |ToText(styles)| - 1]) <= multiset(css)
  {
    var kept := RemoveFirst(StripSpaces(css), ToText(previous));
    var r := kept + (";" + ToText(styles));
    assert r[..|kept|] == kept;
    StripSpacesKeepsOtherCharacters(css);
    RemoveFirstKeepsOnlyOld(StripSpaces(css), ToText(previous));
  }

  /** A commit's text ends with the fragment it applied. */
  lemma CommitEndsWithFragment(css: string, previous: Fragment, styles: Fragment)
    ensures var r := CommitText(css, previous, styles);
      OccursAt(r, ToText(styles), |r| - |ToText(styles)|)
  {
    var r := CommitText(css, previous, styles);
    var t := ToText(styles);
    assert r[|r| - |t|..] == r[|r| - |t| - 1..][1..];
  }
}
