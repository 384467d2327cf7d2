/**
 * The category label both category views render: `category.replace(/-/g, ' ')`
 * (src/pages/CategoryListForm.tsx and src/pages/CategoryList.tsx).
 */
module CategoryLabel {

  /** Every `-` becomes a space; every other character stays where it is. */
  function FormatLabel(s: string): (r: string)
    ensures |r| == |s|
    ensures forall i :: 0 <= i < |s| ==> r[i] == (if s[i] == '-' then ' ' else s[i])
  {
    if s == [] then [] else [if s[0] == '-' then ' ' else s[0]] + FormatLabel(s[1..])
  }

  /** A formatted label contains no hyphen. */
  lemma LabelHasNoHyphen(s: string)
    ensures '-' !in FormatLabel(s)
  {
  }

  /** A label without hyphens is shown as it is, and only such a label is. */
  lemma LabelUnchangedIffNoHyphen(s: string)
    ensures FormatLabel(s) == s <==> '-' !in s
  {
    if '-' in s {
      var i :| 0 <= i < |s| && s[i] == '-';
      assert FormatLabel(s)[i] == ' ';
    }
  }

  /** Formatting a formatted label again changes nothing. */
  lemma FormatLabelIdempotent(s: string)
    ensures FormatLabel(FormatLabel(s)) == FormatLabel(s)
  {
    LabelHasNoHyphen(s);
    LabelUnchangedIffNoHyphen(FormatLabel(s));
  }
}
