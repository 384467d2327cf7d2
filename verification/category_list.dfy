/**
 * The category filter of src/pages/CategoryList.tsx: an "All" button followed by one
 * button per category, the one matching `selectedCategory` highlighted.
 */
module CategoryList {
  import opened Wrappers
  import opened CategoryLabel

  /** A rendered button: its text, the value its click passes to `onSelectCategory`
      (`None` is `null`), and whether it carries the highlighted style. */
  datatype Button = Button(text: string, onSelect: Option<string>, highlighted: bool)

  /** The "All" button: selects `null`, highlighted when nothing is selected. */
  function AllButton(selected: Option<string>): (b: Button)
    ensures b.text == "All" && b.onSelect == None
    ensures b.highlighted <==> selected == None
  {
    Button("All", None, selected == None)
  }

  /** `categories.map(...)`: one button per category, labelled with the formatted name,
      passing the raw name, highlighted when it equals the selection. */
  function CategoryButtons(categories: seq<string>, selected: Option<string>): (r: seq<Button>)
    ensures |r| == |categories|
    ensures forall i :: 0 <= i < |r| ==>
      r[i].text == FormatLabel(categories[i]) && r[i].onSelect == Some(categories[i]) &&
      (r[i].highlighted <==> selected == Some(categories[i]))
  {
    if categories == [] then []
    else
      [Button(FormatLabel(categories[0]), Some(categories[0]), selected == Some(categories[0]))] +
      CategoryButtons(categories[1..], selected)
  }

  /** The whole button row. `categories` is `None` when the prop is not an array. */
  function Buttons(categories: Option<seq<string>>, selected: Option<string>): (r: seq<Button>)
    ensures |r| >= 1 && r[0] == AllButton(selected)
    ensures categories.None? || categories.value == [] ==> r == [AllButton(selected)]
    ensures categories.Some? ==> r[1..] == CategoryButtons(categories.value, selected)
  {
    [AllButton(selected)] +
    if categories.Some? && |categories.value| > 0 then CategoryButtons(categories.value, selected) else []
  }

  /** A button is highlighted exactly when the value its click passes equals the current
      selection. */
  lemma HighlightedIffSelected(categories: Option<seq<string>>, selected: Option<string>)
    ensures var r := Buttons(categories, selected);
      forall i :: 0 <= i < |r| ==> (r[i].highlighted <==> r[i].onSelect == selected)
  {
    var r := Buttons(categories, selected);
    if categories.Some? {
      forall i | 1 <= i < |r| ensures r[i].highlighted <==> r[i].onSelect == selected {
        assert r[i] == r[1..][i - 1];
      }
    }
  }

  /** "All" and a category are never highlighted together. */
  lemma AllExcludesCategories(categories: Option<seq<string>>, selected: Option<string>)
    ensures var r := Buttons(categories, selected);
      forall i :: 1 <= i < |r| ==> !(r[0].highlighted && r[i].highlighted)
  {
    var r := Buttons(categories, selected);
    HighlightedIffSelected(categories, selected);
    forall i | 1 <= i < |r| ensures !(r[0].highlighted && r[i].highlighted) {
      assert r[i] == r[1..][i - 1];
    }
  }

  /** Every category button after "All" passes the raw category (not its label) and shows
      its formatted label, hyphen-free and of the same length. */
  lemma CategoryButtonPassesRawName(categories: seq<string>, selected: Option<string>, i: nat)
    requires i < |categories|
    ensures var r := Buttons(Some(categories), selected);
      i + 1 < |r| && r[i + 1].onSelect == Some(categories[i]) &&
      '-' !in r[i + 1].text && |r[i + 1].text| == |categories[i]|
  {
    var r := Buttons(Some(categories), selected);
    assert r[i + 1] == r[1..][i];
    LabelHasNoHyphen(categories[i]);
  }
}
