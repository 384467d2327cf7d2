/**
 * The category page of src/pages/CategoryListForm.tsx: one fetch of the category list,
 * whose settlement sets `categories`, `loading` and `error`, and a render that picks the
 * loading message, the error message or the list of labels.
 */
module CategoryListForm {
  import opened Wrappers
  import opened CategoryLabel

  /** The parsed JSON body: either an array, or an object whose `categories` field may be
      missing (`undefined`). */
  datatype CategoriesPayload =
    | ArrayPayload(items: seq<string>)
    | ObjectPayload(categories: Option<seq<string>>)

  /** How the `fetch(...).then(res => res.json())` chain settled. */
  datatype FetchOutcome = FetchFailed | Fetched(payload: CategoriesPayload)

  /** What the component renders. `RenderThrows` is the render of an `undefined` category
      list, whose `.map` throws. */
  datatype FormView =
    | LoadingMessage
    | ErrorMessage(message: string)
    | CategoryItems(labels: seq<string>)
    | RenderThrows

  const FetchError := "Failed to fetch categories."

  /** `Array.isArray(data) ? data : data.categories` */
  function Normalise(payload: CategoriesPayload): (r: Option<seq<string>>)
    ensures payload.ArrayPayload? ==> r == Some(payload.items)
    ensures payload.ObjectPayload? ==> r == payload.categories
  {
    match payload
    case ArrayPayload(items) => Some(items)
    case ObjectPayload(categories) => categories
  }

  /** The render: loading first, then a truthy error, then the labels. */
  function FormViewOf(loading: bool, error: Option<string>, categories: Option<seq<string>>): (v: FormView)
    ensures loading ==> v == LoadingMessage
    ensures !loading && Truthy(error) ==> v == ErrorMessage(error.value)
    ensures !loading && !Truthy(error) && categories.None? ==> v == RenderThrows
    ensures !loading && !Truthy(error) && categories.Some? ==>
      v.CategoryItems? && |v.labels| == |categories.value| &&
      forall i :: 0 <= i < |v.labels| ==> v.labels[i] == FormatLabel(categories.value[i])
  {
    if loading then LoadingMessage
    else if Truthy(error) then ErrorMessage(error.value)
    else match categories
      case None => RenderThrows
      case Some(cs) => CategoryItems(seq(|cs|, i requires 0 <= i < |cs| => FormatLabel(cs[i])))
  }

  /** No rendered label contains a hyphen, and each keeps its category's length. */
  lemma ItemsHaveNoHyphen(loading: bool, error: Option<string>, categories: Option<seq<string>>)
    ensures var v := FormViewOf(loading, error, categories);
      v.CategoryItems? ==> forall i :: 0 <= i < |v.labels| ==>
        '-' !in v.labels[i] && |v.labels[i]| == |categories.value[i]|
  {
    var v := FormViewOf(loading, error, categories);
    if v.CategoryItems? {
      forall i | 0 <= i < |v.labels| ensures '-' !in v.labels[i] {
        LabelHasNoHyphen(categories.value[i]);
      }
    }
  }

  class CategoryListForm {
    var categories: Option<seq<string>>
    var loading: bool
    var error: Option<string>

    /** `useState<string[]>([])`, `useState(true)`, `useState(null)` */
    constructor ()
      ensures categories == Some([]) && loading && error == None
    {
      categories, loading, error := Some([]), true, None;
    }

    /** The fetch chain's `.then` / `.catch`: on success the normalised payload becomes the
        category list; on failure the error message is set; either way loading ends. */
    method FetchSettled(outcome: FetchOutcome)
      modifies this
      ensures !loading
      ensures outcome.Fetched? ==> categories == Normalise(outcome.payload) && error == old(error)
      ensures outcome.FetchFailed? ==> categories == old(categories) && error == Some(FetchError)
    {
      match outcome
      case Fetched(payload) =>
        categories := Normalise(payload);
        loading := false;
      case FetchFailed =>
        error := Some(FetchError);
        loading := false;
    }

    function View(): FormView
      reads this
    {
      FormViewOf(loading, error, categories)
    }
  }

  /** From the initial state, a fetch that settles shows the error message on failure and,
      on success, one hyphen-free label per category of the normalised payload (or the
      throwing render when the object payload has no `categories`). */
  method LoadPage(outcome: FetchOutcome) returns (before: FormView, after: FormView)
    ensures before == LoadingMessage
    ensures outcome.FetchFailed? ==> after == ErrorMessage(FetchError)
    ensures outcome.Fetched? && Normalise(outcome.payload).None? ==> after == RenderThrows
    ensures outcome.Fetched? && Normalise(outcome.payload).Some? ==>
      after.CategoryItems? && |after.labels| == |Normalise(outcome.payload).value| &&
      forall i :: 0 <= i < |after.labels| ==> after.labels[i] == FormatLabel(Normalise(outcome.payload).value[i])
  {
    var page := new CategoryListForm();
    before := page.View();
    page.FetchSettled(outcome);
    after := page.View();
  }
}
