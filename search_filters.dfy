/**
 * The search filter panel: its state starts from the filters in force,
 * the edits are kept as text, and applying turns the price texts back into
 * numbers with `parseFloat`.
 */
module SearchFilters {
  import opened Wrappers
  import opened Text
  import opened Numbers

  const AllChoice := "All"
  const DefaultSort := "recent"
  const SortOptions := ["recent", "priceAsc", "priceDesc"]

  /** A price of the filters handed in: absent (`undefined`), `null`, or a number. */
  datatype Price = Absent | NullPrice | Amount(x: JsNumber)

  /** The filters handed in; a text field the object lacks is None. */
  datatype FilterInput = FilterInput(category: Option<string>, minPrice: Price, maxPrice: Price,
                                     condition: Option<string>, sortBy: Option<string>)

  /** The filters `handleApply` passes on; a price of None is `null`. */
  datatype Filters = Filters(category: string, minPrice: Option<JsNumber>, maxPrice: Option<JsNumber>,
                             condition: string, sortBy: string)

  /** The panel's state: the prices as the text being edited. */
  datatype PanelState = PanelState(category: string, minPrice: string, maxPrice: string,
                                   condition: string, sortBy: string)

  const ResetState := PanelState(AllChoice, "", "", AllChoice, DefaultSort)

  /** `value || fallback` for a text field: absent and empty both give the fallback. */
  function OrDefault(value: Option<string>, fallback: string): (r: string)
    ensures value.Some? && value.value != "" ==> r == value.value
    ensures value.None? || value.value == "" ==> r == fallback
  {
    if value.Some? && value.value != "" then value.value else fallback
  }

  /**
   * `price !== null ? price.toString() : ''`: the TypeError an absent price
   * (or absent filters) raises is an error here.
   */
  function PriceText(p: Price): (r: Result<string>)
    ensures r.Err? <==> p.Absent?
    ensures p.NullPrice? ==> r == Ok("")
    ensures p.Amount? ==> r.Ok? && r.value != ""
  {
    match p
    case Absent => Err(Error("Cannot read properties of undefined (reading 'toString')"))
    case NullPrice => Ok("")
    case Amount(x) => Ok(NumberToString(x))
  }

  /** The state the panel is created with, or the error its creation raises. */
  function InitialState(filters: Option<FilterInput>): (r: Result<PanelState>)
    ensures filters.None? ==> r.Err?
    ensures r.Ok? ==> (Apply(r.value).minPrice.None? <==> filters.value.minPrice.NullPrice?)
  {
    if filters.None? then Err(Error("Cannot read properties of undefined (reading 'minPrice')"))
    else
      var f := filters.value;
      var lo := PriceText(f.minPrice);
      if lo.Err? then Err(lo.error)
      else
        var hi := PriceText(f.maxPrice);
        if hi.Err? then Err(hi.error)
        else Ok(PanelState(OrDefault(f.category, AllChoice), lo.value, hi.value,
                           OrDefault(f.condition, AllChoice), OrDefault(f.sortBy, DefaultSort)))
  }

  /** The panel opens exactly when filters are given and both prices are `null` or a number. */
  lemma InitialStateCases(filters: Option<FilterInput>)
    ensures InitialState(filters).Ok? <==>
            filters.Some? && !filters.value.minPrice.Absent? && !filters.value.maxPrice.Absent?
    ensures InitialState(filters).Ok? ==>
      var s := InitialState(filters).value;
      && (s.minPrice == "" <==> filters.value.minPrice.NullPrice?)
      && (s.maxPrice == "" <==> filters.value.maxPrice.NullPrice?)
      && s.category != "" && s.condition != "" && s.sortBy != ""
  {
  }

  /** A price text as `handleApply` reads it: empty is `null`, anything else goes through `parseFloat`. */
  function ReadPrice(text: string): (r: Option<JsNumber>)
    ensures r.None? <==> text == ""
  {
    if text != "" then Some(ToNumber(text)) else None
  }

  /** The filters `handleApply` hands to `onApplyFilters`. */
  function Apply(s: PanelState): (f: Filters)
    ensures f.category == s.category && f.condition == s.condition && f.sortBy == s.sortBy
    ensures f.minPrice.None? <==> s.minPrice == ""
    ensures f.maxPrice.None? <==> s.maxPrice == ""
  {
    Filters(s.category, ReadPrice(s.minPrice), ReadPrice(s.maxPrice), s.condition, s.sortBy)
  }

  /** Applying right after a reset clears every filter. */
  lemma ApplyAfterReset()
    ensures Apply(ResetState) == Filters(AllChoice, None, None, AllChoice, DefaultSort)
  {
  }

  /** `NaN.toString()` is read back by `parseFloat` as `NaN`. */
  lemma NaNRoundTrip()
    ensures ToNumber(NumberToString(NaN)) == NaN
  {
    var s := NumberToString(NaN);
    assert s == "NaN";
    assert TrimStart(s) == s;
    assert DigitRun(s) == 0;
    assert s[0..][0] == 'N';
  }

  /** A price that survives `toString` followed by `parseFloat` unchanged. */
  predicate Reproducible(p: Price) {
    p.NullPrice? || p == Amount(NaN) || (p.Amount? && p.x.Num? && p.x.n.scale == 0)
  }

  /** The filter a price becomes once it has been applied. */
  function Applied(p: Price): Option<JsNumber> {
    if p.Amount? then Some(p.x) else None
  }

  /**
   * Opening the panel on some filters and applying without an edit hands back
   * the same filters, when the text fields are non-empty and the prices are
   * `null`, `NaN` or whole numbers.
   */
  lemma {:induction false} ReopenAndApply(f: FilterInput)
    requires f.category.Some? && f.category.value != ""
    requires f.condition.Some? && f.condition.value != ""
    requires f.sortBy.Some? && f.sortBy.value != ""
    requires Reproducible(f.minPrice) && Reproducible(f.maxPrice)
    ensures InitialState(Some(f)).Ok?
    ensures Apply(InitialState(Some(f)).value) ==
            Filters(f.category.value, Applied(f.minPrice), Applied(f.maxPrice), f.condition.value, f.sortBy.value)
  {
    PriceRoundTrip(f.minPrice);
    PriceRoundTrip(f.maxPrice);
  }

  lemma {:induction false} PriceRoundTrip(p: Price)
    requires Reproducible(p)
    ensures PriceText(p).Ok? && ReadPrice(PriceText(p).value) == Applied(p)
  {
    if p == Amount(NaN) {
      NaNRoundTrip();
    } else if p.Amount? {
      WholeNumberRoundTrip(p.x.n.mantissa);
    }
  }

  /** The category and condition chips: "All" first, then the choices offered. */
  function Choices(available: Option<seq<string>>): (r: seq<string>)
    ensures |r| >= 1 && r[0] == AllChoice
    ensures available.None? ==> |r| == 1
    ensures available.Some? ==> |r| == 1 + |available.value| && forall i :: 0 <= i < |available.value| ==> r[i + 1] == available.value[i]
  {
    [AllChoice] + (if available.Some? then available.value else [])
  }

  class SearchFiltersPanel {
    var category: string
    var minPrice: string
    var maxPrice: string
    var condition: string
    var sortBy: string

    function State(): PanelState
      reads this
    {
      PanelState(category, minPrice, maxPrice, condition, sortBy)
    }

    /** The panel created on a state `InitialState` produced. */
    constructor (initial: PanelState)
      ensures State() == initial
    {
      category, minPrice, maxPrice, condition, sortBy :=
        initial.category, initial.minPrice, initial.maxPrice, initial.condition, initial.sortBy;
    }

    /** Pressing a category chip. */
    method SelectCategory(item: string)
      modifies this
      ensures State() == old(State()).(category := item)
    {
      category := item;
    }

    /** Editing the minimum price text. */
    method EditMinPrice(text: string)
      modifies this
      ensures State() == old(State()).(minPrice := text)
    {
      minPrice := text;
    }

    /** Editing the maximum price text. */
    method EditMaxPrice(text: string)
      modifies this
      ensures State() == old(State()).(maxPrice := text)
    {
      maxPrice := text;
    }

    /** Pressing a condition chip. */
    method SelectCondition(item: string)
      modifies this
      ensures State() == old(State()).(condition := item)
    {
      condition := item;
    }

    /** Pressing a sort button; the segmented buttons hand on only the values of `SortOptions`. */
    method SelectSort(option: string)
      requires option in SortOptions
      modifies this
      ensures State() == old(State()).(sortBy := option)
    {
      sortBy := option;
    }

    /** `handleReset`: back to no filters, sorted by recency. */
    method HandleReset()
      modifies this
      ensures State() == ResetState
    {
      category, minPrice, maxPrice, condition, sortBy := AllChoice, "", "", AllChoice, DefaultSort;
    }

    /** `handleApply`: the filters handed on; the panel is then closed and its state kept. */
    method HandleApply() returns (applied: Filters)
      ensures applied == Apply(State())
    {
      var lo := if minPrice != "" then Some(ToNumber(minPrice)) else None;
      var hi := if maxPrice != "" then Some(ToNumber(maxPrice)) else None;
      applied := Filters(category, lo, hi, condition, sortBy);
    }
  }
}
