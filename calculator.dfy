/**
 * The `MinimumLivingCostCalculator` component's state and its handlers: the
 * three `useState` variables, the calculate and reset handlers, the two
 * setters wired to the inputs, the enabled condition of the calculate button
 * and the condition under which the result card is shown.
 */
module Calculator {
  import opened Options
  import opened CostTable
  import opened NumberParsing

  /** A JavaScript number as it arises here: NaN, or an integer (every value involved is an exact integer). */
  datatype Num = NaN | Int(value: int)

  /** JavaScript's `*` on a cost that may be `undefined` and a size that may be NaN. */
  function Times(cost: Option<int>, persons: Option<int>): (total: Num)
  {
    if cost.Some? && persons.Some? then Int(cost.value * persons.value) else NaN
  }

  /** `livingCostData[region] * Number.parseInt(size)`. */
  function TotalCost(region: string, size: string): (total: Num)
  {
    Times(CostOf(region), ParseInt(size))
  }

  /** A picked region's total is its cost times the household size typed. */
  lemma TotalCostOfRegion(r: Region, n: nat)
    ensures TotalCost(Name(r), DecimalString(n)) == Int(Cost(r) * n)
  {
    ParseDecimalString(n);
  }

  /** For a region that is in the table, the total is NaN exactly when the size has no number in it. */
  lemma TotalCostNaN(region: string, size: string)
    requires region in PickerOptions(RegionGroups)
    ensures TotalCost(region, size) == NaN <==> ParseInt(size).None?
  {
    PickedRegionHasCost(region);
  }

  /** The three state variables: `selectedRegion`, `householdSize`, and `result` (None is `null`). */
  datatype State = State(selectedRegion: string, householdSize: string, result: Option<Num>)

  /** The state before any interaction, and after a reset. */
  const Initial := State("", "", None)

  /** The guard of `handleCalculate`: both inputs are non-empty strings. */
  predicate Ready(s: State)
  {
    s.selectedRegion != "" && s.householdSize != ""
  }

  /** `handleCalculate`: when the guard passes, `result` becomes the total; otherwise nothing happens. */
  function Calculate(s: State): (t: State)
    ensures t.selectedRegion == s.selectedRegion && t.householdSize == s.householdSize
    ensures Ready(s) ==> t.result.Some?
    ensures Ready(s) && CostOf(s.selectedRegion).Some? && ParseInt(s.householdSize).Some? ==>
      t.result == Some(Int(CostOf(s.selectedRegion).value * ParseInt(s.householdSize).value))
    ensures Ready(s) && (CostOf(s.selectedRegion).None? || ParseInt(s.householdSize).None?) ==>
      t.result == Some(NaN)
    ensures !Ready(s) ==> t == s
  {
    if Ready(s) then s.(result := Some(TotalCost(s.selectedRegion, s.householdSize))) else s
  }

  /** `disabled={!selectedRegion || !householdSize}`: whether the calculate button can be pressed. */
  predicate CalculateEnabled(s: State)
    ensures CalculateEnabled(s) <==> Ready(s)
  {
    !(s.selectedRegion == "" || s.householdSize == "")
  }

  /**
   * `{result && ...}`: the result card shows only a truthy result, one that
   * is not null, NaN or 0. (For a result of 0 or NaN the expression yields
   * that number instead of the card.)
   */
  predicate ResultShown(s: State)
  {
    s.result.Some? && s.result.value.Int? && s.result.value.value != 0
  }

  /**
   * The states the component can reach: the region is empty or one the
   * picker offers, and a result exists only once a region has been chosen.
   */
  predicate Reachable(s: State)
  {
    (s.selectedRegion == "" || s.selectedRegion in PickerOptions(RegionGroups))
    && (s.result.Some? ==> s.selectedRegion != "")
  }

  /** The initial state is reachable. */
  lemma InitialReachable()
    ensures Reachable(Initial)
  {
  }

  /** Picking one of the picker's options keeps the state reachable. */
  lemma SelectKeepsReachable(s: State, picked: string)
    requires Reachable(s) && picked in PickerOptions(RegionGroups)
    ensures Reachable(s.(selectedRegion := picked))
  {
    PickedRegionHasCost(picked);
    assert picked != "" by {
      LookupInvertsName();
    }
  }

  /** Editing the household size keeps the state reachable, whatever is typed. */
  lemma EditKeepsReachable(s: State, typed: string)
    requires Reachable(s)
    ensures Reachable(s.(householdSize := typed))
  {
  }

  /** A calculation keeps the state reachable: it sets a result only once a region is chosen. */
  lemma CalculateKeepsReachable(s: State)
    requires Reachable(s)
    ensures Reachable(Calculate(s))
  {
  }

  /** The calculate button is enabled exactly when pressing it sets a result. */
  lemma EnabledIffCalculates(s: State)
    ensures CalculateEnabled(s) ==> Calculate(s).result == Some(TotalCost(s.selectedRegion, s.householdSize))
    ensures !CalculateEnabled(s) ==> Calculate(s) == s
  {
  }

  /** Calculating twice in a row leaves the state the first calculation left. */
  lemma CalculateIdempotent(s: State)
    ensures Calculate(Calculate(s)) == Calculate(s)
  {
  }

  /**
   * In a reachable state a calculation never reads an undefined cost: the
   * result is NaN only when the household size has no number in it.
   */
  lemma CalculateNaNOnlyForBadSize(s: State)
    requires Reachable(s) && Ready(s)
    ensures Calculate(s).result == Some(NaN) <==> ParseInt(s.householdSize).None?
  {
    TotalCostNaN(s.selectedRegion, s.householdSize);
  }

  /**
   * No range check: a size of 0 gives a result of 0, which the card does not
   * show, and a size above 20 is multiplied like any other.
   */
  lemma NoRangeCheck(r: Region)
    ensures Calculate(State(Name(r), "0", None)).result == Some(Int(0))
    ensures !ResultShown(Calculate(State(Name(r), "0", None)))
    ensures Calculate(State(Name(r), "21", None)).result == Some(Int(Cost(r) * 21))
  {
    var key := Name(r);
    CostOfName(r);
    ParseSingleDigit('0');
    ParseOverTwentyExample();
    assert Ready(State(key, "0", None)) && Ready(State(key, "21", None));
  }

  /** Once the card shows a result, the breakdown line's lookup of the current region is defined. */
  lemma ShownResultHasRegionCost(s: State)
    requires Reachable(s) && ResultShown(s)
    ensures CostOf(s.selectedRegion).Some?
  {
    PickedRegionHasCost(s.selectedRegion);
  }

  /**
   * Right after a calculation that shows a result, the result is the current
   * region's per-person cost times the size text as `parseInt` reads it.
   */
  lemma BreakdownAfterCalculate(s: State)
    requires Reachable(s) && Ready(s) && ResultShown(Calculate(s))
    ensures Calculate(s).result == Some(Int(CostOf(s.selectedRegion).value * ParseInt(s.householdSize).value))
  {
  }

  /**
   * The setters do not clear the result: after picking another region the
   * card still shows the old total next to the new region's cost.
   */
  lemma BreakdownGoesStale()
    ensures ResultShown(Calculate(State("台北市", "2", None)).(selectedRegion := "新北市"))
    ensures Calculate(State("台北市", "2", None)).result == Some(Int(40758))
    ensures CostOf("新北市") == Some(16900)
  {
    TotalCostOfRegion(Taipei, 2);
    assert DecimalString(2) == "2";
    CostExamples();
  }

  /**
   * The breakdown line prints the size text as typed, not as parsed: 台北市
   * with "2.5" shows a result of 40758 (20379 times 2), next to the text "2.5".
   */
  lemma BreakdownShowsRawSize()
    ensures var t := Calculate(State("台北市", "2.5", None));
      ResultShown(t) && t.result == Some(Int(40758)) && t.householdSize == "2.5"
  {
    TotalCostOfRegion(Taipei, 2);
    ParseFractionExample();
    CostExamples();
  }

  /** Before any interaction, and after a reset, no card is shown, the button is disabled, and calculating does nothing. */
  lemma InitialStateIsQuiet()
    ensures !ResultShown(Initial) && !CalculateEnabled(Initial)
    ensures Calculate(Initial) == Initial
  {
  }

  /** Taipei City, one person: NT$20,379. */
  lemma TaipeiSinglePersonExample()
    ensures Calculate(State("台北市", "1", None)).result == Some(Int(20379))
  {
    ParseSingleDigit('1');
    CostExamples();
  }

  /** New Taipei City, four persons: NT$67,600. */
  lemma NewTaipeiFourPersonsExample()
    ensures Calculate(State("新北市", "4", None)).result == Some(Int(67600))
  {
    ParseSingleDigit('4');
    CostExamples();
  }

  /** Kinmen County, three persons: NT$43,023. */
  lemma KinmenThreePersonsExample()
    ensures Calculate(State("金門縣", "3", None)).result == Some(Int(43023))
  {
    ParseSingleDigit('3');
    CostExamples();
  }

  /** The component: its three state variables and the handlers that set them. */
  class MinimumLivingCostCalculator {
    var selectedRegion: string
    var householdSize: string
    var result: Option<Num>

    function Snapshot(): State
      reads this
    {
      State(selectedRegion, householdSize, result)
    }

    ghost predicate Valid()
      reads this
    {
      Reachable(Snapshot())
    }

    /** `useState("")`, `useState("")`, `useState(null)`. */
    constructor ()
      ensures Valid() && Snapshot() == Initial
    {
      selectedRegion := "";
      householdSize := "";
      result := None;
    }

    /** The picker's `onValueChange`: it only ever passes one of the values it offers. */
    method SelectRegion(value: string)
      requires Valid() && value in PickerOptions(RegionGroups)
      modifies this`selectedRegion
      ensures Valid()
      ensures selectedRegion == value
      ensures householdSize == old(householdSize) && result == old(result)
    {
      SelectKeepsReachable(Snapshot(), value);
      selectedRegion := value;
    }

    /** The size input's `onChange`: any text the field holds. */
    method EditHouseholdSize(value: string)
      requires Valid()
      modifies this`householdSize
      ensures Valid()
      ensures householdSize == value
      ensures selectedRegion == old(selectedRegion) && result == old(result)
    {
      householdSize := value;
    }

    /** `handleCalculate`. */
    method HandleCalculate()
      requires Valid()
      modifies this`result
      ensures Valid()
      ensures Snapshot() == Calculate(old(Snapshot()))
      ensures selectedRegion == old(selectedRegion) && householdSize == old(householdSize)
    {
      if selectedRegion == "" || householdSize == "" {
        return;
      }
      CalculateKeepsReachable(Snapshot());
      var costPerPerson := CostOf(selectedRegion);
      var totalCost := Times(costPerPerson, ParseInt(householdSize));
      result := Some(totalCost);
    }

    /** `handleReset`. */
    method HandleReset()
      modifies this
      ensures Valid()
      ensures Snapshot() == Initial
    {
      selectedRegion := "";
      householdSize := "";
      result := None;
    }

    /** Whether the calculate button is enabled. */
    function CanCalculate(): (enabled: bool)
      reads this
      ensures enabled <==> Ready(Snapshot())
    {
      CalculateEnabled(Snapshot())
    }

    /** Whether the result card is on screen; when it is, the breakdown's lookup of the region is defined. */
    function ShowsResult(): (shown: bool)
      reads this
      requires Valid()
      ensures shown ==> CostOf(selectedRegion).Some?
    {
      if ResultShown(Snapshot()) then
        ShownResultHasRegionCost(Snapshot());
        true
      else
        false
    }
  }
}
