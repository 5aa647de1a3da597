/** The scenario picker (hooks/scenario/use-scenario-selection.ts): a level tab and the chosen
    scenario, and the scenario query the current level keys. */
module ScenarioSelection {
  import opened Common
  import opened Enums

  datatype Scenario = Scenario(scenarioId: int, name: string, level: Level)

  /** The parameters of the scenario list request. */
  datatype ScenarioQuery = ScenarioQuery(level: Level, page: nat, size: nat)

  const FirstPage: nat := 1
  const ScenarioPageSize: nat := 20

  /** `data?.content ?? []`: the fetched list, or nothing while there is no data. */
  function ScenariosOf(data: Option<seq<Scenario>>): (r: seq<Scenario>)
    ensures data.Some? ==> r == data.value
    ensures data.None? ==> r == []
  {
    if data.Some? then data.value else []
  }

  /** `useScenarioSelection`'s state. */
  class ScenarioSelectionState {
    var selectedLevel: Level
    var selectedScenario: Option<Scenario>

    constructor ()
      ensures selectedLevel == Beginner && selectedScenario == None
    {
      selectedLevel := Beginner;
      selectedScenario := None;
    }

    /** `hasSelection`. */
    function HasSelection(): (r: bool)
      reads this
      ensures r <==> selectedScenario.Some?
    {
      selectedScenario != None
    }

    /** The query the hook issues: the selected level, first page, twenty per page. */
    function Query(): (q: ScenarioQuery)
      reads this
      ensures q.level == selectedLevel && q.page == 1 && q.size == 20
    {
      ScenarioQuery(selectedLevel, FirstPage, ScenarioPageSize)
    }

    /** `handleLevelChange`: another level, and the choice is cleared. */
    method HandleLevelChange(level: Level)
      modifies this
      ensures selectedLevel == level && selectedScenario == None && !HasSelection()
    {
      selectedLevel := level;
      selectedScenario := None;
    }

    /** `handleScenarioSelect`: the level stays. */
    method HandleScenarioSelect(scenario: Scenario)
      modifies this`selectedScenario
      ensures selectedScenario == Some(scenario) && HasSelection()
    {
      selectedScenario := Some(scenario);
    }
  }

  /** Selecting and then switching level leaves no selection, whichever scenario was chosen. */
  method ScenarioSwitchLevel()
  {
    var state := new ScenarioSelectionState();
    state.HandleScenarioSelect(Scenario(3, "카페 주문", Beginner));
    assert state.HasSelection() && state.Query().level == Beginner;
    state.HandleLevelChange(Advanced);
    assert !state.HasSelection() && state.Query() == ScenarioQuery(Advanced, 1, 20);
  }
}
