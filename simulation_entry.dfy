/**
  The entry to the simulation (SimulationEntryPage): an introduction, the
  list of cases, the choice of a role and the role's cabinet, from which the
  analysis of the chosen case opens in the simulation page. The page keeps
  the screen, the loaded cases, the chosen case and the current role, and
  each button's handler updates them.
 */
module SimulationEntry {
  import opened Text
  import opened Fetch
  import Simulation

  datatype GameState = Intro | SelectCase | RoleSelect | Cabinet

  /** The roles as this page names them. */
  datatype Role = Prosecutor | Defense | Judge

  /** The fields of a case that the page shows and passes on. */
  datatype CaseItem = CaseItem(id: int, caseNumber: string, title: string)

  /** The role's key in this page's configuration, which is what the start button puts in the address. */
  function RoleKey(r: Role): string {
    match r
    case Prosecutor => "prosecutor"
    case Defense => "defense"
    case Judge => "judge"
  }

  function RoleTitle(r: Role): string {
    match r
    case Prosecutor => "Прокурор"
    case Defense => "Адвокат"
    case Judge => "Судья"
  }

  /** `c.case_number || \`Дело #${c.id}\``: the heading of a case in the list. */
  function CaseLabel(c: CaseItem): (heading: string)
    ensures heading != []
    ensures c.caseNumber != [] ==> heading == c.caseNumber
    ensures c.caseNumber == [] ==> |heading| > 6 && heading[..6] == "Дело #" && heading[6..] == IntToString(c.id)
  {
    if c.caseNumber != "" then c.caseNumber else "Дело #" + IntToString(c.id)
  }

  // ---------------------------------------------------------------------------
  // The address of the analysis

  /** `/simulation/${id}?role=${key}`. */
  function AnalysisUrlFor(id: int, key: string): string {
    "/simulation/" + IntToString(id) + "?role=" + key
  }

  /** The address names the case, which can be read back from it, and ends with the role key. */
  lemma AnalysisUrlParts(id: int, key: string)
    ensures var url := AnalysisUrlFor(id, key); var n := |IntToString(id)|;
      url[..12] == "/simulation/"
      && url[12..12 + n] == IntToString(id)
      && url[12 + n..18 + n] == "?role="
      && url[18 + n..] == key
  {
  }

  /** The start button's address as written: the role under this page's own key. */
  function AnalysisUrlAsWritten(id: int, r: Role): string {
    AnalysisUrlFor(id, RoleKey(r))
  }

  /**
    The simulation page does not know two of the three keys: a prosecutor or
    a judge who starts the analysis arrives with no configured role, and only
    the defence arrives in its own role.
   */
  lemma AsWrittenKeysMissTheSimulation()
    ensures Simulation.InitialRole(Some(RoleKey(Prosecutor))) == None
    ensures Simulation.InitialRole(Some(RoleKey(Judge))) == None
    ensures Simulation.InitialRole(Some(RoleKey(Defense))) == Some(Simulation.Defense)
  {
  }

  /** The simulation page's role for each role of this page. */
  function Counterpart(r: Role): Simulation.Role {
    match r
    case Prosecutor => Simulation.Prosecution
    case Defense => Simulation.Defense
    case Judge => Simulation.Court
  }

  /** The key the simulation page reads for each role. */
  function SimulationRoleKey(r: Role): string {
    Simulation.RoleKey(Counterpart(r))
  }

  /** With the simulation page's keys every role arrives as itself, with the same title. */
  lemma SimulationRoleKeyOpensSameRole(r: Role)
    ensures Simulation.InitialRole(Some(SimulationRoleKey(r))) == Some(Counterpart(r))
    ensures Simulation.RoleTitle(Counterpart(r)) == RoleTitle(r)
  {
    Simulation.RoleKeyRoundTrip(Counterpart(r));
  }

  /** The start button's address with the key the simulation page reads. */
  function AnalysisUrl(id: int, r: Role): string {
    AnalysisUrlFor(id, SimulationRoleKey(r))
  }

  // ---------------------------------------------------------------------------
  // The page

  class SimulationEntryPage {
    var gameState: GameState
    var cases: seq<CaseItem>
    var selectedCase: Option<CaseItem>
    var currentRole: Role

    /** The role screen and the cabinet are only reached with a chosen case. */
    ghost predicate Valid()
      reads this
    {
      (gameState == RoleSelect || gameState == Cabinet) ==> selectedCase.Some?
    }

    constructor()
      ensures Valid()
      ensures gameState == Intro && cases == [] && selectedCase == None && currentRole == Prosecutor
    {
      gameState := Intro;
      cases := [];
      selectedCase := None;
      currentRole := Prosecutor;
    }

    /**
      `loadCases`, behind the introduction's button: the list is replaced by
      an ok response and kept otherwise, and the case list is shown in any case.
      The button stays enabled while the request is pending, so the response
      may arrive on any screen; it moves to the case list from there too and
      keeps the chosen case and role.
     */
    method LoadCases(response: Response<seq<CaseItem>>)
      requires Valid()
      modifies this
      ensures Valid()
      ensures gameState == SelectCase
      ensures cases == if response.Ok? then response.payload else old(cases)
      ensures selectedCase == old(selectedCase) && currentRole == old(currentRole)
    {
      if response.Ok? {
        cases := response.payload;
      }
      gameState := SelectCase;
    }

    /** `handleSelectCase`, a click on a case of the list. */
    method ChooseCase(c: CaseItem)
      requires Valid() && gameState == SelectCase && c in cases
      modifies this
      ensures Valid()
      ensures selectedCase == Some(c) && gameState == RoleSelect
      ensures cases == old(cases) && currentRole == old(currentRole)
    {
      selectedCase := Some(c);
      gameState := RoleSelect;
    }

    /** `handleSelectRole`, a click on a role's card. */
    method ChooseRole(r: Role)
      requires Valid() && gameState == RoleSelect
      modifies this
      ensures Valid()
      ensures currentRole == r && gameState == Cabinet
      ensures cases == old(cases) && selectedCase == old(selectedCase)
    {
      currentRole := r;
      gameState := Cabinet;
    }

    /** "Back" on the role screen returns to the case list and keeps the chosen case. */
    method BackToCases()
      requires Valid() && gameState == RoleSelect
      modifies this
      ensures Valid()
      ensures gameState == SelectCase
      ensures cases == old(cases) && selectedCase == old(selectedCase) && currentRole == old(currentRole)
    {
      gameState := SelectCase;
    }

    /** A role button in the cabinet's header switches the role and stays in the cabinet. */
    method SwitchRole(r: Role)
      requires Valid() && gameState == Cabinet
      modifies this
      ensures Valid()
      ensures currentRole == r && gameState == Cabinet
      ensures cases == old(cases) && selectedCase == old(selectedCase)
    {
      currentRole := r;
    }

    /** "Сменить роль" goes back from the cabinet to the role screen. */
    method ChangeRole()
      requires Valid() && gameState == Cabinet
      modifies this
      ensures Valid()
      ensures gameState == RoleSelect
      ensures cases == old(cases) && selectedCase == old(selectedCase) && currentRole == old(currentRole)
    {
      gameState := RoleSelect;
    }

    /**
      "Начать анализ": the address of the analysis of the chosen case in the
      current role, under the key the simulation page reads, so that the
      simulation opens in that role.
     */
    method StartAnalysis() returns (url: string)
      requires Valid() && gameState == Cabinet
      ensures url == AnalysisUrl(selectedCase.value.id, currentRole)
      ensures Simulation.InitialRole(Some(SimulationRoleKey(currentRole))) == Some(Counterpart(currentRole))
    {
      SimulationRoleKeyOpensSameRole(currentRole);
      url := AnalysisUrl(selectedCase.value.id, currentRole);
    }
  }
}
