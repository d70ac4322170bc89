/**
  The case dashboard (DashboardPage): the list of cases loaded from the
  server, split into active and archived cases, the outcome of loading and of
  deleting a case, the "continue analysis" button and the status badges.
  The page replaces its state wholesale after each event, so the model is a
  state value and one function per event.
 */
module Dashboard {
  import opened Text
  import opened Fetch
  import Seqs

  datatype Case = Case(
    id: int,
    caseNumber: string,
    title: string,
    article: string,
    defendantName: string,
    volumesCount: int,
    documentsCount: int,
    processingProgress: int,
    status: string,
    createdAt: string,
    updatedAt: string)

  /** The page state: the loaded cases, the spinner, and whether the archive is unfolded. */
  datatype DashboardState = DashboardState(cases: seq<Case>, isLoading: bool, showArchived: bool)

  /** The state when the page mounts. */
  function Initial(): (s: DashboardState)
    ensures s.cases == [] && s.isLoading && !s.showArchived
  {
    DashboardState([], true, false)
  }

  // ---------------------------------------------------------------------------
  // Loading

  /** `loadCases`: the payload on an ok response, the empty list otherwise; the spinner stops either way. */
  function Load(s: DashboardState, response: Response<seq<Case>>): (t: DashboardState)
    ensures !t.isLoading && t.showArchived == s.showArchived
    ensures response.Ok? ==> t.cases == response.payload
    ensures !response.Ok? ==> t.cases == []
  {
    match response
    case Ok(data) => s.(cases := data, isLoading := false)
    case _ => s.(cases := [], isLoading := false)
  }

  // ---------------------------------------------------------------------------
  // Active and archived cases

  const ArchivedStatus: string := "archived"

  predicate IsArchived(c: Case) {
    c.status == ArchivedStatus
  }

  /** `activeCases`. */
  function ActiveCases(cases: seq<Case>): seq<Case> {
    Seqs.Filter(cases, c => !IsArchived(c))
  }

  /** `archivedCases`. */
  function ArchivedCases(cases: seq<Case>): seq<Case> {
    Seqs.Filter(cases, c => IsArchived(c))
  }

  /**
    The two lists split the cases: every case is in exactly one of them, as
    often as it is loaded, and each list keeps the loaded order.
   */
  lemma ActiveArchivedPartition(cases: seq<Case>)
    ensures forall c | c in ActiveCases(cases) :: c in cases && !IsArchived(c)
    ensures forall c | c in ArchivedCases(cases) :: c in cases && IsArchived(c)
    ensures multiset(ActiveCases(cases)) + multiset(ArchivedCases(cases)) == multiset(cases)
    ensures |ActiveCases(cases)| + |ArchivedCases(cases)| == |cases|
    ensures Seqs.IsSubsequence(ActiveCases(cases), cases)
    ensures Seqs.IsSubsequence(ArchivedCases(cases), cases)
  {
    Seqs.FilterPartition(cases, c => !IsArchived(c), c => IsArchived(c));
    Seqs.FilterIsSubsequence(cases, c => !IsArchived(c));
    Seqs.FilterIsSubsequence(cases, c => IsArchived(c));
  }

  // ---------------------------------------------------------------------------
  // Deleting

  /** `cases.filter(c => c.id !== caseId)`. */
  function WithoutCase(cases: seq<Case>, caseId: int): seq<Case> {
    Seqs.Filter(cases, (c: Case) => c.id != caseId)
  }

  /**
    `handleDeleteCase` as the code is written: on an ok response the list
    becomes `snapshot` without the case, where `snapshot` is the list the
    handler captured when the page last rendered, whatever the list is by the
    time the response arrives. A declined confirmation, a non-ok response or
    an exception leave the list as it is.
   */
  function DeleteAsWritten(s: DashboardState, snapshot: seq<Case>, caseId: int,
                           confirmed: bool, response: Response<()>): (t: DashboardState)
    ensures t.isLoading == s.isLoading && t.showArchived == s.showArchived
    ensures !(confirmed && response.Ok?) ==> t == s
    ensures confirmed && response.Ok? ==> t == s.(cases := WithoutCase(snapshot, caseId))
  {
    if confirmed && response.Ok? then s.(cases := WithoutCase(snapshot, caseId)) else s
  }

  /**
    Two deletions confirmed from the same render, whose responses arrive one
    after the other: the second response puts back the case the first one
    removed.
   */
  lemma ConcurrentDeleteRestoresCase(a: Case, b: Case)
    requires a.id != b.id
    ensures var s := DashboardState([a, b], false, false);
      var afterFirst := DeleteAsWritten(s, s.cases, a.id, true, Ok(()));
      var afterSecond := DeleteAsWritten(afterFirst, s.cases, b.id, true, Ok(()));
      a !in afterFirst.cases && afterSecond.cases == [a]
  {
    assert [a, b][1..] == [b];
    assert [b][1..] == [];
    assert [a][1..] == [];
    assert WithoutCase([b], a.id) == [b] + WithoutCase([], a.id);
    assert WithoutCase([a, b], a.id) == WithoutCase([b], a.id);
    assert WithoutCase([b], b.id) == WithoutCase([], b.id);
    assert WithoutCase([a, b], b.id) == [a] + WithoutCase([b], b.id);
  }

  /**
    `handleDeleteCase` with the list update applied to the current list
    (`setCases(prev => prev.filter(...))`), which is what a deletion means.
   */
  function Delete(s: DashboardState, caseId: int, confirmed: bool, response: Response<()>): (t: DashboardState)
    ensures t.isLoading == s.isLoading && t.showArchived == s.showArchived
    ensures !(confirmed && response.Ok?) ==> t == s
  {
    if confirmed && response.Ok? then s.(cases := WithoutCase(s.cases, caseId)) else s
  }

  /** With a single deletion in flight the captured list is the current one, and the two agree. */
  lemma DeleteAgreesWithAsWritten(s: DashboardState, caseId: int, confirmed: bool, response: Response<()>)
    ensures DeleteAsWritten(s, s.cases, caseId, confirmed, response) == Delete(s, caseId, confirmed, response)
  {
  }

  /**
    A successful deletion removes exactly the cases with that id and keeps the
    others, as often as they were there and in their order.
   */
  lemma DeleteRemovesExactlyThatCase(s: DashboardState, caseId: int)
    ensures var t := Delete(s, caseId, true, Ok(()));
      (forall c | c in t.cases :: c.id != caseId)
      && (forall c | c in s.cases && c.id != caseId :: c in t.cases)
      && multiset(t.cases) == multiset(s.cases) - multiset(Seqs.Filter(s.cases, (c: Case) => c.id == caseId))
      && Seqs.IsSubsequence(t.cases, s.cases)
  {
    var kept := WithoutCase(s.cases, caseId);
    var gone := Seqs.Filter(s.cases, (c: Case) => c.id == caseId);
    assert Delete(s, caseId, true, Ok(())).cases == kept;
    Seqs.FilterPartition(s.cases, (c: Case) => c.id != caseId, (c: Case) => c.id == caseId);
    assert multiset(kept) + multiset(gone) == multiset(s.cases);
    Seqs.FilterIsSubsequence(s.cases, (c: Case) => c.id != caseId);
  }

  /** Deletions applied to the current list commute: their order of arrival does not matter. */
  lemma DeletesCommute(s: DashboardState, id1: int, id2: int)
    ensures Delete(Delete(s, id1, true, Ok(())), id2, true, Ok(())).cases
         == Delete(Delete(s, id2, true, Ok(())), id1, true, Ok(())).cases
  {
    FilterTwice(s.cases, id1, id2);
    FilterTwice(s.cases, id2, id1);
    Seqs.FilterAgree(s.cases, (c: Case) => c.id != id1 && c.id != id2, (c: Case) => c.id != id2 && c.id != id1);
  }

  lemma {:induction false} FilterTwice(cases: seq<Case>, id1: int, id2: int)
    ensures WithoutCase(WithoutCase(cases, id1), id2) == Seqs.Filter(cases, (c: Case) => c.id != id1 && c.id != id2)
  {
    if cases != [] {
      FilterTwice(cases[1..], id1, id2);
      var c := cases[0];
      var p1 := (x: Case) => x.id != id1;
      var p2 := (x: Case) => x.id != id2;
      assert WithoutCase(cases, id1) == (if p1(c) then [c] else []) + WithoutCase(cases[1..], id1);
      Seqs.FilterConcat(if p1(c) then [c] else [], WithoutCase(cases[1..], id1), p2);
      if p1(c) {
        assert Seqs.Filter([c], p2) == if p2(c) then [c] else [];
      }
    }
  }

  // ---------------------------------------------------------------------------
  // The archive toggle, the card button and the badges

  function ToggleArchived(s: DashboardState): (t: DashboardState)
    ensures t.cases == s.cases && t.isLoading == s.isLoading && t.showArchived == !s.showArchived
  {
    s.(showArchived := !s.showArchived)
  }

  /** The card's "continue analysis" button: processing is unfinished and the case has volumes. */
  predicate ShowsContinue(c: Case) {
    c.processingProgress < 100 && c.volumesCount > 0
  }

  /** The cards that carry the button: it is drawn on the active cards only. */
  function ContinueCards(cases: seq<Case>): seq<Case> {
    Seqs.Filter(ActiveCases(cases), ShowsContinue)
  }

  /**
    A case shows "continue analysis" exactly when it is not archived, its
    processing is below 100 and it has at least one volume; a fully processed
    case or one without volumes never shows it.
   */
  lemma ContinueCardsExactly(cases: seq<Case>)
    ensures forall c | c in ContinueCards(cases) ::
      c in cases && !IsArchived(c) && c.processingProgress < 100 && c.volumesCount > 0
    ensures forall c | c in cases && !IsArchived(c) && c.processingProgress < 100 && c.volumesCount > 0 ::
      c in ContinueCards(cases)
  {
  }

  const StatusLabels: map<string, string> := map[
    "active" := "Активно",
    "processing" := "Обработка",
    "completed" := "Завершено",
    "archived" := "Архив"
  ]

  /** `getStatusBadge`'s label; `labels[status]` is undefined for any other status. */
  function StatusLabel(status: string): Option<string> {
    if status in StatusLabels then Some(StatusLabels[status]) else None
  }

  /** The four statuses of a case and their labels; any other status has no label. */
  lemma StatusLabelTable(status: string)
    ensures StatusLabel("active") == Some("Активно")
    ensures StatusLabel("processing") == Some("Обработка")
    ensures StatusLabel("completed") == Some("Завершено")
    ensures StatusLabel("archived") == Some("Архив")
    ensures status !in {"active", "processing", "completed", "archived"} ==> StatusLabel(status) == None
  {
  }
}
