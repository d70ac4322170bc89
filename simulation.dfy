/**
  The courtroom simulation of one case (SimulationPage): the documents of all
  volumes are loaded and given procedural data (a status, a list of issues, a
  strength and the roles that used them); the player picks a document and
  one of the three actions of the current role, which moves the document to
  "excluded", "disputed" or "valid" according to the words in the action's
  label, and is written to the action log; the summary counts the documents
  per status.
 */
module Simulation {
  import opened Text
  import opened Fetch
  import Seqs
  import ActionLabels

  datatype Role = Prosecution | Defense | Court
  datatype DocumentStatus = Valid | Disputed | Excluded

  /** A document with its procedural data (`date` is not part of this model). */
  datatype Document = Document(
    id: int,
    title: string,
    docType: string,
    pageStart: int,
    pageEnd: int,
    volumeId: int,
    status: DocumentStatus,
    issues: seq<string>,
    strength: int,
    usedBy: seq<Role>)

  datatype Volume = Volume(id: int, volumeNumber: int)

  /** The loaded case: its volumes and the documents of all of them. */
  datatype CaseData = CaseData(volumes: seq<Volume>, documents: seq<Document>)

  // ---------------------------------------------------------------------------
  // Roles

  /** The key of a role in the page's configuration and in its `?role=` parameter. */
  function RoleKey(r: Role): string {
    match r
    case Prosecution => "prosecution"
    case Defense => "defense"
    case Court => "court"
  }

  /** The configured role of a key, if the configuration has one. */
  function RoleOfKey(key: string): (r: Option<Role>)
    ensures r.Some? ==> RoleKey(r.value) == key
  {
    if key == "prosecution" then Some(Prosecution)
    else if key == "defense" then Some(Defense)
    else if key == "court" then Some(Court)
    else None
  }

  /** Every role's key leads back to the role. */
  lemma RoleKeyRoundTrip(r: Role)
    ensures RoleOfKey(RoleKey(r)) == Some(r)
  {
  }

  /**
    The role the page starts in: the `role` query parameter, or the
    prosecution when it is absent or empty; `None` when the parameter names
    no configured role (the page then has no title, actions or colours).
   */
  function InitialRole(query: Option<string>): (r: Option<Role>)
    ensures (query.None? || query == Some("")) ==> r == Some(Prosecution)
    ensures query.Some? && query.value != "" ==> r == RoleOfKey(query.value)
  {
    if query.None? || query.value == "" then Some(Prosecution) else RoleOfKey(query.value)
  }

  function RoleTitle(r: Role): string {
    match r
    case Prosecution => "Прокурор"
    case Defense => "Адвокат"
    case Court => "Судья"
  }

  /** The three action buttons of each role. */
  function Actions(r: Role): seq<string> {
    match r
    case Prosecution => ["Использовать как доказательство", "Усилить другими материалами", "Отложить"]
    case Defense => ["Заявить о нарушении", "Ходатайство об исключении", "Оспорить"]
    case Court => ["Признать допустимым", "Исключить", "Запросить пояснения"]
  }

  // ---------------------------------------------------------------------------
  // What an action does to a document

  /** The effect of an action, read from its label. */
  datatype Effect = Exclude | Dispute | Use | NoEffect

  /** The checks of `handleAction`, in their order: the first that matches decides. */
  function Classify(action: string): Effect {
    if Contains(action, "исключ") || Contains(action, "Исключить") then Exclude
    else if Contains(action, "нарушен") || Contains(action, "Оспорить") then Dispute
    else if Contains(action, "Использовать") || Contains(action, "допустим") then Use
    else NoEffect
  }

  function Max(a: int, b: int): int {
    if a >= b then a else b
  }

  /** The new version of the selected document. */
  function Transition(d: Document, e: Effect, role: Role): (r: Document)
    ensures r.id == d.id && r.title == d.title && r.docType == d.docType && r.volumeId == d.volumeId
    ensures r.issues == d.issues && r.pageStart == d.pageStart && r.pageEnd == d.pageEnd
    ensures e != Use ==> r.usedBy == d.usedBy
  {
    match e
    case Exclude => d.(status := Excluded, strength := 0)
    case Dispute => d.(status := Disputed, strength := Max(20, d.strength - 30))
    case Use => d.(status := Valid, usedBy := d.usedBy + [role])
    case NoEffect => d
  }

  /** The document list after an action on the document with id `selectedId`. */
  function ApplyAction(docs: seq<Document>, selectedId: int, action: string, role: Role): (r: seq<Document>)
    ensures |r| == |docs|
    ensures forall i | 0 <= i < |docs| :: r[i].id == docs[i].id && r[i].volumeId == docs[i].volumeId
    ensures forall i | 0 <= i < |docs| && docs[i].id != selectedId :: r[i] == docs[i]
    ensures forall i | 0 <= i < |docs| && docs[i].id == selectedId :: r[i] == Transition(docs[i], Classify(action), role)
  {
    seq(|docs|, i requires 0 <= i < |docs| =>
      if docs[i].id == selectedId then Transition(docs[i], Classify(action), role) else docs[i])
  }

  /** `documents.find(d => d.id === id)`: the first document with that id. */
  function FindById(docs: seq<Document>, id: int): (r: Option<Document>)
    ensures r.Some? ==> r.value in docs && r.value.id == id
    ensures r.Some? ==> exists i | 0 <= i < |docs| :: docs[i] == r.value && forall j | 0 <= j < i :: docs[j].id != id
    ensures r.None? ==> forall d | d in docs :: d.id != id
  {
    if docs == [] then None
    else if docs[0].id == id then Some(docs[0])
    else
      var r := FindById(docs[1..], id);
      if r.Some? then
        var i :| 0 <= i < |docs[1..]| && docs[1..][i] == r.value && forall j | 0 <= j < i :: docs[1..][j].id != id;
        assert docs[i + 1] == r.value && forall j | 0 <= j < i + 1 :: docs[j].id != id;
        r
      else r
  }

  /** The log line of an action: `[time] Title: "action" → document`. */
  function LogEntry(timestamp: string, role: Role, action: string, docTitle: string): string {
    "[" + timestamp + "] " + RoleTitle(role) + ": \"" + action + "\" → " + docTitle
  }

  // ---------------------------------------------------------------------------
  // The labels of the nine buttons

  /** The prosecution's buttons: use as evidence, and two that change nothing. */
  lemma ProsecutionActionEffects()
    ensures Classify(Actions(Prosecution)[0]) == Use
    ensures Classify(Actions(Prosecution)[1]) == NoEffect
    ensures Classify(Actions(Prosecution)[2]) == NoEffect
  {
    UseAsEvidence();
    Reinforce();
    Postpone();
  }

  /** The defence's buttons: two dispute the document and the motion excludes it. */
  lemma DefenseActionEffects()
    ensures Classify(Actions(Defense)[0]) == Dispute
    ensures Classify(Actions(Defense)[1]) == Exclude
    ensures Classify(Actions(Defense)[2]) == Dispute
  {
    ClaimViolation();
    MotionToExclude();
    Contest();
  }

  /** The court's buttons: admit, exclude, and a request for explanations that changes nothing. */
  lemma CourtActionEffects()
    ensures Classify(Actions(Court)[0]) == Use
    ensures Classify(Actions(Court)[1]) == Exclude
    ensures Classify(Actions(Court)[2]) == NoEffect
  {
    Admit();
    ExcludeLabel();
    AskExplanation();
  }

  /** The four outcomes of `Classify`, read off the checks that fail and the one that matches. */
  lemma ClassifiedExclude(a: string)
    requires Contains(a, "исключ") || Contains(a, "Исключить")
    ensures Classify(a) == Exclude
  {
  }

  lemma ClassifiedDispute(a: string)
    requires !Contains(a, "исключ") && !Contains(a, "Исключить")
    requires Contains(a, "нарушен") || Contains(a, "Оспорить")
    ensures Classify(a) == Dispute
  {
  }

  lemma ClassifiedUse(a: string)
    requires !Contains(a, "исключ") && !Contains(a, "Исключить")
    requires !Contains(a, "нарушен") && !Contains(a, "Оспорить")
    requires Contains(a, "Использовать") || Contains(a, "допустим")
    ensures Classify(a) == Use
  {
  }

  lemma ClassifiedNoEffect(a: string)
    requires !Contains(a, "исключ") && !Contains(a, "Исключить")
    requires !Contains(a, "нарушен") && !Contains(a, "Оспорить")
    requires !Contains(a, "Использовать") && !Contains(a, "допустим")
    ensures Classify(a) == NoEffect
  {
  }

  lemma UseAsEvidence()
    ensures Classify("Использовать как доказательство") == Use
  {
    ActionLabels.UseAsEvidenceLacksExcludeStem();
    ActionLabels.UseAsEvidenceLacksExcludeVerb();
    ActionLabels.UseAsEvidenceLacksViolationStem();
    ActionLabels.UseAsEvidenceLacksContestVerb();
    ActionLabels.UseAsEvidenceHasUseVerb();
    ClassifiedUse("Использовать как доказательство");
  }

  lemma Reinforce()
    ensures Classify("Усилить другими материалами") == NoEffect
  {
    ActionLabels.ReinforceLacksExcludeStem();
    ActionLabels.ReinforceLacksExcludeVerb();
    ActionLabels.ReinforceLacksViolationStem();
    ActionLabels.ReinforceLacksContestVerb();
    ActionLabels.ReinforceLacksUseVerb();
    ActionLabels.ReinforceLacksAdmissibleStem();
    ClassifiedNoEffect("Усилить другими материалами");
  }

  lemma Postpone()
    ensures Classify("Отложить") == NoEffect
  {
    ActionLabels.PostponeLacksExcludeStem();
    ActionLabels.PostponeLacksExcludeVerb();
    ActionLabels.PostponeLacksViolationStem();
    ActionLabels.PostponeLacksContestVerb();
    ActionLabels.PostponeLacksUseVerb();
    ActionLabels.PostponeLacksAdmissibleStem();
    ClassifiedNoEffect("Отложить");
  }

  lemma ClaimViolation()
    ensures Classify("Заявить о нарушении") == Dispute
  {
    ActionLabels.ClaimViolationLacksExcludeStem();
    ActionLabels.ClaimViolationLacksExcludeVerb();
    ActionLabels.ClaimViolationHasViolationStem();
    ClassifiedDispute("Заявить о нарушении");
  }

  lemma MotionToExclude()
    ensures Classify("Ходатайство об исключении") == Exclude
  {
    ActionLabels.MotionToExcludeHasExcludeStem();
    ClassifiedExclude("Ходатайство об исключении");
  }

  lemma Contest()
    ensures Classify("Оспорить") == Dispute
  {
    ActionLabels.ContestLacksExcludeStem();
    ActionLabels.ContestLacksExcludeVerb();
    ActionLabels.ContestHasContestVerb();
    ClassifiedDispute("Оспорить");
  }

  lemma Admit()
    ensures Classify("Признать допустимым") == Use
  {
    ActionLabels.AdmitLacksExcludeStem();
    ActionLabels.AdmitLacksExcludeVerb();
    ActionLabels.AdmitLacksViolationStem();
    ActionLabels.AdmitLacksContestVerb();
    ActionLabels.AdmitHasAdmissibleStem();
    ClassifiedUse("Признать допустимым");
  }

  lemma ExcludeLabel()
    ensures Classify("Исключить") == Exclude
  {
    ActionLabels.ExcludeButtonHasExcludeVerb();
    ClassifiedExclude("Исключить");
  }

  lemma AskExplanation()
    ensures Classify("Запросить пояснения") == NoEffect
  {
    ActionLabels.AskExplanationLacksExcludeStem();
    ActionLabels.AskExplanationLacksExcludeVerb();
    ActionLabels.AskExplanationLacksViolationStem();
    ActionLabels.AskExplanationLacksContestVerb();
    ActionLabels.AskExplanationLacksUseVerb();
    ActionLabels.AskExplanationLacksAdmissibleStem();
    ClassifiedNoEffect("Запросить пояснения");
  }

  // ---------------------------------------------------------------------------
  // Strength and status stay consistent

  /**
    What every document satisfies from loading on: a strength in [0, 99], at
    least 20 while disputed and 0 while excluded.
   */
  predicate WellFormed(d: Document) {
    0 <= d.strength <= 99
    && (d.status == Disputed ==> d.strength >= 20)
    && (d.status == Excluded ==> d.strength == 0)
  }

  predicate AllWellFormed(docs: seq<Document>) {
    forall i | 0 <= i < |docs| :: WellFormed(docs[i])
  }

  lemma TransitionKeepsWellFormed(d: Document, e: Effect, role: Role)
    requires WellFormed(d)
    ensures WellFormed(Transition(d, e, role))
  {
  }

  lemma ActionKeepsWellFormed(docs: seq<Document>, selectedId: int, action: string, role: Role)
    requires AllWellFormed(docs)
    ensures AllWellFormed(ApplyAction(docs, selectedId, action, role))
  {
    var r := ApplyAction(docs, selectedId, action, role);
    forall i | 0 <= i < |r| ensures WellFormed(r[i]) {
      if docs[i].id == selectedId {
        TransitionKeepsWellFormed(docs[i], Classify(action), role);
      }
    }
  }

  /** One click: the selected document's id, the button's label and the role at that moment. */
  datatype Step = Step(selectedId: int, action: string, role: Role)

  function Replay(docs: seq<Document>, steps: seq<Step>): seq<Document>
    decreases |steps|
  {
    if steps == [] then docs
    else Replay(ApplyAction(docs, steps[0].selectedId, steps[0].action, steps[0].role), steps[1..])
  }

  /**
    Whatever the actions and their order, strengths stay within [0, 100], a
    disputed document keeps at least 20 (even one disputed after it was
    excluded) and an excluded one has 0; the list keeps its length.
   */
  lemma {:induction false} ReplayKeepsWellFormed(docs: seq<Document>, steps: seq<Step>)
    requires AllWellFormed(docs)
    decreases |steps|
    ensures |Replay(docs, steps)| == |docs|
    ensures AllWellFormed(Replay(docs, steps))
    ensures forall d | d in Replay(docs, steps) :: 0 <= d.strength <= 100
  {
    if steps != [] {
      var s := steps[0];
      ActionKeepsWellFormed(docs, s.selectedId, s.action, s.role);
      ReplayKeepsWellFormed(ApplyAction(docs, s.selectedId, s.action, s.role), steps[1..]);
    }
  }

  /** Disputing an excluded document gives it the minimum disputed strength, 20. */
  lemma DisputeAfterExclusion(d: Document, r1: Role, r2: Role)
    ensures Transition(Transition(d, Exclude, r1), Dispute, r2).strength == 20
  {
  }

  /** After an action the selected document is the updated first document with its id. */
  lemma {:induction false} SelectedFollowsUpdate(docs: seq<Document>, id: int, action: string, role: Role)
    ensures FindById(ApplyAction(docs, id, action, role), id)
         == match FindById(docs, id)
            case None => None
            case Some(d) => Some(Transition(d, Classify(action), role))
  {
    if docs != [] {
      var r := ApplyAction(docs, id, action, role);
      assert r[1..] == ApplyAction(docs[1..], id, action, role);
      SelectedFollowsUpdate(docs[1..], id, action, role);
    }
  }

  // ---------------------------------------------------------------------------
  // The summary

  /** `documents.filter(d => d.status === status).length`. */
  function CountStatus(docs: seq<Document>, status: DocumentStatus): (n: nat)
    ensures n <= |docs|
    ensures n == 0 <==> forall d | d in docs :: d.status != status
  {
    var r := Seqs.Filter(docs, (d: Document) => d.status == status);
    assert r != [] ==> r[0] in r;
    |r|
  }

  /** The three tallies of the summary add up to the number of documents. */
  lemma {:induction false} TalliesSum(docs: seq<Document>)
    ensures CountStatus(docs, Valid) + CountStatus(docs, Disputed) + CountStatus(docs, Excluded) == |docs|
  {
    if docs != [] {
      TalliesSum(docs[1..]);
    }
  }

  // ---------------------------------------------------------------------------
  // Loading: documents of every volume, tagged and enriched

  /** A document as the server sends it; `doc_type` and `type` may be missing. */
  datatype RawDocument = RawDocument(
    id: int,
    title: string,
    docTypeField: Option<string>,
    typeField: Option<string>,
    pageStart: int,
    pageEnd: int)

  /** A server document tagged with the id of the volume it was fetched for. */
  datatype Loaded = Loaded(raw: RawDocument, volumeId: int)

  const DefaultType: string := "Документ"

  /** `doc.doc_type || doc.type || 'Документ'`: the first of them that is present and not empty. */
  function ResolveType(docType: Option<string>, typ: Option<string>): (r: string)
    ensures r != []
    ensures docType.Some? && docType.value != [] ==> r == docType.value
    ensures !(docType.Some? && docType.value != []) && typ.Some? && typ.value != [] ==> r == typ.value
    ensures r == DefaultType || Some(r) == docType || Some(r) == typ
  {
    if docType.Some? && docType.value != "" then docType.value
    else if typ.Some? && typ.value != "" then typ.value
    else DefaultType
  }

  /** The simulated procedural defects of each document type. */
  const MockIssues: map<string, seq<string>> := map[
    "Протокол допроса" := ["Допрос проведён без адвоката", "Отсутствует подпись на л.2"],
    "Экспертиза" := ["Эксперт не предупреждён об ответственности"],
    "Постановление" := [],
    "default" := []
  ]

  /** `MOCK_ISSUES[doc.doc_type] || MOCK_ISSUES['default'] || []`. */
  function Issues(docType: Option<string>): seq<string> {
    if docType.Some? && docType.value in MockIssues then MockIssues[docType.value] else MockIssues["default"]
  }

  /** Only interrogation records and expert reports have issues; every other or missing type has none. */
  lemma IssuesTable(docType: Option<string>)
    ensures Issues(Some("Протокол допроса")) == ["Допрос проведён без адвоката", "Отсутствует подпись на л.2"]
    ensures Issues(Some("Экспертиза")) == ["Эксперт не предупреждён об ответственности"]
    ensures Issues(docType) != [] <==> docType == Some("Протокол допроса") || docType == Some("Экспертиза")
  {
  }

  /**
    The procedural data a loaded document starts with; `roll` is
    `Math.floor(Math.random() * 40)`.
   */
  function Enrich(l: Loaded, roll: int): (d: Document)
    requires 0 <= roll < 40
    ensures WellFormed(d) && d.status == Valid && d.usedBy == [] && 60 <= d.strength <= 99
    ensures d.id == l.raw.id && d.title == l.raw.title && d.volumeId == l.volumeId
    ensures d.docType == ResolveType(l.raw.docTypeField, l.raw.typeField)
    ensures d.issues == Issues(l.raw.docTypeField)
  {
    Document(l.raw.id, l.raw.title, ResolveType(l.raw.docTypeField, l.raw.typeField),
             l.raw.pageStart, l.raw.pageEnd, l.volumeId, Valid, Issues(l.raw.docTypeField), 60 + roll, [])
  }

  predicate RollsInRange(rolls: seq<int>) {
    forall i | 0 <= i < |rolls| :: 0 <= rolls[i] < 40
  }

  /** `allDocs.map(...)`, one roll per document. */
  function EnrichAll(ls: seq<Loaded>, rolls: seq<int>): (r: seq<Document>)
    requires |rolls| == |ls| && RollsInRange(rolls)
    ensures |r| == |ls| && AllWellFormed(r)
    ensures forall i | 0 <= i < |ls| :: r[i] == Enrich(ls[i], rolls[i])
  {
    seq(|ls|, i requires 0 <= i < |ls| => Enrich(ls[i], rolls[i]))
  }

  /** `docs.map(d => ({ ...d, volumeId: vol.id }))`. */
  function Tag(raws: seq<RawDocument>, volumeId: int): (r: seq<Loaded>)
    ensures |r| == |raws|
    ensures forall i | 0 <= i < |raws| :: r[i] == Loaded(raws[i], volumeId)
  {
    seq(|raws|, i requires 0 <= i < |raws| => Loaded(raws[i], volumeId))
  }

  /** The documents a volume's response contributes: all of them when it is ok, none otherwise. */
  function Fetched(response: Response<seq<RawDocument>>, volumeId: int): seq<Loaded> {
    if response.Ok? then Tag(response.payload, volumeId) else []
  }

  /** `allDocs` after the loop: the contributions of the volumes, in volume order. */
  function Collected(volumes: seq<Volume>, responses: seq<Response<seq<RawDocument>>>): seq<Loaded>
    requires |responses| == |volumes|
  {
    if volumes == [] then []
    else
      var n := |volumes| - 1;
      Collected(volumes[..n], responses[..n]) + Fetched(responses[n], volumes[n].id)
  }

  /** Every collected document is tagged with the id of one of the volumes. */
  lemma {:induction false} CollectedFromVolumes(volumes: seq<Volume>, responses: seq<Response<seq<RawDocument>>>)
    requires |responses| == |volumes|
    ensures forall l | l in Collected(volumes, responses) :: exists i | 0 <= i < |volumes| :: volumes[i].id == l.volumeId
  {
    if volumes != [] {
      var n := |volumes| - 1;
      CollectedFromVolumes(volumes[..n], responses[..n]);
      assert forall i | 0 <= i < n :: volumes[..n][i] == volumes[i];
    }
  }

  /** One more volume of the loop: its contribution is appended. */
  lemma CollectedStep(volumes: seq<Volume>, responses: seq<Response<seq<RawDocument>>>, k: nat)
    requires |responses| == |volumes| && k < |volumes|
    ensures Collected(volumes[..k + 1], responses[..k + 1])
         == Collected(volumes[..k], responses[..k]) + Fetched(responses[k], volumes[k].id)
    ensures NoneThrown(responses[..k]) && !responses[k].Thrown? ==> NoneThrown(responses[..k + 1])
  {
    assert volumes[..k + 1][..k] == volumes[..k];
    assert responses[..k + 1][..k] == responses[..k];
  }

  predicate DistinctIds(volumes: seq<Volume>) {
    forall i, j | 0 <= i < j < |volumes| :: volumes[i].id != volumes[j].id
  }

  /** `documents.filter(d => d.volumeId === volume.id)`: the list under an unfolded volume. */
  function VolumeDocuments(docs: seq<Document>, volumeId: int): (r: seq<Document>)
    ensures forall d | d in r :: d in docs && d.volumeId == volumeId
    ensures forall d | d in docs && d.volumeId == volumeId :: d in r
  {
    Seqs.Filter(docs, (d: Document) => d.volumeId == volumeId)
  }

  lemma DistinctIdsPrefix(volumes: seq<Volume>, n: nat)
    requires DistinctIds(volumes) && n <= |volumes|
    ensures DistinctIds(volumes[..n])
  {
    assert forall i | 0 <= i < n :: volumes[..n][i] == volumes[i];
  }

  /** With distinct ids, no document collected before the last volume carries the last volume's id. */
  lemma EarlierVolumesLackId(volumes: seq<Volume>, responses: seq<Response<seq<RawDocument>>>)
    requires |responses| == |volumes| && DistinctIds(volumes) && volumes != []
    ensures var n := |volumes| - 1;
      forall l | l in Collected(volumes[..n], responses[..n]) :: l.volumeId != volumes[n].id
  {
    var n := |volumes| - 1;
    var pre := volumes[..n];
    CollectedFromVolumes(pre, responses[..n]);
    forall l | l in Collected(pre, responses[..n]) ensures l.volumeId != volumes[n].id {
      var i :| 0 <= i < n && pre[i].id == l.volumeId;
      assert volumes[i].id == pre[i].id;
    }
  }

  /**
    With distinct volume ids, the documents tagged with a volume's id are
    exactly those its own response returned, in the server's order.
   */
  lemma {:induction false} VolumeSlice(volumes: seq<Volume>, responses: seq<Response<seq<RawDocument>>>, k: nat, vid: int)
    requires |responses| == |volumes| && DistinctIds(volumes)
    requires k < |volumes| && volumes[k].id == vid
    ensures Seqs.Filter(Collected(volumes, responses), (l: Loaded) => l.volumeId == vid) == Fetched(responses[k], vid)
  {
    var p := (l: Loaded) => l.volumeId == vid;
    var n := |volumes| - 1;
    var pre := volumes[..n];
    var rest := Collected(pre, responses[..n]);
    var last := Fetched(responses[n], volumes[n].id);
    Seqs.FilterConcat(rest, last, p);
    if k == n {
      EarlierVolumesLackId(volumes, responses);
      Seqs.FilterKeepsNone(rest, p);
      Seqs.FilterKeepsAll(last, p);
    } else {
      assert pre[k] == volumes[k];
      DistinctIdsPrefix(volumes, n);
      VolumeSlice(pre, responses[..n], k, vid);
      assert responses[..n][k] == responses[k];
      Seqs.FilterKeepsNone(last, p);
    }
  }

  /** An unfolded volume lists exactly the enriched documents that were fetched for it. */
  lemma VolumeLists(ls: seq<Loaded>, rolls: seq<int>, vid: int)
    requires |rolls| == |ls| && RollsInRange(rolls)
    ensures forall i | 0 <= i < |ls| && ls[i].volumeId == vid :: Enrich(ls[i], rolls[i]) in VolumeDocuments(EnrichAll(ls, rolls), vid)
    ensures forall d | d in VolumeDocuments(EnrichAll(ls, rolls), vid) ::
      exists i | 0 <= i < |ls| :: ls[i].volumeId == vid && d == Enrich(ls[i], rolls[i])
  {
    var docs := EnrichAll(ls, rolls);
    forall d | d in VolumeDocuments(docs, vid)
      ensures exists i | 0 <= i < |ls| :: ls[i].volumeId == vid && d == Enrich(ls[i], rolls[i])
    {
      var i :| 0 <= i < |docs| && docs[i] == d;
      assert ls[i].volumeId == vid && d == Enrich(ls[i], rolls[i]);
    }
  }

  /** Nothing was thrown while fetching the documents of the volumes. */
  predicate NoneThrown(responses: seq<Response<seq<RawDocument>>>) {
    forall i | 0 <= i < |responses| :: !responses[i].Thrown?
  }

  /** `volRes.ok ? await volRes.json() : []`. */
  function VolumesOf(response: Response<seq<Volume>>): seq<Volume> {
    if response.Ok? then response.payload else []
  }

  /**
    The loop of `loadCase` over the volumes: each ok response's documents are
    tagged with the volume's id and appended; `None` when a request throws,
    which abandons the load.
   */
  method CollectDocuments(volumes: seq<Volume>, responses: seq<Response<seq<RawDocument>>>)
    returns (docs: Option<seq<Loaded>>)
    requires |responses| == |volumes|
    ensures docs.None? <==> !NoneThrown(responses)
    ensures docs.Some? ==> docs.value == Collected(volumes, responses)
  {
    var allDocs: seq<Loaded> := [];
    var k := 0;
    while k < |volumes|
      invariant 0 <= k <= |volumes|
      invariant allDocs == Collected(volumes[..k], responses[..k])
      invariant NoneThrown(responses[..k])
    {
      var response := responses[k];
      if response.Thrown? {
        assert !NoneThrown(responses);
        return None;
      }
      CollectedStep(volumes, responses, k);
      if response.Ok? {
        allDocs := allDocs + Tag(response.payload, volumes[k].id);
      }
      k := k + 1;
    }
    assert volumes[..k] == volumes && responses[..k] == responses;
    return Some(allDocs);
  }

  /** The summary's figures. */
  datatype Tally = Tally(valid: nat, disputed: nat, excluded: nat, actions: nat)

  // ---------------------------------------------------------------------------
  // The page

  class SimulationPage {
    var role: Role
    var caseData: Option<CaseData>
    var selected: Option<Document>
    var expandedVolume: Option<int>
    var actionLog: seq<string>
    var showOutcome: bool

    /** Every document on the page, the selected one included, is well formed. */
    ghost predicate Valid()
      reads this
    {
      (caseData.Some? ==> AllWellFormed(caseData.value.documents))
      && (selected.Some? ==> WellFormed(selected.value))
    }

    /** The page before the case has loaded, in the role its address names. */
    constructor(initialRole: Role)
      ensures Valid()
      ensures role == initialRole && caseData == None && selected == None
      ensures expandedVolume == None && actionLog == [] && !showOutcome
    {
      role := initialRole;
      caseData := None;
      selected := None;
      expandedVolume := None;
      actionLog := [];
      showOutcome := false;
    }

    /**
      `loadCase`: the case, its volumes and each volume's documents. A request
      that throws leaves the page as it is; a non-ok answer for the volumes
      counts as no volumes, and one for a volume's documents as no documents.
      The first volume is unfolded.
     */
    method LoadCase(caseInfo: Response<()>, volumes: Response<seq<Volume>>,
                    docResponses: seq<Response<seq<RawDocument>>>, rolls: seq<int>)
      requires Valid()
      requires |docResponses| == |VolumesOf(volumes)|
      requires |rolls| == |Collected(VolumesOf(volumes), docResponses)| && RollsInRange(rolls)
      modifies this
      ensures Valid()
      ensures role == old(role) && selected == old(selected) && actionLog == old(actionLog) && showOutcome == old(showOutcome)
      ensures caseInfo.Thrown? || volumes.Thrown? || !NoneThrown(docResponses) ==>
        caseData == old(caseData) && expandedVolume == old(expandedVolume)
      ensures !(caseInfo.Thrown? || volumes.Thrown? || !NoneThrown(docResponses)) ==>
        var vols := VolumesOf(volumes);
        caseData == Some(CaseData(vols, EnrichAll(Collected(vols, docResponses), rolls)))
        && expandedVolume == (if vols != [] then Some(vols[0].id) else old(expandedVolume))
    {
      if caseInfo.Thrown? || volumes.Thrown? {
        return;
      }
      var vols := VolumesOf(volumes);
      var collected := CollectDocuments(vols, docResponses);
      if collected.None? {
        return;
      }
      var allDocs := collected.value;
      caseData := Some(CaseData(vols, EnrichAll(allDocs, rolls)));
      if vols != [] {
        expandedVolume := Some(vols[0].id);
      }
    }

    /** A role button in the header. */
    method SetRole(r: Role)
      requires Valid()
      modifies this
      ensures Valid()
      ensures role == r
      ensures caseData == old(caseData) && selected == old(selected) && expandedVolume == old(expandedVolume)
      ensures actionLog == old(actionLog) && showOutcome == old(showOutcome)
    {
      role := r;
    }

    /** A volume's header: unfolds it, or folds it when it is the unfolded one. */
    method ToggleVolume(volumeId: int)
      requires Valid()
      modifies this
      ensures Valid()
      ensures expandedVolume == if old(expandedVolume) == Some(volumeId) then None else Some(volumeId)
      ensures role == old(role) && caseData == old(caseData) && selected == old(selected)
      ensures actionLog == old(actionLog) && showOutcome == old(showOutcome)
    {
      expandedVolume := if expandedVolume == Some(volumeId) then None else Some(volumeId);
    }

    /** A document of the unfolded volume is clicked. */
    method SelectDocument(d: Document)
      requires Valid() && caseData.Some? && expandedVolume.Some?
      requires d in VolumeDocuments(caseData.value.documents, expandedVolume.value)
      modifies this
      ensures Valid()
      ensures selected == Some(d)
      ensures role == old(role) && caseData == old(caseData) && expandedVolume == old(expandedVolume)
      ensures actionLog == old(actionLog) && showOutcome == old(showOutcome)
    {
      var i :| 0 <= i < |caseData.value.documents| && caseData.value.documents[i] == d;
      selected := Some(d);
    }

    /**
      `handleAction`: without a selected document nothing happens. Otherwise
      one entry is put at the head of the log and, once the case is loaded,
      the documents with the selected id are updated and the selection
      becomes the updated document (or none if the list no longer has it).
     */
    method HandleAction(action: string, timestamp: string)
      requires Valid()
      modifies this
      ensures Valid()
      ensures role == old(role) && expandedVolume == old(expandedVolume) && showOutcome == old(showOutcome)
      ensures old(selected).None? ==>
        actionLog == old(actionLog) && caseData == old(caseData) && selected == old(selected)
      ensures old(selected).Some? ==>
        actionLog == [LogEntry(timestamp, role, action, old(selected).value.title)] + old(actionLog)
      ensures old(selected).Some? && old(caseData).None? ==>
        caseData == old(caseData) && selected == old(selected)
      ensures old(selected).Some? && old(caseData).Some? ==>
        var docs := ApplyAction(old(caseData).value.documents, old(selected).value.id, action, role);
        caseData == Some(old(caseData).value.(documents := docs))
        && selected == FindById(docs, old(selected).value.id)
    {
      if selected.None? {
        return;
      }
      var doc := selected.value;
      actionLog := [LogEntry(timestamp, role, action, doc.title)] + actionLog;
      if caseData.Some? {
        var docs := ApplyAction(caseData.value.documents, doc.id, action, role);
        ActionKeepsWellFormed(caseData.value.documents, doc.id, action, role);
        caseData := Some(caseData.value.(documents := docs));
        selected := FindById(docs, doc.id);
      }
    }

    /** "Завершить симуляцию" opens the summary and its button closes it. */
    method SetShowOutcome(show: bool)
      requires Valid()
      modifies this
      ensures Valid()
      ensures showOutcome == show
      ensures role == old(role) && caseData == old(caseData) && selected == old(selected)
      ensures expandedVolume == old(expandedVolume) && actionLog == old(actionLog)
    {
      showOutcome := show;
    }

    /** The summary: documents per status and the number of logged actions. */
    function Outcome(): (t: Tally)
      requires caseData.Some?
      reads this
      ensures t.valid + t.disputed + t.excluded == |caseData.value.documents|
      ensures t.actions == |actionLog|
    {
      var docs := caseData.value.documents;
      TalliesSum(docs);
      Tally(CountStatus(docs, DocumentStatus.Valid), CountStatus(docs, Disputed), CountStatus(docs, Excluded), |actionLog|)
    }
  }
}
