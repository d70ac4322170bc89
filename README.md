# starec-advocat: evidence rules, case lists, document search and OCR aggregation

This project models five small pieces of logic from the starec-advocat case-analysis tool and proves properties about them:

- **Courtroom simulation** (`SimulationPage`, module `Simulation`). The page loads the documents of every volume of a case and gives each one a status, issues, a strength and the roles that used it. Each action button says what it does in its label. The handler reads the label by substring, first match wins, and moves the selected document to "excluded", "disputed" or "valid". It also puts a line at the head of the action log. The summary counts the documents per status.
- **Simulation entry** (`SimulationEntryPage`, module `SimulationEntry`). A four-screen flow: introduction, case list, role choice, cabinet. It ends in the address of the simulation page for the chosen case and role.
- **Case dashboard** (`DashboardPage`, module `Dashboard`). Loading the cases, the active/archived split, deleting a case, the "continue analysis" button and the status badges.
- **Document list** (`DocumentsPage`, module `Documents`). The title search, which ignores letter case, together with the type selector, and the icon of each document type.
- **OCR aggregation** (`ocr_image_with_boxes`, module `Ocr`). Tesseract reports tokens as parallel text and confidence lists. Blank tokens are dropped. A confidence of -1 is left out of the mean and reported as 0 on the word. The mean is truncated to an integer. Any exception inside the `try` gives `("", 0, [])`.

Shared modules:

- `Seqs`: `Array.prototype.filter` and its facts.
- `Text`: `includes`, `toLowerCase`, Python's `str.strip()` and decimal rendering of integers.
- `Fetch`: the three outcomes of a request.
- `ActionLabels`: which of the keywords the simulation's action handler looks for occur in each of the nine action labels. There is one small lemma per label and keyword.

The model follows the form of each source file:

- The OCR loop and the volume loop of `loadCase` are methods with loop invariants. Each is proved equal to a specification function, and the properties are lemmas about that function.
- The two simulation pages update their fields from event handlers. They are classes whose methods state the whole new state.
- The dashboard and the document list replace their state with filter expressions. They are functions and lemmas.

## Model

| member | source | states |
|---|---|---|
| Seqs.Filter | frontend/src/pages/cases/DocumentsPage.tsx:44-48 | the kept elements are exactly the elements of the list that pass the test |
| Seqs.FilterIsSubsequence | frontend/src/pages/dashboard/DashboardPage.tsx:82-83 | a filter keeps the original order |
| Seqs.FilterConcat | frontend/src/pages/simulation/SimulationPage.tsx:92 | filtering a concatenation filters each part |
| Seqs.FilterPartition | frontend/src/pages/dashboard/DashboardPage.tsx:82-83 | a filter and its complement together hold every element as often as the list does |
| Seqs.FilterAgree | frontend/src/pages/cases/DocumentsPage.tsx:44-48 | tests that agree on the list's elements keep the same list |
| Seqs.FilterKeepsAll | frontend/src/pages/cases/DocumentsPage.tsx:44-48 | a test every element passes keeps the whole list |
| Seqs.FilterKeepsNone | frontend/src/pages/simulation/SimulationPage.tsx:269 | a test no element passes leaves nothing |
| Text.ContainsEmpty | frontend/src/pages/cases/DocumentsPage.tsx:45 | every string includes the empty string |
| Text.MissingChar | frontend/src/pages/simulation/SimulationPage.tsx:137-143 | a string lacking one character of a keyword does not include it |
| Text.Contains | frontend/src/pages/simulation/SimulationPage.tsx:137-143 | `includes`: the keyword starts at some position of the string; ContainsEmpty, MissingChar and ToLowerPreservesContains state its properties |
| Text.IsSpace | backend/app/services/ocr_service.py:79 | the characters Python's `str.isspace()` accepts and `strip()` removes; StripLeft and StripRight state that exactly these are removed |
| Text.StripLeft | backend/app/services/ocr_service.py:79 | the result is the suffix left after removing only leading white space, and it does not start with white space |
| Text.StripRight | backend/app/services/ocr_service.py:79 | the result is the prefix left after removing only trailing white space, and it does not end with white space |
| Text.Strip | backend/app/services/ocr_service.py:79 | `strip()` is `lstrip()` then `rstrip()`; StripIsTrimmedSlice, StripEnds, StripEmptyIffBlank and StripIdempotent state what it yields |
| Text.StripIsTrimmedSlice | backend/app/services/ocr_service.py:99 | `strip()` is a contiguous slice with only white space around it and none at either end |
| Text.StripEnds | backend/app/services/ocr_service.py:79 | a non-empty `strip()` result neither starts nor ends with white space |
| Text.StripEmptyIffBlank | backend/app/services/ocr_service.py:79-80 | the stripped token is empty exactly when the token is all white space |
| Text.StripIdempotent | backend/app/services/ocr_service.py:79 | stripping twice is stripping once |
| Text.ToLower | frontend/src/pages/cases/DocumentsPage.tsx:45 | lower-casing keeps the length and maps each character |
| Text.LowerChar | frontend/src/pages/cases/DocumentsPage.tsx:45 | the lower-case partner of A–Z and of the Cyrillic capitals, and any other character unchanged; LowerCharIdempotent states that lower-casing twice changes nothing |
| Text.LowerCharIdempotent | frontend/src/pages/cases/DocumentsPage.tsx:45 | lower-casing a character twice is lower-casing it once |
| Text.ToLowerIdempotent | frontend/src/pages/cases/DocumentsPage.tsx:45 | lower-casing twice is lower-casing once |
| Text.ToLowerPreservesContains | frontend/src/pages/cases/DocumentsPage.tsx:45 | a string that includes a query still includes it once both are lower-cased |
| Text.DigitChar | frontend/src/pages/simulation/SimulationEntryPage.tsx:325 | the digit character has the digit's value |
| Text.NatToString | frontend/src/pages/simulation/SimulationEntryPage.tsx:325 | a natural number renders as decimal digits with no leading zero |
| Text.NatToStringRoundTrip | frontend/src/pages/simulation/SimulationEntryPage.tsx:325 | reading the rendered digits back gives the number |
| Text.IntToString | frontend/src/pages/simulation/SimulationEntryPage.tsx:152 | `${id}`: a minus sign for a negative number, then its decimal digits; IntToStringRoundTrip reads the integer back |
| Text.IntToStringRoundTrip | frontend/src/pages/simulation/SimulationEntryPage.tsx:152 | a rendered integer, sign included, reads back as the integer |
| Documents.MatchesSearch | frontend/src/pages/cases/DocumentsPage.tsx:45 | the lower-cased title includes the lower-cased query; SearchIgnoresCase and EmptySearchShowsAll state its properties |
| Documents.MatchesFilter | frontend/src/pages/cases/DocumentsPage.tsx:46 | the selector is "all" or the document's exact type; SelectedTypeOnly states it |
| Documents.Matches | frontend/src/pages/cases/DocumentsPage.tsx:44-48 | both tests of the filter callback; FilteredDocuments states that exactly the matching documents are listed |
| Documents.FilteredDocuments | frontend/src/pages/cases/DocumentsPage.tsx:44-48 | the list holds exactly the documents whose lower-cased title includes the lower-cased query and whose type matches the selector, and it is no longer than the input |
| Documents.FilteredKeepsOrder | frontend/src/pages/cases/DocumentsPage.tsx:44-48 | the filtered list is a subsequence of the loaded list |
| Documents.EmptySearchShowsAll | frontend/src/pages/cases/DocumentsPage.tsx:45-46 | an empty query with the selector on "all" lists every document |
| Documents.SelectedTypeOnly | frontend/src/pages/cases/DocumentsPage.tsx:46 | with a specific type selected, every listed document has that type and a matching title |
| Documents.SearchIgnoresCase | frontend/src/pages/cases/DocumentsPage.tsx:45 | a lower-cased query finds the same documents as the query itself |
| Documents.DocTypeIcon | frontend/src/pages/cases/DocumentsPage.tsx:50-60 | every type gets a non-empty icon |
| Documents.IconTable | frontend/src/pages/cases/DocumentsPage.tsx:50-60 | the six known types get their own icons and every other type gets 📄 |
| Dashboard.Initial | frontend/src/pages/dashboard/DashboardPage.tsx:20-22 | the page starts with no cases, loading, and the archive folded |
| Dashboard.Load | frontend/src/pages/dashboard/DashboardPage.tsx:28-45 | an ok response sets the cases to its payload, a non-ok response or an exception sets them to empty, and loading ends either way |
| Dashboard.ActiveCases | frontend/src/pages/dashboard/DashboardPage.tsx:82 | the cases whose status is not "archived"; ActiveArchivedPartition states the split |
| Dashboard.ArchivedCases | frontend/src/pages/dashboard/DashboardPage.tsx:83 | the cases whose status is "archived"; ActiveArchivedPartition states the split |
| Dashboard.ActiveArchivedPartition | frontend/src/pages/dashboard/DashboardPage.tsx:82-83 | active and archived cases split the list by status: each case is in exactly one of them, the multisets and lengths add up, and each keeps the order |
| Dashboard.WithoutCase | frontend/src/pages/dashboard/DashboardPage.tsx:72 | the list without the cases of that id; DeleteRemovesExactlyThatCase and FilterTwice state what it keeps |
| Dashboard.DeleteAsWritten | frontend/src/pages/dashboard/DashboardPage.tsx:61-80 | a declined confirmation, a non-ok response or an exception leaves the state unchanged; on success the list comes from the list the handler captured |
| Dashboard.ConcurrentDeleteRestoresCase | frontend/src/pages/dashboard/DashboardPage.tsx:72 | two deletions from the same render end with the first deleted case back in the list |
| Dashboard.Delete | frontend/src/pages/dashboard/DashboardPage.tsx:61-80 | a declined confirmation, a non-ok response or an exception leaves the state unchanged |
| Dashboard.DeleteAgreesWithAsWritten | frontend/src/pages/dashboard/DashboardPage.tsx:72 | with one deletion in flight, the corrected deletion and the code as written agree |
| Dashboard.DeleteRemovesExactlyThatCase | frontend/src/pages/dashboard/DashboardPage.tsx:72 | a successful deletion removes exactly the cases with that id and keeps every other case, as often as it was there and in its order |
| Dashboard.DeletesCommute | frontend/src/pages/dashboard/DashboardPage.tsx:72 | deletions applied to the current list lead to the same list in either order |
| Dashboard.FilterTwice | frontend/src/pages/dashboard/DashboardPage.tsx:72 | removing one id and then another equals removing both at once |
| Dashboard.ToggleArchived | frontend/src/pages/dashboard/DashboardPage.tsx:281 | the archive button flips only whether the archive is shown |
| Dashboard.ShowsContinue | frontend/src/pages/dashboard/DashboardPage.tsx:255 | progress below 100 and at least one volume; ContinueCardsExactly states both directions |
| Dashboard.ContinueCards | frontend/src/pages/dashboard/DashboardPage.tsx:255 | the active cards that draw "continue analysis"; ContinueCardsExactly states both directions of the condition |
| Dashboard.ContinueCardsExactly | frontend/src/pages/dashboard/DashboardPage.tsx:255 | "continue analysis" is on a card exactly when the case is not archived, its progress is below 100 and it has a volume |
| Dashboard.StatusLabel | frontend/src/pages/dashboard/DashboardPage.tsx:92-100 | `labels[status]`, absent for an unknown status; StatusLabelTable lists it entry by entry |
| Dashboard.StatusLabelTable | frontend/src/pages/dashboard/DashboardPage.tsx:92-97 | the four statuses map to Активно, Обработка, Завершено and Архив; any other status has no label |
| Ocr.WordConf | backend/app/services/ocr_service.py:92 | a word's confidence is 0 for -1 and the raw confidence otherwise |
| Ocr.WordsOf | backend/app/services/ocr_service.py:78-93 | there are no more words than tokens and no word is empty |
| Ocr.ConfidencesOf | backend/app/services/ocr_service.py:81-83 | there are no more averaged confidences than tokens, each comes from the input, and none is -1 |
| Ocr.NonBlankIndices | backend/app/services/ocr_service.py:78-80 | the positions of the non-blank tokens: strictly increasing and complete |
| Ocr.Recognise | backend/app/services/ocr_service.py:54-103 | the service's result, ("", 0, []) when Tesseract raises or a non-blank token has no confidence; OcrImageWithBoxes is proved equal to it and ResultInRange bounds it |
| Ocr.OcrImageWithBoxes | backend/app/services/ocr_service.py:67-103 | the loop returns what `Recognise` specifies, and `("", 0, [])` when Tesseract raises or a non-blank token has no confidence |
| Ocr.PrefixCovered | backend/app/services/ocr_service.py:81 | a token that is blank or has a confidence keeps the prefix free of IndexError |
| Ocr.PrefixWords | backend/app/services/ocr_service.py:86-93 | one more token appends its word exactly when it is not blank |
| Ocr.PrefixConfidences | backend/app/services/ocr_service.py:81-83 | one more token appends its confidence exactly when it is not blank and not -1 |
| Ocr.PrefixNotCovered | backend/app/services/ocr_service.py:81 | a non-blank token beyond the confidence list makes the pass fail |
| Ocr.WordsAreNonBlankTokens | backend/app/services/ocr_service.py:78-93 | the j-th word is the stripped j-th non-blank token with its word confidence, and there are as many words as non-blank tokens |
| Ocr.ConfidencesAreReadTokens | backend/app/services/ocr_service.py:80-83 | the averaged confidences are the non-blank tokens' confidences other than -1, in order |
| Ocr.RawConfidences | backend/app/services/ocr_service.py:81 | the confidences read are those at the non-blank positions |
| Ocr.Sum | backend/app/services/ocr_service.py:97 | `sum(confidences)`; SumBounds bounds it by the length times the bounds of the values |
| Ocr.SumBounds | backend/app/services/ocr_service.py:97 | the sum of values within bounds lies between length × lower and length × upper bound |
| Ocr.MulMonotone | backend/app/services/ocr_service.py:97 | multiplying by a positive count keeps the order |
| Ocr.QuotientBounds | backend/app/services/ocr_service.py:97 | a quotient with a remainder smaller than the divisor lies within the bounds of the values |
| Ocr.TruncDiv | backend/app/services/ocr_service.py:97 | `int(a / n)` truncates toward zero: for a ≥ 0 the quotient is non-negative and leaves a remainder in [0, n), for a < 0 it is non-positive and leaves a remainder in (-n, 0] |
| Ocr.TruncDivBounds | backend/app/services/ocr_service.py:97 | `int(a / n)` truncated toward zero lies within any bounds of the values averaged |
| Ocr.Mean | backend/app/services/ocr_service.py:97 | `int(sum / len)` of the confidences, or 0 when there are none; MeanWithinBounds bounds it |
| Ocr.MeanWithinBounds | backend/app/services/ocr_service.py:97 | a non-empty mean lies between any lower and upper bound of the confidences |
| Ocr.WordConfsInRange | backend/app/services/ocr_service.py:92 | with confidences in [-1, 100] every word confidence lies in [0, 100] |
| Ocr.ResultInRange | backend/app/services/ocr_service.py:92-99 | with confidences in [-1, 100] the mean and every word confidence lie in [0, 100], and the text has no white space at either end |
| Simulation.RoleKey | frontend/src/pages/simulation/SimulationPage.tsx:30-49 | the ROLE_CONFIG key of each role; RoleOfKey and RoleKeyRoundTrip state that each key leads back to its role and no other key names a role |
| Simulation.RoleOfKey | frontend/src/pages/simulation/SimulationPage.tsx:30-49 | a key names a configured role only when it is that role's key |
| Simulation.RoleKeyRoundTrip | frontend/src/pages/simulation/SimulationPage.tsx:30-49 | every role's key leads back to the role |
| Simulation.InitialRole | frontend/src/pages/simulation/SimulationPage.tsx:62 | an absent or empty `role` parameter gives the prosecution; any other value gives the role it names, or none |
| Simulation.RoleTitle | frontend/src/pages/simulation/SimulationPage.tsx:30-49 | the `title` of each role; SimulationRoleKeyOpensSameRole states it agrees with the entry page's titles |
| Simulation.Actions | frontend/src/pages/simulation/SimulationPage.tsx:30-49 | the `actions` of each role; ProsecutionActionEffects, DefenseActionEffects and CourtActionEffects state the effect of each button |
| Simulation.Classify | frontend/src/pages/simulation/SimulationPage.tsx:137-146 | first match wins: an exclusion keyword, then a violation or contest keyword, then a use or admissibility keyword, otherwise no effect; the per-button lemmas state its result on all nine labels |
| Simulation.Transition | frontend/src/pages/simulation/SimulationPage.tsx:132-149 | the document's identity, type, pages, volume and issues are unchanged; only the "use" effect changes who used it |
| Simulation.ApplyAction | frontend/src/pages/simulation/SimulationPage.tsx:132-151 | the list keeps its length, order and ids; documents with another id are unchanged; those with the selected id get the transition of the action's effect |
| Simulation.FindById | frontend/src/pages/simulation/SimulationPage.tsx:153 | `find`: the found document is the first one in the list with that id; none is found only when no document has the id |
| Simulation.LogEntry | frontend/src/pages/simulation/SimulationPage.tsx:126-128 | the log line `[time] Title: "action" → document`; HandleAction puts it at the head of the log |
| Simulation.ProsecutionActionEffects | frontend/src/pages/simulation/SimulationPage.tsx:35 | the prosecution's buttons: the first uses the document, the other two change nothing |
| Simulation.DefenseActionEffects | frontend/src/pages/simulation/SimulationPage.tsx:41 | the defence's buttons: the first and third dispute, the motion excludes |
| Simulation.CourtActionEffects | frontend/src/pages/simulation/SimulationPage.tsx:47 | the court's buttons: admit uses, exclude excludes, asking for explanations changes nothing |
| Simulation.UseAsEvidence | frontend/src/pages/simulation/SimulationPage.tsx:143 | "Использовать как доказательство" is classified as use |
| Simulation.Reinforce | frontend/src/pages/simulation/SimulationPage.tsx:137-146 | "Усилить другими материалами" matches no check |
| Simulation.Postpone | frontend/src/pages/simulation/SimulationPage.tsx:137-146 | "Отложить" matches no check |
| Simulation.ClaimViolation | frontend/src/pages/simulation/SimulationPage.tsx:140 | "Заявить о нарушении" is classified as dispute |
| Simulation.MotionToExclude | frontend/src/pages/simulation/SimulationPage.tsx:137 | "Ходатайство об исключении" is classified as exclusion |
| Simulation.Contest | frontend/src/pages/simulation/SimulationPage.tsx:140 | "Оспорить" is classified as dispute |
| Simulation.Admit | frontend/src/pages/simulation/SimulationPage.tsx:143 | "Признать допустимым" is classified as use |
| Simulation.ExcludeLabel | frontend/src/pages/simulation/SimulationPage.tsx:137 | "Исключить" is classified as exclusion |
| Simulation.AskExplanation | frontend/src/pages/simulation/SimulationPage.tsx:137-146 | "Запросить пояснения" matches no check |
| Simulation.TransitionKeepsWellFormed | frontend/src/pages/simulation/SimulationPage.tsx:137-148 | every effect keeps strength in [0, 99], at least 20 when disputed and 0 when excluded |
| Simulation.ActionKeepsWellFormed | frontend/src/pages/simulation/SimulationPage.tsx:132-151 | an action keeps every document of the list well formed |
| Simulation.Replay | frontend/src/pages/simulation/SimulationPage.tsx:132-151 | actions applied one after the other; ReplayKeepsWellFormed states what every sequence keeps |
| Simulation.ReplayKeepsWellFormed | frontend/src/pages/simulation/SimulationPage.tsx:123-155 | after any sequence of actions the list has the same length, strengths are in [0, 100], disputed ones are at least 20 and excluded ones are 0 |
| Simulation.DisputeAfterExclusion | frontend/src/pages/simulation/SimulationPage.tsx:138-142 | disputing an excluded document sets its strength to 20 |
| Simulation.SelectedFollowsUpdate | frontend/src/pages/simulation/SimulationPage.tsx:153 | after an action, the selection is the updated first document with the selected id, or none if there is none |
| Simulation.CountStatus | frontend/src/pages/simulation/SimulationPage.tsx:583-597 | the number of documents with a status: at most the number of documents, and 0 exactly when no document has it |
| Simulation.TalliesSum | frontend/src/pages/simulation/SimulationPage.tsx:583-597 | the valid, disputed and excluded counts add up to the number of documents |
| Simulation.ResolveType | frontend/src/pages/simulation/SimulationPage.tsx:99 | the type is `doc_type` when present and non-empty, else `type` when present and non-empty, else Документ; it is never empty |
| Simulation.Issues | frontend/src/pages/simulation/SimulationPage.tsx:101 | the MOCK_ISSUES entry of the type, or the default entry; IssuesTable lists it |
| Simulation.IssuesTable | frontend/src/pages/simulation/SimulationPage.tsx:52-57 | interrogation records and expert reports get their listed issues; every other or missing type gets none |
| Simulation.Enrich | frontend/src/pages/simulation/SimulationPage.tsx:97-104 | a loaded document starts valid, unused, with strength in [60, 99], its resolved type, its issues, and its id, title and volume kept |
| Simulation.EnrichAll | frontend/src/pages/simulation/SimulationPage.tsx:97-104 | each document is enriched with its own roll, and all are well formed |
| Simulation.Tag | frontend/src/pages/simulation/SimulationPage.tsx:91 | each document of a volume is tagged with the volume's id, in order |
| Simulation.Fetched | frontend/src/pages/simulation/SimulationPage.tsx:89-93 | an ok response's documents tagged with the volume id, none otherwise; CollectedStep and VolumeSlice state what it contributes |
| Simulation.VolumesOf | frontend/src/pages/simulation/SimulationPage.tsx:83 | the payload of an ok volumes response, otherwise empty; LoadCase states the loaded volumes |
| Simulation.Collected | frontend/src/pages/simulation/SimulationPage.tsx:87-94 | the documents the volume loop accumulates; CollectDocuments is proved equal to it, and CollectedFromVolumes, CollectedStep and VolumeSlice state what it holds |
| Simulation.CollectedFromVolumes | frontend/src/pages/simulation/SimulationPage.tsx:86-94 | every collected document carries the id of one of the volumes |
| Simulation.CollectedStep | frontend/src/pages/simulation/SimulationPage.tsx:87-93 | one more volume appends its ok response's documents |
| Simulation.CollectDocuments | frontend/src/pages/simulation/SimulationPage.tsx:86-94 | the loop yields the volumes' documents concatenated in volume order, skipping non-ok responses, and gives up exactly when a request throws |
| Simulation.VolumeDocuments | frontend/src/pages/simulation/SimulationPage.tsx:268-269 | the list under a volume holds exactly the documents with that volume's id |
| Simulation.VolumeSlice | frontend/src/pages/simulation/SimulationPage.tsx:268-269 | with distinct volume ids, the documents under a volume are exactly those its own response returned, in order |
| Simulation.VolumeLists | frontend/src/pages/simulation/SimulationPage.tsx:268-269 | an unfolded volume lists exactly the enriched documents fetched for it |
| Simulation.SimulationPage.constructor | frontend/src/pages/simulation/SimulationPage.tsx:64-69 | the page starts in the given role with no case, no selection, no unfolded volume, an empty log and the summary closed |
| Simulation.SimulationPage.LoadCase | frontend/src/pages/simulation/SimulationPage.tsx:74-120 | a throwing request leaves the page unchanged; otherwise the case holds the volumes and their enriched documents and the first volume is unfolded |
| Simulation.SimulationPage.SetRole | frontend/src/pages/simulation/SimulationPage.tsx:199 | a role button changes only the role |
| Simulation.SimulationPage.ToggleVolume | frontend/src/pages/simulation/SimulationPage.tsx:251 | a volume header folds the unfolded volume and unfolds any other; nothing else changes |
| Simulation.SimulationPage.SelectDocument | frontend/src/pages/simulation/SimulationPage.tsx:273 | clicking a document of the unfolded volume selects it and changes nothing else |
| Simulation.SimulationPage.HandleAction | frontend/src/pages/simulation/SimulationPage.tsx:123-155 | with no selection nothing changes; otherwise exactly one entry goes to the head of the log, and with a loaded case the list is updated by the action and the selection follows the updated document; documents stay well formed |
| Simulation.SimulationPage.SetShowOutcome | frontend/src/pages/simulation/SimulationPage.tsx:216 | the finish button opens the summary and its close button closes it; nothing else changes |
| Simulation.SimulationPage.Outcome | frontend/src/pages/simulation/SimulationPage.tsx:583-604 | the summary's three tallies add up to the number of documents, and the action count is the log's length |
| SimulationEntry.RoleKey | frontend/src/pages/simulation/SimulationEntryPage.tsx:7-28 | this page's keys of the ROLES table; AsWrittenKeysMissTheSimulation states that the simulation page reads only one of them |
| SimulationEntry.RoleTitle | frontend/src/pages/simulation/SimulationEntryPage.tsx:7-29 | the `title` of each role in ROLES; SimulationRoleKeyOpensSameRole states that the simulation page shows the same titles |
| SimulationEntry.CaseLabel | frontend/src/pages/simulation/SimulationEntryPage.tsx:152 | a case is headed by its number, or "Дело #" and its id when the number is empty; never by nothing |
| SimulationEntry.AnalysisUrlFor | frontend/src/pages/simulation/SimulationEntryPage.tsx:325 | the address `/simulation/${id}?role=${key}`; AnalysisUrlParts states its four parts |
| SimulationEntry.AnalysisUrlParts | frontend/src/pages/simulation/SimulationEntryPage.tsx:325 | the address is /simulation/, then the case id, then ?role=, then the role key |
| SimulationEntry.AnalysisUrlAsWritten | frontend/src/pages/simulation/SimulationEntryPage.tsx:325 | the start button's address as written, with this page's role key; AsWrittenKeysMissTheSimulation shows the simulation cannot read two of the keys |
| SimulationEntry.Counterpart | frontend/src/pages/simulation/SimulationEntryPage.tsx:5-35 | the simulation page's role for each role of this page; SimulationRoleKeyOpensSameRole states that the two have the same title |
| SimulationEntry.SimulationRoleKey | frontend/src/pages/simulation/SimulationEntryPage.tsx:325 | the simulation page's key for the role; SimulationRoleKeyOpensSameRole states that it opens the simulation in that role |
| SimulationEntry.AnalysisUrl | frontend/src/pages/simulation/SimulationEntryPage.tsx:325 | the corrected address; StartAnalysis returns it, and AnalysisUrlParts states its parts |
| SimulationEntry.AsWrittenKeysMissTheSimulation | frontend/src/pages/simulation/SimulationEntryPage.tsx:325 | the keys "prosecutor" and "judge" this page writes name no role of the simulation page; only "defense" does |
| SimulationEntry.SimulationRoleKeyOpensSameRole | frontend/src/pages/simulation/SimulationEntryPage.tsx:325 | with the simulation page's keys every role arrives as its counterpart, with the same title |
| SimulationEntry.SimulationEntryPage.constructor | frontend/src/pages/simulation/SimulationEntryPage.tsx:42-45 | the page starts on the introduction as prosecutor with no cases and no chosen case |
| SimulationEntry.SimulationEntryPage.LoadCases | frontend/src/pages/simulation/SimulationEntryPage.tsx:48-59 | from any screen, including a response arriving after the user has moved on, the case list is shown next with the chosen case and role kept; the cases are replaced only by an ok response |
| SimulationEntry.SimulationEntryPage.ChooseCase | frontend/src/pages/simulation/SimulationEntryPage.tsx:61-64 | choosing a case records it and moves to the role screen |
| SimulationEntry.SimulationEntryPage.ChooseRole | frontend/src/pages/simulation/SimulationEntryPage.tsx:66-69 | choosing a role records it and moves to the cabinet |
| SimulationEntry.SimulationEntryPage.BackToCases | frontend/src/pages/simulation/SimulationEntryPage.tsx:260 | "back" goes from the role screen to the case list and keeps the chosen case |
| SimulationEntry.SimulationEntryPage.SwitchRole | frontend/src/pages/simulation/SimulationEntryPage.tsx:308 | the cabinet's role buttons change only the role, and the cabinet stays open |
| SimulationEntry.SimulationEntryPage.ChangeRole | frontend/src/pages/simulation/SimulationEntryPage.tsx:440 | "Сменить роль" goes from the cabinet back to the role screen and keeps the rest |
| SimulationEntry.SimulationEntryPage.StartAnalysis | frontend/src/pages/simulation/SimulationEntryPage.tsx:325 | the address names the chosen case and a key under which the simulation page opens in the current role |

## Left out

- Network, storage and navigation: every `fetch`, the bearer token, `localStorage` and `navigate`. Each request is an input that ends ok with a payload, not ok, or thrown.
- Rendering: markup, styles, `alert`/`confirm` dialogs (the answer to `confirm` is an input), console output, and the hover state of the entry page's role cards.
- Non-deterministic values are inputs. The random part of a document's strength is a roll in [0, 40). The log's timestamp is an opaque string.
- The simulation page's case header is not modelled: the id, number and title fallbacks and `parseInt` of the route. The case request matters only in whether it throws.
- Fields the simulation page spreads through unchanged, such as `date`, are not modelled.
- Simulation.SimulationPage.HandleAction: the handler calls `push` on the list element's own `usedBy` array, which the previous selection shares. The model gives the new document a new list and does not model that aliasing.
- Simulation.SimulationPage: the role is always a configured role. A page opened with an unknown `role` parameter has no configuration and cannot render its analysis panel. `Simulation.InitialRole` returns `None` for it, and the model stops there.
- JavaScript object lookups of keys such as `constructor`, which come from the prototype rather than from the tables (role configuration, issues, icons, badge labels), are not modelled.
- Text.LowerChar: lower-cases only A–Z and the Cyrillic capitals U+0400–U+042F. Other scripts and special cases of `toLowerCase` are not modelled.
- The document list's own loading (`loadDocuments`) and the dashboard's navigation handlers (create, open and log out) are not modelled. They are fetch and navigation only.
- Ocr.Recognise: `preprocess_image` and `processed_image.size` run before the `try` (lines 64-65), so an exception there reaches the caller instead of giving ("", 0, []); preprocessing is not modelled.
- Text.IntToString: renders every integer in plain decimal digits; JavaScript writes a magnitude of 1e21 or more in exponent form ("1e+21"), which no case id reaches.
- Ocr.OcrImageWithBoxes: word coordinates and their rounding (lines 88-91), image preprocessing and the Tesseract calls themselves are not modelled. Tesseract's outputs are inputs, and `None` means the call raised. Of the exceptions the loop can raise, only a confidence list shorter than the text list is modelled.
- Ocr.Recognise: the mean is exact integer division truncated toward zero. Python's float division, which can round for very large sums, is not modelled. Confidences are integers.
- `ocr_image` (lines 106-109), which drops the words from the result, is not modelled.
- SimulationEntry.SimulationEntryPage.StartAnalysis: returns the address with the simulation page's key for the role (`prosecution`, `defense`, `court`). The code writes the entry page's own key. That address is `SimulationEntry.AnalysisUrlAsWritten`; see Findings.

## Findings

| source | as written | input that shows it | evidently intended | confidence | as-written member | corrected member |
|---|---|---|---|---|---|---|
| frontend/src/pages/dashboard/DashboardPage.tsx:72 | a successful deletion sets the list to the list captured when the page last rendered, minus the case | cases [a, b]; delete a and then b before either response arrives; both responses are ok; the list ends as [a] | remove the case from the list as it is when the response arrives | not executed; medium | Dashboard.ConcurrentDeleteRestoresCase | Dashboard.DeletesCommute |
| frontend/src/pages/simulation/SimulationEntryPage.tsx:325 | the start button passes `?role=prosecutor`, `?role=defense` or `?role=judge`, the entry page's own keys | choose the prosecutor or the judge and start the analysis; the simulation page (SimulationPage.tsx:62, 71) looks up `prosecutor` or `judge` in a configuration keyed `prosecution`, `defense`, `court` and finds nothing | open the simulation in the role chosen on the entry page | not executed; high | SimulationEntry.AsWrittenKeysMissTheSimulation | SimulationEntry.SimulationRoleKeyOpensSameRole |
