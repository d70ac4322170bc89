/**
  The document list of a case (DocumentsPage): the search box and the type
  selector narrow the list to the documents whose title contains the query
  (ignoring case) and whose type is the selected one, and each document type
  is shown with an icon.
 */
module Documents {
  import opened Text
  import Seqs

  datatype Document = Document(
    id: int,
    docType: string,
    title: string,
    volumeNumber: int,
    startPage: int,
    endPage: int,
    createdAt: string)

  /** The value of the type selector that shows every type. */
  const AllTypes: string := "all"

  /** The case-insensitive title search. */
  predicate MatchesSearch(d: Document, query: string) {
    Contains(ToLower(d.title), ToLower(query))
  }

  /** The type selector. */
  predicate MatchesFilter(d: Document, filterType: string) {
    filterType == AllTypes || d.docType == filterType
  }

  predicate Matches(d: Document, query: string, filterType: string) {
    MatchesSearch(d, query) && MatchesFilter(d, filterType)
  }

  /** `filteredDocuments`: the documents that match both the search and the selector. */
  function FilteredDocuments(docs: seq<Document>, query: string, filterType: string): (r: seq<Document>)
    ensures |r| <= |docs|
    ensures forall d | d in r :: d in docs && Matches(d, query, filterType)
    ensures forall d | d in docs && Matches(d, query, filterType) :: d in r
  {
    Seqs.Filter(docs, d => Matches(d, query, filterType))
  }

  /** The filtered list keeps the order of the loaded list. */
  lemma FilteredKeepsOrder(docs: seq<Document>, query: string, filterType: string)
    ensures Seqs.IsSubsequence(FilteredDocuments(docs, query, filterType), docs)
  {
    Seqs.FilterIsSubsequence(docs, d => Matches(d, query, filterType));
  }

  /** With the search box empty and the selector on "all", every document is listed. */
  lemma EmptySearchShowsAll(docs: seq<Document>)
    ensures FilteredDocuments(docs, "", AllTypes) == docs
  {
    forall d | d in docs ensures Matches(d, "", AllTypes) {
      ContainsEmpty(ToLower(d.title));
    }
    Seqs.FilterKeepsAll(docs, d => Matches(d, "", AllTypes));
  }

  /** With a specific type selected, every listed document has that type and a matching title. */
  lemma SelectedTypeOnly(docs: seq<Document>, query: string, filterType: string)
    requires filterType != AllTypes
    ensures forall d | d in FilteredDocuments(docs, query, filterType) ::
      d.docType == filterType && Contains(ToLower(d.title), ToLower(query))
  {
  }

  /** A query that differs only in letter case finds the same documents. */
  lemma SearchIgnoresCase(docs: seq<Document>, query: string, filterType: string)
    ensures FilteredDocuments(docs, ToLower(query), filterType) == FilteredDocuments(docs, query, filterType)
  {
    ToLowerIdempotent(query);
    Seqs.FilterAgree(docs, d => Matches(d, ToLower(query), filterType), d => Matches(d, query, filterType));
  }

  /** The icons of the known document types. */
  const Icons: map<string, string> := map[
    "протокол" := "📋",
    "постановление" := "⚖️",
    "определение" := "📜",
    "рапорт" := "📄",
    "заключение" := "🔍",
    "справка" := "📊"
  ]

  /** The icon shown for a type that has none of its own. */
  const DefaultIcon: string := "📄"

  /** `getDocTypeIcon`: the type's own icon, or the default one. */
  function DocTypeIcon(docType: string): (icon: string)
    ensures icon != []
  {
    if docType in Icons then Icons[docType] else DefaultIcon
  }

  /** The six known types get their own icons and every other type gets the default. */
  lemma IconTable(docType: string)
    ensures DocTypeIcon("протокол") == "📋"
    ensures DocTypeIcon("постановление") == "⚖️"
    ensures DocTypeIcon("определение") == "📜"
    ensures DocTypeIcon("рапорт") == "📄"
    ensures DocTypeIcon("заключение") == "🔍"
    ensures DocTypeIcon("справка") == "📊"
    ensures docType !in {"протокол", "постановление", "определение", "рапорт", "заключение", "справка"}
      ==> DocTypeIcon(docType) == DefaultIcon
  {
  }
}
