/** The search page: the result list is the search table filtered by a
    case-insensitive text match and by the selected tab, and each shown
    title and description is split around the occurrences of the query so
    that they can be highlighted. */
module Search {
  import opened Wrappers
  import opened Seqs
  import opened Strings

  datatype Category = Appointment | Location | Resource | Contact | Health

  datatype SearchResult = SearchResult(
    id: string,
    title: string,
    description: string,
    category: Category,
    link: string,
    date: Option<string>,
    highlight: Option<string>)

  /** The value the tabs use for each category. */
  function CategoryName(c: Category): string
  {
    match c
    case Appointment => "appointment"
    case Location => "location"
    case Resource => "resource"
    case Contact => "contact"
    case Health => "health"
  }

  /** The table the page searches. */
  const SearchData: seq<SearchResult> := [
    SearchResult("app-1", "COVID-19 Vaccination", "Scheduled for Nov 15, 2023 at Central Hospital",
      Appointment, "/appointments", Some("2023-11-15T10:30:00"), Some("covid")),
    SearchResult("app-2", "Flu Shot Appointment", "Scheduled for Dec 3, 2023 at Neighborhood Clinic",
      Appointment, "/appointments", Some("2023-12-03T14:00:00"), Some("flu")),
    SearchResult("loc-1", "Central Hospital Testing Center", "PCR testing available daily 8AM-5PM",
      Location, "/map", None, Some("testing")),
    SearchResult("loc-2", "Community Vaccination Site", "Walk-ins welcome for COVID-19 and flu vaccines",
      Location, "/map", None, Some("vaccination")),
    SearchResult("loc-3", "Downtown Medical Center", "COVID-19 treatment and testing center",
      Location, "/map", None, Some("covid")),
    SearchResult("res-1", "COVID-19 Prevention Guidelines", "Official guidelines on preventing the spread of COVID-19",
      Resource, "/resources", None, Some("prevention")),
    SearchResult("res-2", "Pandemic Mental Health Resources", "Support for maintaining mental wellbeing during pandemics",
      Resource, "/resources", None, Some("mental health")),
    SearchResult("res-3", "Vaccine Information Sheet", "Detailed information about available vaccines and their efficacy",
      Resource, "/resources", None, Some("vaccine")),
    SearchResult("health-1", "Symptom Checker", "Check your symptoms against known pandemic illnesses",
      Health, "/health", None, Some("symptoms")),
    SearchResult("health-2", "Vaccination Status", "Your COVID-19 vaccination record and status",
      Health, "/health", None, Some("vaccination")),
    SearchResult("contact-1", "Dr. Sarah Johnson", "Primary care physician, Central Hospital",
      Contact, "/appointments", None, Some("doctor")),
    SearchResult("contact-2", "Health Department Hotline", "For reporting symptoms and emergencies",
      Contact, "/resources", None, Some("emergency"))
  ]

  // ---------------------------------------------------------------------
  // Filtering

  /** The text test: an empty query matches everything, otherwise the
      lower-cased title or description must contain the lower-cased query. */
  predicate MatchesSearch(r: SearchResult, query: string)
  {
    query == "" || ContainsIgnoringCase(r.title, query) || ContainsIgnoringCase(r.description, query)
  }

  /** The tab test: `"all"` keeps everything, any other tab its category. */
  predicate MatchesCategory(r: SearchResult, tab: string)
  {
    tab == "all" || CategoryName(r.category) == tab
  }

  /** `filteredResults` over a table `data`. */
  function FilterResults(data: seq<SearchResult>, query: string, tab: string): (r: seq<SearchResult>)
    ensures IsSubsequence(r, data)
    ensures forall x :: x in r <==> x in data && MatchesSearch(x, query) && MatchesCategory(x, tab)
  {
    Filter(data, x => MatchesSearch(x, query) && MatchesCategory(x, tab))
  }

  /** The result cards the page renders: none while the query is empty,
      when Quick Access and Recent Searches take their place, and otherwise
      `filteredResults` over the page's own table, every card matching the
      query and the tab. */
  function DisplayedResults(query: string, tab: string): (shown: seq<SearchResult>)
    ensures query == "" ==> shown == []
    ensures IsSubsequence(shown, SearchData)
    ensures forall x :: x in shown ==> ContainsIgnoringCase(x.title, query) || ContainsIgnoringCase(x.description, query)
    ensures query != "" ==> forall x :: x in shown <==> x in SearchData && MatchesSearch(x, query) && MatchesCategory(x, tab)
  {
    if query == "" then [] else FilterResults(SearchData, query, tab)
  }

  /** With an empty query the results are exactly the entries of the tab. */
  lemma EmptyQueryKeepsCategory(data: seq<SearchResult>, tab: string)
    ensures FilterResults(data, "", tab) == Filter(data, x => MatchesCategory(x, tab))
  {
    FilterExtensional(data, x => MatchesSearch(x, "") && MatchesCategory(x, tab), x => MatchesCategory(x, tab));
  }

  /** With an empty query on the "all" tab the whole table is shown. */
  lemma EmptyQueryAllTabShowsEverything(data: seq<SearchResult>)
    ensures FilterResults(data, "", "all") == data
  {
    FilterKeepsAll(data, x => MatchesSearch(x, "") && MatchesCategory(x, "all"));
  }

  /** The empty-query guard changes nothing: every text contains the empty
      string, so the text test is the containment test for every query. */
  lemma EmptyQueryGuardRedundant(r: SearchResult, query: string)
    ensures MatchesSearch(r, query) <==> ContainsIgnoringCase(r.title, query) || ContainsIgnoringCase(r.description, query)
  {
    if query == "" {
      assert ToLower(query) == "";
      ContainsEmpty(ToLower(r.title));
    }
  }

  /** A category tab shows only entries of that category. */
  lemma TabSelectsCategory(data: seq<SearchResult>, query: string, c: Category)
    ensures forall x :: x in FilterResults(data, query, CategoryName(c)) ==> x.category == c
  {
    forall x | x in FilterResults(data, query, CategoryName(c)) ensures x.category == c {
      assert CategoryName(x.category) == CategoryName(c);
      assert CategoryName(x.category)[0] == CategoryName(c)[0];
    }
  }

  // ---------------------------------------------------------------------
  // Highlighting

  /** A case-insensitive occurrence of `q` starts at position `i` of `text`. */
  predicate MatchesAt(text: string, q: string, i: int)
  {
    0 <= i && i + |q| <= |text| && ToLower(text[i..i + |q|]) == ToLower(q)
  }

  /** `text` holds no case-insensitive occurrence of `q`. */
  ghost predicate NoMatch(text: string, q: string)
  {
    forall j :: !MatchesAt(text, q, j)
  }

  /** The leftmost occurrence at or after `from`, as the regular expression
      search finds it. */
  function FirstMatchFrom(text: string, q: string, from: nat): (r: Option<nat>)
    ensures r.Some? ==> from <= r.value && MatchesAt(text, q, r.value)
    ensures r.Some? ==> forall j :: from <= j < r.value ==> !MatchesAt(text, q, j)
    ensures r.None? ==> forall j :: from <= j ==> !MatchesAt(text, q, j)
    decreases |text| - from
  {
    if from + |q| > |text| then None
    else if MatchesAt(text, q, from) then Some(from)
    else FirstMatchFrom(text, q, from + 1)
  }

  /** `text.split(new RegExp('(' + q + ')', 'gi'))` for a literal `q`: the
      pieces between occurrences, with each occurrence kept as a piece of
      its own in between. */
  function SplitAround(text: string, q: string): (pieces: seq<string>)
    requires q != ""
    ensures |pieces| % 2 == 1
    decreases |text|
  {
    match FirstMatchFrom(text, q, 0)
    case None => [text]
    case Some(i) =>
      var rest := SplitAround(text[i + |q|..], q);
      assert (|rest| + 2) % 2 == |rest| % 2;
      [text[..i], text[i..i + |q|]] + rest
  }

  /** A match inside a prefix is a match in the whole text. */
  lemma MatchInPrefix(text: string, q: string, i: nat, j: int)
    requires i <= |text| && MatchesAt(text[..i], q, j)
    ensures MatchesAt(text, q, j)
  {
    assert text[..i][j..j + |q|] == text[j..j + |q|];
  }

  /** The split pieces spell the text. */
  lemma {:induction false} SplitAroundSpells(text: string, q: string)
    requires q != ""
    ensures Concat(SplitAround(text, q)) == text
    decreases |text|
  {
    match FirstMatchFrom(text, q, 0)
    case None =>
      assert SplitAround(text, q) == [text];
      assert Concat([text]) == text + Concat([]);
    case Some(i) =>
      var before, occurrence, after := text[..i], text[i..i + |q|], text[i + |q|..];
      var rest := SplitAround(after, q);
      assert SplitAround(text, q) == [before, occurrence] + rest;
      SplitAroundSpells(after, q);
      ConcatAppend([before, occurrence], rest);
      assert Concat([occurrence]) == occurrence + Concat([]);
      calc {
        Concat(SplitAround(text, q));
        Concat([before, occurrence]) + Concat(rest);
        (before + Concat([occurrence])) + after;
        before + occurrence + after;
        text;
      }
  }

  /** The pieces at odd positions are the occurrences of the query. */
  lemma {:induction false} SplitAroundOccurrences(text: string, q: string)
    requires q != ""
    ensures forall k :: 0 <= k < |SplitAround(text, q)| && k % 2 == 1 ==>
      ToLower(SplitAround(text, q)[k]) == ToLower(q)
    decreases |text|
  {
    match FirstMatchFrom(text, q, 0)
    case None =>
    case Some(i) =>
      var rest := SplitAround(text[i + |q|..], q);
      SplitAroundOccurrences(text[i + |q|..], q);
      var parts := [text[..i], text[i..i + |q|]] + rest;
      assert SplitAround(text, q) == parts;
      forall k | 0 <= k < |parts| && k % 2 == 1 ensures ToLower(parts[k]) == ToLower(q) {
        if k >= 2 {
          assert parts[k] == rest[k - 2];
        }
      }
  }

  /** The pieces at even positions, between occurrences, hold none. */
  lemma {:induction false} SplitAroundGaps(text: string, q: string)
    requires q != ""
    ensures forall k :: 0 <= k < |SplitAround(text, q)| && k % 2 == 0 ==>
      NoMatch(SplitAround(text, q)[k], q)
    decreases |text|
  {
    match FirstMatchFrom(text, q, 0)
    case None =>
    case Some(i) =>
      var rest := SplitAround(text[i + |q|..], q);
      SplitAroundGaps(text[i + |q|..], q);
      var parts := [text[..i], text[i..i + |q|]] + rest;
      assert SplitAround(text, q) == parts;
      forall j ensures !MatchesAt(text[..i], q, j) {
        if MatchesAt(text[..i], q, j) {
          MatchInPrefix(text, q, i, j);
        }
      }
      forall k | 0 <= k < |parts| && k % 2 == 0 ensures NoMatch(parts[k], q) {
        if k >= 2 {
          assert parts[k] == rest[k - 2];
        }
      }
  }

  /** Where piece `k` of a split starts in the text the pieces spell. */
  function PieceStart(pieces: seq<string>, k: nat): nat
    requires k <= |pieces|
  {
    |Concat(pieces[..k])|
  }

  /** No occurrence of `q` in `text` starts anywhere inside piece `k`. */
  ghost predicate NoMatchStartsIn(text: string, q: string, pieces: seq<string>, k: nat)
    requires k < |pieces|
  {
    forall pos :: PieceStart(pieces, k) <= pos < PieceStart(pieces, k) + |pieces[k]| ==> !MatchesAt(text, q, pos)
  }

  /** A match in a suffix of the text is a match in the suffix itself. */
  lemma MatchInSuffix(text: string, q: string, offset: nat, m: nat)
    requires offset <= |text| && MatchesAt(text, q, offset + m)
    ensures MatchesAt(text[offset..], q, m)
  {
    assert text[offset..][m..m + |q|] == text[offset + m..offset + m + |q|];
  }

  /** Putting two pieces in front shifts the start of every later piece by
      their lengths. */
  lemma PieceStartShift(before: string, occurrence: string, rest: seq<string>, k: nat)
    requires 2 <= k <= |rest| + 2
    ensures PieceStart([before, occurrence] + rest, k) == |before| + |occurrence| + PieceStart(rest, k - 2)
  {
    assert ([before, occurrence] + rest)[..k] == [before, occurrence] + rest[..k - 2];
    ConcatAppend([before, occurrence], rest[..k - 2]);
    assert Concat([occurrence]) == occurrence + Concat([]);
  }

  /** No match starting in a piece of a suffix's split means none starting
      at the corresponding positions of the whole text. */
  lemma NoMatchShifted(text: string, q: string, offset: nat, rest: seq<string>, k: nat)
    requires offset <= |text| && k < |rest|
    requires NoMatchStartsIn(text[offset..], q, rest, k)
    ensures forall pos :: offset + PieceStart(rest, k) <= pos < offset + PieceStart(rest, k) + |rest[k]| ==>
      !MatchesAt(text, q, pos)
  {
    forall pos | offset + PieceStart(rest, k) <= pos < offset + PieceStart(rest, k) + |rest[k]|
      ensures !MatchesAt(text, q, pos)
    {
      if MatchesAt(text, q, pos) {
        MatchInSuffix(text, q, offset, pos - offset);
      }
    }
  }

  /** Without any match, the one piece of the split is clean. */
  lemma WholeTextClean(text: string, q: string)
    requires FirstMatchFrom(text, q, 0).None?
    ensures NoMatchStartsIn(text, q, [text], 0)
  {
    assert [text][..0] == [];
  }

  /** The stretch before the first match is clean. */
  lemma FirstPieceClean(text: string, q: string, i: nat, parts: seq<string>)
    requires FirstMatchFrom(text, q, 0) == Some(i)
    requires |parts| >= 1 && parts[0] == text[..i]
    ensures NoMatchStartsIn(text, q, parts, 0)
  {
    assert parts[..0] == [];
  }

  /** A clean piece of the split of the text after the first match is clean
      at its place in the whole text. */
  lemma LaterPieceClean(text: string, q: string, i: nat, rest: seq<string>, k: nat)
    requires i + |q| <= |text| && 2 <= k < |rest| + 2
    requires NoMatchStartsIn(text[i + |q|..], q, rest, k - 2)
    ensures NoMatchStartsIn(text, q, [text[..i], text[i..i + |q|]] + rest, k)
  {
    var parts := [text[..i], text[i..i + |q|]] + rest;
    PieceStartShift(text[..i], text[i..i + |q|], rest, k);
    assert parts[k] == rest[k - 2];
    NoMatchShifted(text, q, i + |q|, rest, k - 2);
  }

  /** The split cuts at the leftmost occurrences: no occurrence of the query
      starts at any position of the text that an even piece covers, so each
      occurrence piece begins at the first match after the previous one. */
  lemma {:induction false} SplitAroundCutsLeftmost(text: string, q: string)
    requires q != ""
    ensures forall k :: 0 <= k < |SplitAround(text, q)| && k % 2 == 0 ==>
      NoMatchStartsIn(text, q, SplitAround(text, q), k)
    decreases |text|
  {
    match FirstMatchFrom(text, q, 0)
    case None =>
      WholeTextClean(text, q);
    case Some(i) =>
      var rest := SplitAround(text[i + |q|..], q);
      var parts := [text[..i], text[i..i + |q|]] + rest;
      assert SplitAround(text, q) == parts;
      SplitAroundCutsLeftmost(text[i + |q|..], q);
      FirstPieceClean(text, q, i, parts);
      forall k | 2 <= k < |parts| && k % 2 == 0 ensures NoMatchStartsIn(text, q, parts, k) {
        LaterPieceClean(text, q, i, rest, k);
      }
  }

  /** A piece of highlighted output: marked pieces are wrapped in a span. */
  datatype Part = Part(text: string, highlighted: bool)

  function Texts(parts: seq<Part>): (texts: seq<string>)
    ensures |texts| == |parts|
    ensures forall k :: 0 <= k < |parts| ==> texts[k] == parts[k].text
  {
    seq(|parts|, k requires 0 <= k < |parts| => parts[k].text)
  }

  /** A stretch of text that holds no occurrence of `q` is not equal to `q`
      ignoring case. */
  lemma GapsUnmarked(pieces: seq<string>, q: string)
    requires q != ""
    requires forall k :: 0 <= k < |pieces| && k % 2 == 0 ==> NoMatch(pieces[k], q)
    ensures forall k :: 0 <= k < |pieces| && k % 2 == 0 ==> ToLower(pieces[k]) != ToLower(q)
  {
    forall k | 0 <= k < |pieces| && k % 2 == 0 ensures ToLower(pieces[k]) != ToLower(q) {
      if ToLower(pieces[k]) == ToLower(q) {
        assert pieces[k][0..|q|] == pieces[k];
        assert MatchesAt(pieces[k], q, 0);
      }
    }
  }

  /** `highlightText(text, q)`: no query leaves the text whole and unmarked;
      otherwise each piece of the split is marked when it equals the query
      ignoring case. The pieces spell the original text, and since no
      stretch between occurrences can equal the query, a piece is marked
      exactly when it is an occurrence. */
  function HighlightText(text: string, q: string): (parts: seq<Part>)
    ensures Concat(Texts(parts)) == text
    ensures q == "" ==> parts == [Part(text, false)]
    ensures q != "" ==> Texts(parts) == SplitAround(text, q)
    ensures forall k :: 0 <= k < |parts| ==>
      (parts[k].highlighted <==> q != "" && ToLower(parts[k].text) == ToLower(q))
    ensures forall k :: 0 <= k < |parts| ==> (parts[k].highlighted <==> q != "" && k % 2 == 1)
  {
    if q == "" then
      assert Concat([text]) == text + Concat([]);
      [Part(text, false)]
    else
      var pieces := SplitAround(text, q);
      SplitAroundSpells(text, q);
      SplitAroundOccurrences(text, q);
      SplitAroundGaps(text, q);
      GapsUnmarked(pieces, q);
      var parts := seq(|pieces|, k requires 0 <= k < |pieces| => Part(pieces[k], ToLower(pieces[k]) == ToLower(q)));
      assert Texts(parts) == pieces;
      parts
  }
}
