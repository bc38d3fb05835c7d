/** The indicator search of `EsiosService.search_indicators`: which catalog entries match a
    pattern, and the text report written about them. The regular-expression engine is an
    input: whether the pattern compiles (case-insensitively) and whether it is found in a text. */
module Catalog {
  import opened Wrappers
  import opened Text

  /** One entry of the upstream catalog, as the JSON object it arrives as: any key may be absent. */
  datatype Indicator = Indicator(id: Option<int>, name: Option<string>, shortName: Option<string>,
                                 description: Option<string>)

  /** What the catalog request delivered: the `indicators` list, or the failure it raised. */
  datatype CatalogFetch =
    | Fetched(indicators: seq<Indicator>)
    | ClientError(message: string)   // aiohttp.ClientError: network failure, bad status
    | OtherError(message: string)    // any other exception: malformed JSON, missing key

  /** What the cache holds after a fetch attempt: every failure resolves to "no indicators". */
  function Resolve(fetch: CatalogFetch): (indicators: seq<Indicator>)
    ensures fetch.Fetched? ==> indicators == fetch.indicators
    ensures !fetch.Fetched? ==> indicators == []
  {
    match fetch
    case Fetched(xs) => xs
    case ClientError(_) => []
    case OtherError(_) => []
  }

  /** The compiled `re` engine: `compiles(p)` says whether `re.compile(p, re.IGNORECASE)`
      succeeds, `search(p, s)` whether that pattern is found anywhere in `s`. */
  datatype RegexEngine = RegexEngine(compiles: string -> bool, search: (string, string) -> bool)

  /** One row of the report: the entry's fields with the description defaulted. */
  datatype Match = Match(id: int, name: string, shortName: string, description: string)

  const MaxWithDescriptions: nat := 30
  const NoDescription := "No description available"
  const NoResults := "No indicators found matching your query."
  const SearchFailure := "Failed to search indicators: "

  /** The pattern is found in the name, the short name or the description ("" when absent). */
  predicate IsMatch(ind: Indicator, regex: RegexEngine, query: string) {
    || (ind.name.Some? && regex.search(query, ind.name.value))
    || (ind.shortName.Some? && regex.search(query, ind.shortName.value))
    || regex.search(query, ind.description.GetOr(""))
  }

  /** The keys a matching entry must carry to be shown. */
  predicate WellFormed(ind: Indicator) {
    ind.id.Some? && ind.name.Some? && ind.shortName.Some?
  }

  /** How a well-formed entry is shown: a missing description reads "No description available". */
  function Shown(ind: Indicator): (m: Match)
    requires WellFormed(ind)
    ensures m.id == ind.id.value && m.name == ind.name.value && m.shortName == ind.shortName.value
    ensures ind.description.None? ==> m.description == NoDescription
    ensures ind.description.Some? ==> m.description == ind.description.value
  {
    Match(ind.id.value, ind.name.value, ind.shortName.value, ind.description.GetOr(NoDescription))
  }

  /** One step of the list comprehension: the filter reads `name`, then (only when the name did
      not match) `short_name`, then the description; a selected entry then reads `id`, `name`
      and `short_name`. A missing key raises KeyError, named here by the key. */
  function Examine(ind: Indicator, regex: RegexEngine, query: string): (r: Result<Option<Match>, string>)
    ensures r.Err? <==> ind.name.None? || ind.shortName.None? || (IsMatch(ind, regex, query) && ind.id.None?)
    ensures r.Err? ==> r.error in {"id", "name", "short_name"}
    ensures r.Ok? ==> (r.value.Some? <==> IsMatch(ind, regex, query))
    ensures r.Ok? && r.value.Some? ==> WellFormed(ind) && r.value.value == Shown(ind)
  {
    if ind.name.None? then Err("name")
    else if regex.search(query, ind.name.value) then Project(ind)
    else if ind.shortName.None? then Err("short_name")
    else if regex.search(query, ind.shortName.value) || regex.search(query, ind.description.GetOr("")) then
      Project(ind)
    else Ok(None)
  }

  /** Building the selected row: `id` is read before `short_name`. */
  function Project(ind: Indicator): (r: Result<Option<Match>, string>)
    requires ind.name.Some?
  {
    if ind.id.None? then Err("id")
    else if ind.shortName.None? then Err("short_name")
    else Ok(Some(Shown(ind)))
  }

  /** The list comprehension over the catalog: the selected rows in order, or the KeyError of the
      first entry, in catalog order, that raised one. */
  function Select(catalog: seq<Indicator>, regex: RegexEngine, query: string): (r: Result<seq<Match>, string>)
    ensures r.Ok? <==> forall i :: 0 <= i < |catalog| ==> Examine(catalog[i], regex, query).Ok?
    ensures r.Err? ==> exists i :: 0 <= i < |catalog| && Examine(catalog[i], regex, query).Err?
                                   && r.error == Examine(catalog[i], regex, query).error
                                   && forall j :: 0 <= j < i ==> Examine(catalog[j], regex, query).Ok?
    ensures (forall i :: 0 <= i < |catalog| ==> WellFormed(catalog[i])) ==> r.Ok?
    ensures r.Ok? ==> |r.value| <= |catalog|
    decreases |catalog|
  {
    if catalog == [] then Ok([])
    else
      var init := catalog[..|catalog| - 1];
      var last := catalog[|catalog| - 1];
      match Select(init, regex, query)
      case Err(k) =>
        assert forall j :: 0 <= j < |init| ==> catalog[j] == init[j];
        Err(k)
      case Ok(rows) =>
        assert forall j :: 0 <= j < |init| ==> catalog[j] == init[j];
        match Examine(last, regex, query)
        case Err(k) => Err(k)
        case Ok(None) => Ok(rows)
        case Ok(Some(m)) => Ok(rows + [m])
  }

  /** The positions of the matching entries, in increasing order: the reference definition of
      the selection. */
  function MatchIndices(catalog: seq<Indicator>, regex: RegexEngine, query: string): (r: seq<nat>)
    ensures forall j :: 0 <= j < |r| ==> r[j] < |catalog| && IsMatch(catalog[r[j]], regex, query)
    ensures forall j1, j2 :: 0 <= j1 < j2 < |r| ==> r[j1] < r[j2]
    ensures forall i :: 0 <= i < |catalog| && IsMatch(catalog[i], regex, query) ==> i in r
    decreases |catalog|
  {
    if catalog == [] then []
    else
      var n := |catalog| - 1;
      var init := MatchIndices(catalog[..n], regex, query);
      assert forall j :: 0 <= j < n ==> catalog[..n][j] == catalog[j];
      if IsMatch(catalog[n], regex, query) then init + [n] else init
  }

  /** A successful selection is exactly the matching entries, each once, in catalog order:
      row `j` shows the entry at the `j`-th matching position. */
  lemma {:induction false} SelectIsMatchingEntries(catalog: seq<Indicator>, regex: RegexEngine, query: string)
    requires Select(catalog, regex, query).Ok?
    ensures var rows := Select(catalog, regex, query).value;
            var idx := MatchIndices(catalog, regex, query);
            |rows| == |idx| &&
            forall j :: 0 <= j < |rows| ==> WellFormed(catalog[idx[j]]) && rows[j] == Shown(catalog[idx[j]])
    decreases |catalog|
  {
    if catalog != [] {
      var n := |catalog| - 1;
      var init := catalog[..n];
      assert forall j :: 0 <= j < n ==> init[j] == catalog[j];
      SelectIsMatchingEntries(init, regex, query);
    }
  }

  /** The report's first line. */
  function Header(count: nat): string {
    "Found " + NatToString(count) + " matching indicators:\n\n"
  }

  /** The advisory written above the threshold (the number in it is `MaxWithDescriptions`). */
  const Note: string :=
    "Note: "
    + "The description for each indicator is not shown since there are more than 30 matches. "
    + "If you want to see the description for each indicator, please refine your search to get less than 30 matches.\n\n"

  /** What is written before the rows: the count line, and the note above the threshold. */
  function Lead(count: nat): string {
    Header(count) + (if count > MaxWithDescriptions then Note else "")
  }

  /** The lines written for one row; the description line only when `withDescription`. */
  function Entry(m: Match, withDescription: bool): string {
    "ID: " + IntToString(m.id) + "\n"
    + "Name: " + m.name + "\n"
    + "Short name: " + m.shortName + "\n"
    + (if withDescription then "Description: " + m.description + "\n\n" else "\n")
  }

  /** The entries of the rows, appended in row order. */
  function Entries(rows: seq<Match>, withDescription: bool): string {
    if rows == [] then "" else Entries(rows[..|rows| - 1], withDescription) + Entry(rows[|rows| - 1], withDescription)
  }

  /** The report on a non-empty selection: descriptions only below the threshold, the note only
      above it, so at exactly 30 rows neither. */
  function Report(rows: seq<Match>): string {
    Lead(|rows|) + Entries(rows, |rows| < MaxWithDescriptions)
  }

  /** The text `search_indicators` returns, given the cached catalog. The catalog has been fetched
      before the pattern is compiled. */
  function SearchText(catalog: seq<Indicator>, regex: RegexEngine, query: string): string {
    if !regex.compiles(query) then "Invalid regex pattern: '" + query + "'"
    else match Select(catalog, regex, query)
      case Err(key) => SearchFailure + KeyErrorText(key)
      case Ok(rows) => if rows == [] then NoResults else Report(rows)
  }

  /** Appending the entry of row `i` extends the entries of the rows before it. */
  lemma EntriesSnoc(rows: seq<Match>, i: nat, withDescription: bool)
    requires i < |rows|
    ensures Entries(rows[..i + 1], withDescription) == Entries(rows[..i], withDescription) + Entry(rows[i], withDescription)
  {
    assert rows[..i + 1][..i] == rows[..i];
  }

  /** The invariant of the report loop is kept by appending the next row's entry. */
  lemma EntriesStep(text: string, result: string, rows: seq<Match>, i: nat, withDescription: bool, block: string)
    requires i < |rows|
    requires result == text + Entries(rows[..i], withDescription)
    requires block == Entry(rows[i], withDescription)
    ensures result + block == text + Entries(rows[..i + 1], withDescription)
  {
    EntriesSnoc(rows, i, withDescription);
    AppendAssoc(text, Entries(rows[..i], withDescription), block);
  }

  /** The entries of the first `j` rows are a prefix of the entries of all rows. */
  lemma {:induction false} EntriesPrefix(rows: seq<Match>, j: nat, withDescription: bool)
    requires j <= |rows|
    ensures Entries(rows[..j], withDescription) <= Entries(rows, withDescription)
    decreases |rows|
  {
    if j < |rows| {
      var init := rows[..|rows| - 1];
      assert init[..j] == rows[..j];
      EntriesPrefix(init, j, withDescription);
    } else {
      assert rows[..j] == rows;
    }
  }

  /** Row `k` is written, whole and in row order, right after the rows before it. */
  lemma EntryAt(rows: seq<Match>, k: nat, withDescription: bool)
    requires k < |rows|
    ensures Entries(rows[..k], withDescription) + Entry(rows[k], withDescription) <= Entries(rows, withDescription)
  {
    EntriesSnoc(rows, k, withDescription);
    EntriesPrefix(rows, k + 1, withDescription);
  }

  /** In the report, row `k`'s entry follows the lead and the entries of the rows before it; it
      carries the description line exactly when there are fewer than 30 rows. */
  lemma ReportEntryAt(rows: seq<Match>, k: nat)
    requires k < |rows|
    ensures var d := |rows| < MaxWithDescriptions;
            Lead(|rows|) + Entries(rows[..k], d) + Entry(rows[k], d) <= Report(rows)
  {
    var d := |rows| < MaxWithDescriptions;
    EntryAt(rows, k, d);
    PrefixUnderLead(Lead(|rows|), Entries(rows[..k], d) + Entry(rows[k], d), Entries(rows, d));
    AppendAssoc(Lead(|rows|), Entries(rows[..k], d), Entry(rows[k], d));
  }

  /** Every entry, and so the entries of a non-empty selection, begins with the "ID: " line. */
  lemma EntriesBegin(rows: seq<Match>, withDescription: bool)
    requires rows != []
    ensures "ID: " <= Entries(rows, withDescription)
  {
    EntryAt(rows, 0, withDescription);
    assert rows[..0] == [];
    EntryBegins(rows[0], withDescription);
  }

  /** One entry begins with the "ID: " line. */
  lemma EntryBegins(m: Match, withDescription: bool)
    ensures "ID: " <= Entry(m, withDescription)
  {
    var rest := Entry(m, withDescription)[4..];
    assert Entry(m, withDescription) == "ID: " + rest;
    PrefixOfAppend("ID: ", rest);
  }

  /** The lines one pass of the loop appends for a row. */
  method WriteEntry(m: Match, withDescription: bool) returns (block: string)
    ensures block == Entry(m, withDescription)
  {
    block := "ID: " + IntToString(m.id) + "\n"
             + "Name: " + m.name + "\n"
             + "Short name: " + m.shortName + "\n";
    if withDescription {
      block := block + "Description: " + m.description + "\n\n";
    } else {
      block := block + "\n";
    }
  }

  /** The lines written before the loop: the count line, then the note above the threshold. */
  method WriteLead(n: nat) returns (lead: string)
    ensures lead == Lead(n)
  {
    lead := Header(n);
    if n > MaxWithDescriptions {
      lead := lead + Note;
    }
  }

  /** The `for` loop over the rows, appending each row's entry to `text` with `+=`. */
  method AppendEntries(text: string, rows: seq<Match>, withDescription: bool) returns (result: string)
    ensures result == text + Entries(rows, withDescription)
  {
    result := text;
    var i := 0;
    while i < |rows|
      invariant 0 <= i <= |rows|
      invariant result == text + Entries(rows[..i], withDescription)
    {
      var block := WriteEntry(rows[i], withDescription);
      EntriesStep(text, result, rows, i, withDescription, block);
      result := result + block;
      i := i + 1;
    }
    assert rows[..i] == rows;
  }

  /** The report on the selected rows, built as `search_indicators` builds it. */
  method BuildReport(rows: seq<Match>) returns (result: string)
    ensures result == Report(rows)
  {
    var lead := WriteLead(|rows|);
    result := AppendEntries(lead, rows, |rows| < MaxWithDescriptions);
  }

  /** The report is the lead followed by everything after it. */
  lemma ReportSplit(rows: seq<Match>)
    ensures var d := |rows| < MaxWithDescriptions;
            Report(rows) == Header(|rows|) + ((if |rows| > MaxWithDescriptions then Note else "") + Entries(rows, d))
  {
    AppendAssoc(Header(|rows|), if |rows| > MaxWithDescriptions then Note else "", Entries(rows, |rows| < MaxWithDescriptions));
  }

  /** A search reports "no indicators found" exactly when the pattern compiles and selects no
      entry; an invalid pattern, a failure or a non-empty selection each says something else. */
  lemma NoResultsIff(catalog: seq<Indicator>, regex: RegexEngine, query: string)
    ensures SearchText(catalog, regex, query) == NoResults
            <==> regex.compiles(query) && Select(catalog, regex, query) == Ok([])
  {
    var text := SearchText(catalog, regex, query);
    assert NoResults[0] == 'N';
    if !regex.compiles(query) {
      assert text[0] == 'I';
    } else if Select(catalog, regex, query).Err? {
      assert text[0] == 'F';
    } else if Select(catalog, regex, query).value != [] {
      var rows := Select(catalog, regex, query).value;
      ReportSplit(rows);
      assert text[0] == Header(|rows|)[0] == 'F';
    }
  }

  /** A text whose first two characters are not "Fa" does not begin with the failure text. */
  lemma NotSearchFailure(text: string)
    requires |text| >= 2 && (text[0] != 'F' || text[1] != 'a')
    ensures !(SearchFailure <= text)
  {
    assert SearchFailure[0] == 'F' && SearchFailure[1] == 'a';
  }

  /** The report begins "Fo", not with the failure text. */
  lemma ReportNotFailure(rows: seq<Match>)
    ensures !(SearchFailure <= Report(rows))
  {
    var header := Header(|rows|);
    assert header[1] == 'o';
    ReportCount(rows);
    assert Report(rows)[1] == header[1];
    NotSearchFailure(Report(rows));
  }

  /** A search answers with the failure text exactly when the pattern compiles and the selection
      raises: the invalid-pattern text, the no-results text and the report each begin otherwise. */
  lemma SearchFailureIff(catalog: seq<Indicator>, regex: RegexEngine, query: string)
    ensures SearchFailure <= SearchText(catalog, regex, query)
            <==> regex.compiles(query) && Select(catalog, regex, query).Err?
  {
    var selection := Select(catalog, regex, query);
    if !regex.compiles(query) {
      NotSearchFailure("Invalid regex pattern: '" + query + "'");
    } else if selection.Err? {
      PrefixOfAppend(SearchFailure, KeyErrorText(selection.error));
    } else if selection.value == [] {
      NotSearchFailure(NoResults);
    } else {
      ReportNotFailure(selection.value);
    }
  }

  /** The count line's number reads back as the count. */
  lemma HeaderCount(count: nat)
    ensures var digits := NatToString(count);
            && 6 + |digits| <= |Header(count)|
            && AllDigits(Header(count)[6..6 + |digits|])
            && DigitsValue(Header(count)[6..6 + |digits|]) == count
  {
    var digits := NatToString(count);
    assert Header(count)[6..6 + |digits|] == digits;
    NatToStringInverse(count);
  }

  /** The report begins with its count line. */
  lemma ReportCount(rows: seq<Match>)
    ensures Header(|rows|) <= Report(rows)
  {
    ReportSplit(rows);
    PrefixOfAppend(Header(|rows|), (if |rows| > MaxWithDescriptions then Note else "") + Entries(rows, |rows| < MaxWithDescriptions));
  }

  /** The note begins with its own letter, which no entry begins with. */
  lemma NoteBegins()
    ensures |Note| > 0 && Note[0] == 'N'
  {
  }

  /** Above the threshold the note follows the count line. */
  lemma NoteShown(rows: seq<Match>)
    requires |rows| > MaxWithDescriptions
    ensures Header(|rows|) + Note <= Report(rows)
  {
    var n := |rows|;
    var body := Entries(rows, n < MaxWithDescriptions);
    AppendAssoc(Header(n), Note, body);
    PrefixOfAppend(Header(n) + Note, body);
  }

  /** At or below the threshold nothing comes between the count line and the entries. */
  lemma ReportBelow(rows: seq<Match>)
    requires |rows| <= MaxWithDescriptions
    ensures Report(rows) == Header(|rows|) + Entries(rows, |rows| < MaxWithDescriptions)
  {
    assert Lead(|rows|) == Header(|rows|);
  }

  /** At or below the threshold the count line is followed by the entries, not the note. */
  lemma NoteHidden(rows: seq<Match>)
    requires |rows| <= MaxWithDescriptions
    ensures !(Header(|rows|) + Note <= Report(rows))
  {
    ReportBelow(rows);
    NoteBegins();
    if rows != [] {
      EntriesBegin(rows, |rows| < MaxWithDescriptions);
    }
    NotPrefixAfter(Header(|rows|), Note, Entries(rows, |rows| < MaxWithDescriptions));
  }

  /** The count line is followed by the note exactly when there are more than 30 rows. */
  lemma NoteIffAboveThreshold(rows: seq<Match>)
    ensures Header(|rows|) + Note <= Report(rows) <==> |rows| > MaxWithDescriptions
  {
    if |rows| > MaxWithDescriptions {
      NoteShown(rows);
    } else {
      NoteHidden(rows);
    }
  }
}
