/**
 * The state logic of the main window: the file-name and password-mask
 * helpers, the search over the network table with wrap-around navigation,
 * the per-column sort orders and the loading of saved networks. The window's
 * widgets are reduced to the state these operations read and write: the
 * table's rows and their hidden flags, the selected row, the form's network,
 * the sort orders and the search matches.
 */
module MainWindowState {
  import opened Wrappers
  import opened Text
  import opened Constants
  import opened WifiPayload

  const NoSearchIndex: int := -1
  const PasswordMaskMinLength: nat := 6
  /** The bullet `•` that masks a password. */
  const MaskChar: char := '\U{2022}'
  const DefaultFilename: string := "wifi"

  // ---------------------------------------------------------------------
  // File names and password masks
  // ---------------------------------------------------------------------

  predicate IsFilenameSafe(c: char) {
    IsAlnum(c) || c == '-' || c == '_'
  }

  /** `_sanitize_filename`: unsafe characters become `_`; an empty label becomes "wifi". */
  function SanitizeFilename(value: string): (r: string)
    ensures r != []
    ensures forall i :: 0 <= i < |r| ==> IsFilenameSafe(r[i])
  {
    var joined := seq(|value|, i requires 0 <= i < |value| => if IsFilenameSafe(value[i]) then value[i] else '_');
    if joined != [] then joined else DefaultFilename
  }

  /**
   * A non-empty label keeps its length and its safe characters; every other
   * character is replaced by `_`. The empty label becomes "wifi".
   */
  lemma SanitizeFilenameShape(value: string)
    ensures value == [] ==> SanitizeFilename(value) == DefaultFilename
    ensures value != [] ==> |SanitizeFilename(value)| == |value|
    ensures value != [] ==> forall i :: 0 <= i < |value| ==>
              SanitizeFilename(value)[i] == (if IsFilenameSafe(value[i]) then value[i] else '_')
  {
    if value != [] {
      var joined := seq(|value|, i requires 0 <= i < |value| => if IsFilenameSafe(value[i]) then value[i] else '_');
      assert |joined| == |value| > 0;
      assert SanitizeFilename(value) == joined;
    }
  }

  /** A name that is already safe is kept, so sanitising twice changes nothing more. */
  lemma SanitizeFilenameIdempotent(value: string)
    ensures SanitizeFilename(SanitizeFilename(value)) == SanitizeFilename(value)
  {
    var once := SanitizeFilename(value);
    SanitizeFilenameShape(once);
    assert SanitizeFilename(once) == once;
  }

  /** `_obfuscate_password`: nothing for no password, else at least six bullets. */
  function ObfuscatePassword(value: string): (r: string)
    ensures value == [] <==> r == []
    ensures value != [] ==> |r| >= PasswordMaskMinLength && |r| >= |value|
    ensures value != [] ==> (|r| == PasswordMaskMinLength || |r| == |value|)
    ensures forall i :: 0 <= i < |r| ==> r[i] == MaskChar
  {
    if value == [] then []
    else
      var length := if PasswordMaskMinLength > |value| then PasswordMaskMinLength else |value|;
      seq(length, _ => MaskChar)
  }

  /**
   * The mask shows nothing of a password but its length, and not even that
   * below six characters.
   */
  lemma ObfuscateHidesPassword(a: string, b: string)
    requires a != [] && b != []
    requires |a| == |b| || (|a| <= PasswordMaskMinLength && |b| <= PasswordMaskMinLength)
    ensures ObfuscatePassword(a) == ObfuscatePassword(b)
  {
  }

  // ---------------------------------------------------------------------
  // The search over the table
  // ---------------------------------------------------------------------

  /** A table row: its location and SSID cells (either may be missing) and the rest of its network. */
  datatype TableRow = TableRow(
    location: Option<string>,
    ssid: Option<string>,
    password: string,
    security: string,
    hidden: bool,
    imageData: Option<string>)

  /**
   * The label a fresh security combo box shows after `setCurrentText`: the
   * combo offers only the security options and starts at the first, so a
   * label it does not offer leaves it there.
   */
  function ComboText(text: string): string {
    if text in SecurityOptions then text else SecurityOptions[0]
  }

  /**
   * The row `_add_or_update_row` writes for a network: it shows the
   * location and the SSID, keeps the password and the image behind them,
   * shows an offered security label as it is and any other as the first
   * option, and matches a query exactly when the lower-cased location or
   * SSID contains it.
   */
  function RowOf(config: WifiConfig): (r: TableRow)
    ensures r.location == Some(config.location) && r.ssid == Some(config.ssid)
    ensures r.password == config.password && r.imageData == config.imageData
    ensures r.security in SecurityOptions
    ensures r.security == config.security <==> config.security in SecurityOptions
    ensures config.security !in SecurityOptions ==> r.security == SecurityOptions[0]
    ensures forall q :: RowMatches(r, q) <==> Contains(Lower(config.location), q) || Contains(Lower(config.ssid), q)
  {
    TableRow(Some(config.location), Some(config.ssid), config.password, ComboText(config.security), config.hidden, config.imageData)
  }

  /** The lower-cased text of a cell; a missing cell reads as "". */
  function CellText(item: Option<string>): string {
    if item.Some? then Lower(item.value) else ""
  }

  /**
   * The query the search box holds: trimmed, then lower-cased. It holds no
   * upper-case letter, and trimming and lower-casing it again changes
   * nothing.
   */
  function SearchQuery(text: string): (q: string)
    ensures forall i :: 0 <= i < |q| ==> !('A' <= q[i] <= 'Z')
    ensures Lower(Strip(q)) == q
  {
    LowerStripped(Strip(text));
    Lower(Strip(text))
  }

  /** Lower-casing trimmed text gives trimmed text that holds no upper-case letter. */
  lemma LowerStripped(s: string)
    requires IsStripped(s)
    ensures forall i :: 0 <= i < |s| ==> !('A' <= Lower(s)[i] <= 'Z')
    ensures Lower(Strip(Lower(s))) == Lower(s)
  {
    var q := Lower(s);
    if q != [] {
      assert q[0] == LowerChar(s[0]) && q[|q| - 1] == LowerChar(s[|s| - 1]);
    }
    StripOfStripped(q);
    forall i | 0 <= i < |q|
      ensures Lower(q)[i] == q[i]
    {
      assert q[i] == LowerChar(s[i]);
    }
  }

  predicate RowMatches(row: TableRow, query: string) {
    Contains(CellText(row.location), query) || Contains(CellText(row.ssid), query)
  }

  /** The test a row passes to match the query. */
  function RowMatcher(query: string): TableRow -> bool {
    row => RowMatches(row, query)
  }

  /** Which entries pass the test; none does for an empty query. */
  function Hits<T>(table: seq<T>, query: string, isMatch: T -> bool): (h: seq<bool>)
    ensures |h| == |table|
  {
    seq(|table|, i requires 0 <= i < |table| => query != [] && isMatch(table[i]))
  }

  /** Which rows match the query; none does for an empty query. */
  function RowHits(rows: seq<TableRow>, query: string): (h: seq<bool>)
    ensures |h| == |rows|
  {
    Hits(rows, query, RowMatcher(query))
  }

  /** The indices of the set flags among the first `n`, in order. */
  function MatchesBelow(hits: seq<bool>, n: nat): (m: seq<int>)
    requires n <= |hits|
    decreases n
  {
    if n == 0 then []
    else MatchesBelow(hits, n - 1) + (if hits[n - 1] then [n - 1] else [])
  }

  /**
   * The rows the search collects: exactly those, in ascending order, whose
   * lower-cased location or SSID contains the query; none for an empty query.
   */
  function SearchMatches(rows: seq<TableRow>, query: string): (m: seq<int>)
    ensures forall r :: r in m <==> 0 <= r < |rows| && query != [] && RowMatches(rows[r], query)
    ensures forall i, j :: 0 <= i < j < |m| ==> m[i] < m[j]
    ensures query == [] ==> m == []
  {
    var hits := RowHits(rows, query);
    MatchesBelowExact(hits, |rows|);
    if query == [] then
      NoHitsNoMatches(hits, |rows|);
      MatchesBelow(hits, |rows|)
    else MatchesBelow(hits, |rows|)
  }

  /**
   * Which rows the search hides: none for an empty query, and otherwise
   * exactly the rows that are not among its matches.
   */
  function HiddenRows(rows: seq<TableRow>, query: string): (h: seq<bool>)
    ensures |h| == |rows|
    ensures forall i :: 0 <= i < |rows| ==> (h[i] <==> query != [] && i !in SearchMatches(rows, query))
  {
    seq(|rows|, i requires 0 <= i < |rows| => query != [] && !RowMatches(rows[i], query))
  }

  /** The collected indices are exactly the set flags below `n`, in ascending order. */
  lemma {:induction false} MatchesBelowExact(hits: seq<bool>, n: nat)
    requires n <= |hits|
    ensures forall r :: r in MatchesBelow(hits, n) <==> 0 <= r < n && hits[r]
    ensures forall i, j :: 0 <= i < j < |MatchesBelow(hits, n)| ==>
              MatchesBelow(hits, n)[i] < MatchesBelow(hits, n)[j]
    decreases n
  {
    if n > 0 {
      MatchesBelowExact(hits, n - 1);
      var m := MatchesBelow(hits, n - 1);
      var tail := if hits[n - 1] then [n - 1] else [];
      assert MatchesBelow(hits, n) == m + tail;
      forall k | 0 <= k < |m|
        ensures m[k] < n - 1
      {
        assert m[k] in m;
      }
      AppendAscending(m, tail, n - 1);
    }
  }

  /** Appending indices no smaller than a bound to an ascending list below it keeps it ascending. */
  lemma AppendAscending(m: seq<int>, tail: seq<int>, bound: int)
    requires forall i, j :: 0 <= i < j < |m| ==> m[i] < m[j]
    requires forall k :: 0 <= k < |m| ==> m[k] < bound
    requires tail == [] || tail == [bound]
    ensures forall i, j :: 0 <= i < j < |m + tail| ==> (m + tail)[i] < (m + tail)[j]
  {
  }

  lemma {:induction false} NoHitsNoMatches(hits: seq<bool>, n: nat)
    requires n <= |hits|
    requires forall i :: 0 <= i < |hits| ==> !hits[i]
    ensures MatchesBelow(hits, n) == []
    decreases n
  {
    if n > 0 {
      NoHitsNoMatches(hits, n - 1);
    }
  }

  /** Hidden flags set from the row test are the hidden rows of the search. */
  lemma HiddenFromMatcher(rows: seq<TableRow>, query: string, hidden: seq<bool>)
    requires |hidden| == |rows|
    requires forall i :: 0 <= i < |rows| ==> hidden[i] == (query != [] && !RowMatcher(query)(rows[i]))
    ensures hidden == HiddenRows(rows, query)
  {
  }

  /** The match after `index`, wrapping to the first. Python's `%` by a positive count. */
  function NextIndex(index: int, count: nat): (r: int)
    requires count > 0
    ensures 0 <= r < count
  {
    (index + 1) % count
  }

  /** The match before `index`, wrapping to the last. */
  function PreviousIndex(index: int, count: nat): (r: int)
    requires count > 0
    ensures 0 <= r < count
  {
    (index - 1) % count
  }

  /**
   * Next and previous undo each other, and they wrap around: after the last
   * match comes the first, before the first the last.
   */
  lemma NextPreviousInverse(index: int, count: nat)
    requires 0 <= index < count
    ensures PreviousIndex(NextIndex(index, count), count) == index
    ensures NextIndex(PreviousIndex(index, count), count) == index
    ensures index == count - 1 ==> NextIndex(index, count) == 0
    ensures index == 0 ==> PreviousIndex(index, count) == count - 1
  {
    ModOfNear(index + 1, count);
    ModOfNear(index - 1, count);
    if index + 1 < count {
      ModOfNear(index, count);
    } else {
      ModOfNear(count - 1, count);
    }
    if index > 0 {
      ModOfNear(index, count);
    } else {
      ModOfNear(0, count);
    }
  }

  /** `%` by a positive count on the values next to the range `[0, count)`. */
  lemma ModOfNear(a: int, count: int)
    requires count > 0 && -1 <= a <= count
    ensures 0 <= a < count ==> a % count == a
    ensures a == count ==> a % count == 0
    ensures a == -1 ==> a % count == count - 1
  {
    var q := a / count;
    assert a == q * count + a % count;
    if q > 0 {
      assert q * count >= count;
    } else if q < 0 {
      assert q * count <= -count;
    }
  }

  // ---------------------------------------------------------------------
  // Sort orders
  // ---------------------------------------------------------------------

  datatype SortOrder = Ascending | Descending

  /** A column's stored order; a column never sorted counts as ascending. */
  function OrderOf(orders: map<int, SortOrder>, column: int): SortOrder {
    if column in orders then orders[column] else Ascending
  }

  /**
   * The orders after a click on `column`: only the location and SSID
   * columns sort, and each click flips that column's order; no other
   * column's order changes.
   */
  function SortOrdersAfter(orders: map<int, SortOrder>, column: int): (r: map<int, SortOrder>)
    ensures column !in {0, 1} ==> r == orders
    ensures column in {0, 1} ==> column in r && r[column] != OrderOf(orders, column)
    ensures forall c :: c != column ==> (c in r <==> c in orders)
    ensures forall c :: c in orders && c != column ==> r[c] == orders[c]
  {
    if column !in {0, 1} then orders
    else
      var order := if OrderOf(orders, column) == Ascending then Descending else Ascending;
      orders[column := order]
  }

  /** The first click on a sortable column sorts it descending; two clicks restore its order. */
  lemma SortToggles(orders: map<int, SortOrder>, column: int)
    requires column in {0, 1}
    ensures column !in orders ==> SortOrdersAfter(orders, column)[column] == Descending
    ensures OrderOf(SortOrdersAfter(SortOrdersAfter(orders, column), column), column) == OrderOf(orders, column)
  {
  }

  // ---------------------------------------------------------------------
  // Saved networks
  // ---------------------------------------------------------------------

  /** The JSON values a saved record holds; floats, arrays and objects are not modelled. */
  datatype JsonValue = JString(text: string) | JBool(flag: bool) | JInt(number: int) | JNull

  type JsonRecord = map<string, JsonValue>

  /** Python's `str(n)` for an integer. */
  function IntText(n: int): (s: string)
    ensures s != []
  {
    if n < 0 then "-" + NatToString(-n) else NatToString(n)
  }

  /** Python's `str` of a JSON value. */
  function PyStr(v: JsonValue): string {
    match v
    case JString(t) => t
    case JBool(b) => if b then "True" else "False"
    case JInt(n) => IntText(n)
    case JNull => "None"
  }

  /** Python's truth value of a JSON value. */
  predicate PyTruthy(v: JsonValue) {
    match v
    case JString(t) => t != []
    case JBool(b) => b
    case JInt(n) => n != 0
    case JNull => false
  }

  /** `entry.get(key, default)`. */
  function Get(entry: JsonRecord, key: string, default: JsonValue): JsonValue {
    if key in entry then entry[key] else default
  }

  /**
   * The network one saved record describes: missing text fields are empty,
   * a missing security label is the first offered one, a missing hidden flag
   * is false, and the image is kept only when it is a non-empty string.
   */
  function ConfigFromRecord(entry: JsonRecord): (c: WifiConfig)
    ensures "location" !in entry ==> c.location == ""
    ensures "ssid" !in entry ==> c.ssid == ""
    ensures "password" !in entry ==> c.password == ""
    ensures "security" !in entry ==> c.security == SecurityOptions[0]
    ensures "hidden" !in entry ==> !c.hidden
    ensures "location" in entry && entry["location"].JString? ==> c.location == entry["location"].text
    ensures "ssid" in entry && entry["ssid"].JString? ==> c.ssid == entry["ssid"].text
    ensures "password" in entry && entry["password"].JString? ==> c.password == entry["password"].text
    ensures "security" in entry && entry["security"].JString? ==> c.security == entry["security"].text
    ensures "hidden" in entry && entry["hidden"].JBool? ==> c.hidden == entry["hidden"].flag
    ensures c.imageData.Some? <==> "image_data" in entry && entry["image_data"].JString? && entry["image_data"].text != []
    ensures c.imageData.Some? ==> c.imageData.value == entry["image_data"].text
  {
    var image := Get(entry, "image_data", JNull);
    WifiConfig(
      PyStr(Get(entry, "location", JString(""))),
      PyStr(Get(entry, "ssid", JString(""))),
      PyStr(Get(entry, "password", JString(""))),
      PyStr(Get(entry, "security", JString(SecurityOptions[0]))),
      PyTruthy(Get(entry, "hidden", JBool(false))),
      if PyTruthy(image) && image.JString? then Some(PyStr(image)) else None)
  }

  /**
   * The networks of the saved records, one per record and in their order;
   * the SSID and password a record saves as text are loaded unchanged.
   */
  function LoadedConfigs(data: seq<JsonRecord>): (configs: seq<WifiConfig>)
    ensures |configs| == |data|
    ensures forall i :: 0 <= i < |data| && "ssid" in data[i] && data[i]["ssid"].JString? ==> configs[i].ssid == data[i]["ssid"].text
    ensures forall i :: 0 <= i < |data| && "password" in data[i] && data[i]["password"].JString? ==>
              configs[i].password == data[i]["password"].text
  {
    seq(|data|, i requires 0 <= i < |data| => ConfigFromRecord(data[i]))
  }

  function RowsOf(configs: seq<WifiConfig>): (rows: seq<TableRow>)
    ensures |rows| == |configs|
  {
    seq(|configs|, i requires 0 <= i < |configs| => RowOf(configs[i]))
  }

  /** Loading one more record appends its network. */
  lemma LoadedStep(data: seq<JsonRecord>, i: nat)
    requires i < |data|
    ensures LoadedConfigs(data)[..i + 1] == LoadedConfigs(data)[..i] + [ConfigFromRecord(data[i])]
  {
  }

  /** Adding a network appends its row. */
  lemma RowsOfSnoc(configs: seq<WifiConfig>, c: WifiConfig)
    ensures RowsOf(configs + [c]) == RowsOf(configs) + [RowOf(c)]
  {
  }

  /**
   * The row loop of `_apply_search_filter`, for any row test: visits the
   * rows in order, overwrites each row's hidden flag and collects the
   * matching rows.
   */
  method ScanRows<T>(table: seq<T>, query: string, isMatch: T -> bool, hidden0: seq<bool>)
    returns (matches: seq<int>, hidden: seq<bool>)
    requires |hidden0| == |table|
    ensures matches == MatchesBelow(Hits(table, query, isMatch), |table|)
    ensures |hidden| == |table|
    ensures forall i :: 0 <= i < |table| ==> hidden[i] == (query != [] && !isMatch(table[i]))
  {
    ghost var hits := Hits(table, query, isMatch);
    matches := [];
    hidden := hidden0;
    var row := 0;
    while row < |table|
      invariant 0 <= row <= |table| && |hidden| == |table|
      invariant matches == MatchesBelow(hits, row)
      invariant forall i :: 0 <= i < row ==> hidden[i] == (query != [] && !isMatch(table[i]))
    {
      var matched := isMatch(table[row]);
      hidden := hidden[row := if query != [] then !matched else false];
      if query != [] && matched {
        matches := matches + [row];
      }
      row := row + 1;
    }
  }

  // ---------------------------------------------------------------------
  // The window
  // ---------------------------------------------------------------------

  /**
   * The selection after asking the table to select `row`: that row when the
   * table holds it, otherwise the selection as it was.
   */
  function SelectedAfter(selected: Option<int>, row: int, rowCount: nat): (s: Option<int>)
    ensures 0 <= row < rowCount ==> s == Some(row)
    ensures !(0 <= row < rowCount) ==> s == selected
    ensures s.Some? && s != selected ==> 0 <= s.value < rowCount
  {
    if 0 <= row < rowCount then Some(row) else selected
  }

  class MainWindow {
    var rows: seq<TableRow>
    var rowHidden: seq<bool>
    var selectedRow: Option<int>
    var form: WifiConfig
    var sortOrders: map<int, SortOrder>
    var searchMatches: seq<int>
    var searchIndex: int

    /** Every row has a hidden flag, and the search index points at a match or is -1 when there is none. */
    predicate Valid()
      reads this
    {
      |rowHidden| == |rows|
      && (searchMatches == [] ==> searchIndex == NoSearchIndex)
      && (searchMatches != [] ==> 0 <= searchIndex < |searchMatches|)
    }

    constructor()
      ensures Valid()
      ensures rows == [] && selectedRow == None && sortOrders == map[]
      ensures searchMatches == [] && searchIndex == NoSearchIndex
      ensures form == WifiConfig("", "", "", "WPA", false, None)
    {
      rows := [];
      rowHidden := [];
      selectedRow := None;
      form := WifiConfig("", "", "", "WPA", false, None);
      sortOrders := map[];
      searchMatches := [];
      searchIndex := NoSearchIndex;
    }

    /**
     * `_apply_search_filter` for the text in the search box: collects the
     * matching rows in order, hides the others (none for an empty query),
     * points the index at the first match and selects its row.
     */
    method ApplySearchFilter(text: string)
      requires Valid()
      modifies this
      ensures Valid()
      ensures rows == old(rows) && form == old(form) && sortOrders == old(sortOrders)
      ensures searchMatches == SearchMatches(rows, SearchQuery(text))
      ensures rowHidden == HiddenRows(rows, SearchQuery(text))
      ensures searchIndex == if searchMatches != [] then 0 else NoSearchIndex
      ensures selectedRow == if searchMatches != [] then Some(searchMatches[0]) else old(selectedRow)
    {
      FilterRows(SearchQuery(text));
    }

    /** The filtering loop of `_apply_search_filter`, for the trimmed, lower-cased query. */
    method FilterRows(query: string)
      requires Valid()
      modifies this
      ensures Valid()
      ensures rows == old(rows) && form == old(form) && sortOrders == old(sortOrders)
      ensures searchMatches == SearchMatches(rows, query)
      ensures rowHidden == HiddenRows(rows, query)
      ensures searchIndex == if searchMatches != [] then 0 else NoSearchIndex
      ensures selectedRow == if searchMatches != [] then Some(searchMatches[0]) else old(selectedRow)
    {
      var matches, hidden := ScanRows(rows, query, RowMatcher(query), rowHidden);
      HiddenFromMatcher(rows, query, hidden);
      searchMatches := matches;
      rowHidden := hidden;
      searchIndex := if matches != [] then 0 else NoSearchIndex;
      if matches != [] {
        selectedRow := Some(matches[0]);
      }
    }

    /**
     * `_select_search_row`: the table selects a row that it holds, and
     * ignores one it does not (a match left over from an earlier table).
     */
    method SelectSearchRow(row: int)
      modifies this
      ensures rows == old(rows) && rowHidden == old(rowHidden) && form == old(form) && sortOrders == old(sortOrders)
      ensures searchMatches == old(searchMatches) && searchIndex == old(searchIndex)
      ensures selectedRow == SelectedAfter(old(selectedRow), row, |rows|)
    {
      if 0 <= row < |rows| {
        selectedRow := Some(row);
      }
    }

    /** `_find_next`: with no matches nothing happens; otherwise the next match, wrapping around, is selected. */
    method FindNext()
      modifies this
      ensures rows == old(rows) && rowHidden == old(rowHidden) && form == old(form) && sortOrders == old(sortOrders)
      ensures searchMatches == old(searchMatches)
      ensures searchMatches == [] ==> searchIndex == old(searchIndex) && selectedRow == old(selectedRow)
      ensures searchMatches != [] ==> searchIndex == NextIndex(old(searchIndex), |searchMatches|)
      ensures searchMatches != [] ==> selectedRow == SelectedAfter(old(selectedRow), searchMatches[searchIndex], |rows|)
      ensures old(Valid()) ==> Valid()
    {
      if searchMatches == [] {
        return;
      }
      searchIndex := NextIndex(searchIndex, |searchMatches|);
      SelectSearchRow(searchMatches[searchIndex]);
    }

    /** `_find_previous`: with no matches nothing happens; otherwise the previous match, wrapping around, is selected. */
    method FindPrevious()
      modifies this
      ensures rows == old(rows) && rowHidden == old(rowHidden) && form == old(form) && sortOrders == old(sortOrders)
      ensures searchMatches == old(searchMatches)
      ensures searchMatches == [] ==> searchIndex == old(searchIndex) && selectedRow == old(selectedRow)
      ensures searchMatches != [] ==> searchIndex == PreviousIndex(old(searchIndex), |searchMatches|)
      ensures searchMatches != [] ==> selectedRow == SelectedAfter(old(selectedRow), searchMatches[searchIndex], |rows|)
      ensures old(Valid()) ==> Valid()
    {
      if searchMatches == [] {
        return;
      }
      searchIndex := PreviousIndex(searchIndex, |searchMatches|);
      SelectSearchRow(searchMatches[searchIndex]);
    }

    /** `_handle_sort`: flips the clicked column's order if it is the location or SSID column. */
    method HandleSort(column: int)
      modifies this
      ensures rows == old(rows) && rowHidden == old(rowHidden) && selectedRow == old(selectedRow) && form == old(form)
      ensures searchMatches == old(searchMatches) && searchIndex == old(searchIndex)
      ensures sortOrders == SortOrdersAfter(old(sortOrders), column)
    {
      if column !in {0, 1} {
        return;
      }
      var order := OrderOf(sortOrders, column);
      order := if order == Ascending then Descending else Ascending;
      sortOrders := sortOrders[column := order];
    }

    /**
     * `_load_from_data`: empties the table, which clears its selection,
     * then adds one visible row per saved record, in order, and fills the
     * form when exactly one network was loaded.
     */
    method LoadFromData(data: seq<JsonRecord>)
      requires Valid()
      modifies this
      ensures Valid()
      ensures rows == RowsOf(LoadedConfigs(data))
      ensures rowHidden == seq(|data|, _ => false)
      ensures form == if |data| == 1 then ConfigFromRecord(data[0]) else old(form)
      ensures selectedRow == None && sortOrders == old(sortOrders)
      ensures searchMatches == old(searchMatches) && searchIndex == old(searchIndex)
    {
      var configs: seq<WifiConfig> := [];
      var newRows: seq<TableRow> := [];
      var newHidden: seq<bool> := [];
      for i := 0 to |data|
        invariant configs == LoadedConfigs(data)[..i]
        invariant newRows == RowsOf(configs)
        invariant newHidden == seq(i, _ => false)
        invariant unchanged(this)
      {
        var config := ConfigFromRecord(data[i]);
        LoadedStep(data, i);
        RowsOfSnoc(configs, config);
        configs := configs + [config];
        newRows := newRows + [RowOf(config)];
        newHidden := newHidden + [false];
      }
      assert LoadedConfigs(data)[..|data|] == LoadedConfigs(data);
      // The table is replaced as a whole: emptying it dropped its selection.
      selectedRow := None;
      rows := newRows;
      rowHidden := newHidden;
      if |configs| == 1 {
        form := configs[0];
      }
    }
  }
}
