/** Ingestion of an uploaded table: column detection, frequency and coverage,
    anomaly flags, validation, per-SKU snapshots and the demand series. */
module FileHandler {
  import opened Basics
  import opened Text
  import opened Dates
  import opened Sorting
  import opened ForecastModels

  // Frames

  /** A cell as pandas holds it once the CSV is read: missing (NaN, NaT, None), an
      integer, a float, a text, or a timestamp already parsed to its day. */
  datatype Cell = Null | Int(i: int) | Num(x: real) | Str(s: string) | Stamp(d: Day)

  datatype Dtype = NumericDtype | DatetimeDtype | ObjectDtype

  /** A column: its name, its dtype and whether `pd.to_datetime` accepts its first five values. */
  datatype Column = Column(name: string, dtype: Dtype, headParses: bool)

  /** A row maps column names to cells; a name it lacks reads as missing. */
  type Row = map<string, Cell>

  datatype Frame = Frame(columns: seq<Column>, rows: seq<Row>)

  function Names(f: Frame): (ns: seq<string>)
    ensures |ns| == |f.columns| && forall i :: 0 <= i < |ns| ==> ns[i] == f.columns[i].name
  {
    seq(|f.columns|, i requires 0 <= i < |f.columns| => f.columns[i].name)
  }

  function CellOf(r: Row, col: string): Cell
  {
    if col in r then r[col] else Null
  }

  /** `df.empty`: no rows or no columns. */
  predicate IsEmpty(f: Frame)
  {
    |f.rows| == 0 || |f.columns| == 0
  }

  /** Python truthiness of an optional column name: None and "" are false. */
  predicate Truthy(o: Option<string>)
  {
    o.Some? && o.value != ""
  }

  /** Python `a or b`. */
  function Or(a: Option<string>, b: Option<string>): Option<string>
  {
    if Truthy(a) then a else b
  }

  /** `float(cell)` for the numeric cells; any other cell counts as missing. */
  function AsReal(c: Cell): Option<real>
  {
    match c
    case Int(i) => Some(i as real)
    case Num(x) => Some(x)
    case _ => None
  }

  function AsDay(c: Cell): Option<Day>
  {
    if c.Stamp? then Some(c.d) else None
  }

  /** `str(key)` of a group key; a missing key drops the row from every `groupby`. */
  function AsKey(c: Cell): Option<string>
  {
    match c
    case Null => None
    case Int(i) => Some(IntToString(i))
    case Num(x) => Some(FloatToString(x))
    case Str(s) => Some(s)
    case Stamp(d) => Some(IsoDate(d) + " 00:00:00")
  }

  function ColumnCells(f: Frame, col: string): (cs: seq<Cell>)
    ensures |cs| == |f.rows| && forall i :: 0 <= i < |cs| ==> cs[i] == CellOf(f.rows[i], col)
  {
    seq(|f.rows|, i requires 0 <= i < |f.rows| => CellOf(f.rows[i], col))
  }

  // Column mapping

  const DateKeywords: seq<string> := ["date", "day", "timestamp", "period"]
  const DemandKeywords: seq<string> := ["demand", "units_sold", "qty", "quantity", "sales"]
  const InventoryKeywords: seq<string> := ["inventory", "on_hand", "stock", "available"]
  const LeadTimeKeywords: seq<string> := ["lead_time", "leadtime", "lt"]
  const SkuKeywords: seq<string> := ["sku", "product_id", "item", "product"]
  const NameKeywords: seq<string> := ["name", "description", "title"]
  const PromoKeywords: seq<string> := ["promo", "promotion"]
  const HolidayKeywords: seq<string> := ["holiday"]

  /** Column c's lower-cased name contains `keyword`. */
  ghost predicate Mentions(names: seq<string>, c: int, keyword: string)
  {
    0 <= c < |names| && Contains(Lower(names[c]), keyword)
  }

  /** Column c is what a keyword search picks: keyword k is the first keyword any
      column mentions, and c is the first column mentioning it. */
  ghost predicate Picked(names: seq<string>, keywords: seq<string>, k: int, c: int)
  {
    0 <= k < |keywords| && Mentions(names, c, keywords[k])
    && (forall j, d :: 0 <= j < k && 0 <= d < |names| ==> !Mentions(names, d, keywords[j]))
    && (forall d :: 0 <= d < c ==> !Mentions(names, d, keywords[k]))
  }

  function FirstMentionFrom(names: seq<string>, keyword: string, from: nat): (r: Option<nat>)
    requires from <= |names|
    ensures r.Some? ==> from <= r.value && Mentions(names, r.value, keyword)
                        && forall d :: from <= d < r.value ==> !Mentions(names, d, keyword)
    ensures r.None? ==> forall d :: from <= d < |names| ==> !Mentions(names, d, keyword)
    decreases |names| - from
  {
    if from == |names| then None
    else if Find(Lower(names[from]), keyword) then Some(from)
    else FirstMentionFrom(names, keyword, from + 1)
  }

  /** The (keyword, column) pair a keyword search picks among keywords k and later. */
  function PickFrom(names: seq<string>, keywords: seq<string>, k: nat): (r: Option<(nat, nat)>)
    requires k <= |keywords|
    ensures r.None? ==> forall j, d :: k <= j < |keywords| && 0 <= d < |names| ==> !Mentions(names, d, keywords[j])
    ensures r.Some? ==> k <= r.value.0 < |keywords| && Mentions(names, r.value.1, keywords[r.value.0])
                        && (forall j, d :: k <= j < r.value.0 && 0 <= d < |names| ==> !Mentions(names, d, keywords[j]))
                        && (forall d :: 0 <= d < r.value.1 ==> !Mentions(names, d, keywords[r.value.0]))
    decreases |keywords| - k
  {
    if k == |keywords| then None
    else
      match FirstMentionFrom(names, keywords[k], 0)
      case Some(c) => Some((k, c))
      case None => PickFrom(names, keywords, k + 1)
  }

  /** `find_by_keywords`: keywords in priority order, columns in column order, the
      first column whose lower-cased name contains the keyword. */
  function FindByKeywords(names: seq<string>, keywords: seq<string>): (r: Option<string>)
    ensures r.None? <==> forall k, c :: 0 <= k < |keywords| && 0 <= c < |names| ==> !Mentions(names, c, keywords[k])
    ensures r.Some? ==> exists k, c :: Picked(names, keywords, k, c) && r.value == names[c]
    ensures r.Some? ==> r.value in names
  {
    match PickFrom(names, keywords, 0)
    case Some(p) =>
      assert Picked(names, keywords, p.0, p.1);
      Some(names[p.1])
    case None => None
  }

  /** The last of the first `upto` columns whose lower-cased name is `key`. */
  function LastLowerEqual(names: seq<string>, key: string, upto: nat): (r: Option<nat>)
    requires upto <= |names|
    ensures r.Some? ==> r.value < upto && Lower(names[r.value]) == key
                        && forall d :: r.value < d < upto ==> Lower(names[d]) != key
    ensures r.None? ==> forall d :: 0 <= d < upto ==> Lower(names[d]) != key
  {
    if upto == 0 then None
    else if Lower(names[upto - 1]) == key then Some(upto - 1)
    else LastLowerEqual(names, key, upto - 1)
  }

  /** `{col.lower(): col for col in df.columns}.get(key)`: a later column with the same
      lower-cased name overwrites an earlier one. */
  function LowerLookup(names: seq<string>, key: string): (r: Option<string>)
    ensures r.None? <==> forall c :: 0 <= c < |names| ==> Lower(names[c]) != key
    ensures r.Some? ==> r.value in names && Lower(r.value) == key
    ensures r.Some? ==> exists c :: 0 <= c < |names| && r.value == names[c]
                                   && forall d :: c < d < |names| ==> Lower(names[d]) != key
  {
    match LastLowerEqual(names, key, |names|)
    case Some(c) => Some(names[c])
    case None => None
  }

  function ExactFrom(names: seq<string>, keywords: seq<string>, k: nat): (r: Option<nat>)
    requires k <= |keywords|
    ensures r.None? ==> forall j :: k <= j < |keywords| ==> LowerLookup(names, keywords[j]).None?
    ensures r.Some? ==> k <= r.value < |keywords| && LowerLookup(names, keywords[r.value]).Some?
                        && forall j :: k <= j < r.value ==> LowerLookup(names, keywords[j]).None?
    decreases |keywords| - k
  {
    if k == |keywords| then None
    else if LowerLookup(names, keywords[k]).Some? then Some(k)
    else ExactFrom(names, keywords, k + 1)
  }

  /** The first keyword that is exactly some lower-cased column name, and that column. */
  function ExactKeyword(names: seq<string>, keywords: seq<string>): (r: Option<string>)
    ensures r.None? <==> forall k :: 0 <= k < |keywords| ==> LowerLookup(names, keywords[k]).None?
    ensures r.Some? ==> exists k :: 0 <= k < |keywords| && r == LowerLookup(names, keywords[k])
                                    && forall j :: 0 <= j < k ==> LowerLookup(names, keywords[j]).None?
    ensures r.Some? ==> r.value in names
  {
    match ExactFrom(names, keywords, 0)
    case Some(k) => LowerLookup(names, keywords[k])
    case None => None
  }

  /** The first column of numeric dtype (`df.select_dtypes(include=[np.number]).columns[0]`). */
  function FirstNumeric(columns: seq<Column>): (r: Option<string>)
    ensures r.None? <==> forall c :: 0 <= c < |columns| ==> columns[c].dtype != NumericDtype
    ensures r.Some? ==> exists c :: 0 <= c < |columns| && columns[c].dtype == NumericDtype && r.value == columns[c].name
                                   && forall d :: 0 <= d < c ==> columns[d].dtype != NumericDtype
  {
    if |columns| == 0 then None
    else if columns[0].dtype == NumericDtype then Some(columns[0].name)
    else
      var rest := FirstNumeric(columns[1..]);
      if rest.Some? then
        var c :| 0 <= c < |columns[1..]| && columns[1..][c].dtype == NumericDtype && rest.value == columns[1..][c].name
                 && forall d :: 0 <= d < c ==> columns[1..][d].dtype != NumericDtype;
        assert forall d :: 1 <= d < c + 1 ==> columns[d] == columns[1..][d - 1];
        rest
      else
        assert forall d :: 1 <= d < |columns| ==> columns[d] == columns[1..][d - 1];
        rest
  }

  predicate DateLike(c: Column)
  {
    c.dtype == DatetimeDtype || c.headParses
  }

  /** `_first_datetime_column`: the first column of datetime dtype or whose head parses as dates. */
  function FirstDatetime(columns: seq<Column>): (r: Option<string>)
    ensures r.None? <==> forall c :: 0 <= c < |columns| ==> !DateLike(columns[c])
    ensures r.Some? ==> exists c :: 0 <= c < |columns| && DateLike(columns[c]) && r.value == columns[c].name
                                   && forall d :: 0 <= d < c ==> !DateLike(columns[d])
  {
    if |columns| == 0 then None
    else if DateLike(columns[0]) then Some(columns[0].name)
    else
      var rest := FirstDatetime(columns[1..]);
      if rest.Some? then
        var c :| 0 <= c < |columns[1..]| && DateLike(columns[1..][c]) && rest.value == columns[1..][c].name
                 && forall d :: 0 <= d < c ==> !DateLike(columns[1..][d]);
        assert forall d :: 1 <= d < c + 1 ==> columns[d] == columns[1..][d - 1];
        rest
      else
        assert forall d :: 1 <= d < |columns| ==> columns[d] == columns[1..][d - 1];
        rest
  }

  /** `_detect_column_mapping`: every detected column is a column of the frame. */
  lemma DateLikeInNames(f: Frame)
    ensures FirstDatetime(f.columns).Some? ==> FirstDatetime(f.columns).value in Names(f)
  {
    if FirstDatetime(f.columns).Some? {
      var c :| 0 <= c < |f.columns| && FirstDatetime(f.columns).value == f.columns[c].name;
      assert Names(f)[c] == f.columns[c].name;
    }
  }

  lemma NumericInNames(f: Frame)
    ensures FirstNumeric(f.columns).Some? ==> FirstNumeric(f.columns).value in Names(f)
  {
    if FirstNumeric(f.columns).Some? {
      var c :| 0 <= c < |f.columns| && FirstNumeric(f.columns).value == f.columns[c].name;
      assert Names(f)[c] == f.columns[c].name;
    }
  }

  function DetectColumnMapping(f: Frame): (m: ColumnMapping)
    ensures m.date.Some? ==> m.date.value in Names(f)
    ensures m.sku.Some? ==> m.sku.value in Names(f)
    ensures m.demand.Some? ==> m.demand.value in Names(f)
    ensures m.inventory.Some? ==> m.inventory.value in Names(f)
    ensures m.leadTime.Some? ==> m.leadTime.value in Names(f)
    ensures m.name.Some? ==> m.name.value in Names(f)
    ensures m.promoFlag.Some? ==> m.promoFlag.value in Names(f)
    ensures m.holidayFlag.Some? ==> m.holidayFlag.value in Names(f)
  {
    var names := Names(f);
    DateLikeInNames(f);
    NumericInNames(f);
    ColumnMapping(
      Or(FirstDatetime(f.columns), FindByKeywords(names, DateKeywords)),
      FindByKeywords(names, SkuKeywords),
      Or(ExactKeyword(names, DemandKeywords), FirstNumeric(f.columns)),
      FindByKeywords(names, InventoryKeywords),
      FindByKeywords(names, LeadTimeKeywords),
      FindByKeywords(names, NameKeywords),
      FindByKeywords(names, PromoKeywords),
      FindByKeywords(names, HolidayKeywords))
  }

  /** The demand column is an exact keyword match when some lower-cased column name is
      one of the (non-empty) keywords, and the first numeric column otherwise. */
  lemma {:induction false} ExactOrNumeric(names: seq<string>, keywords: seq<string>, columns: seq<Column>)
    requires forall k :: 0 <= k < |keywords| ==> keywords[k] != ""
    ensures var r := Or(ExactKeyword(names, keywords), FirstNumeric(columns));
      (exists c, k :: 0 <= c < |names| && 0 <= k < |keywords| && Lower(names[c]) == keywords[k]) ==>
        (r.Some? && r.value in names && exists k :: 0 <= k < |keywords| && Lower(r.value) == keywords[k])
    ensures (forall c, k :: 0 <= c < |names| && 0 <= k < |keywords| ==> Lower(names[c]) != keywords[k]) ==>
      Or(ExactKeyword(names, keywords), FirstNumeric(columns)) == FirstNumeric(columns)
  {
    var e := ExactKeyword(names, keywords);
    if e.Some? {
      var k :| 0 <= k < |keywords| && e == LowerLookup(names, keywords[k]);
      assert |Lower(e.value)| == |e.value|;
      assert Truthy(e);
    }
  }

  // Frequency and coverage

  /** The pandas frequencies detection can report. */
  datatype Frequency = Daily | Weekly | MonthEnd

  /** The pandas alias: "D", "W" (weeks ending on Sunday) or "M" (month ends). */
  function FrequencyCode(q: Frequency): string
  {
    match q
    case Daily => "D"
    case Weekly => "W"
    case MonthEnd => "M"
  }

  /** The days of the timestamp cells, in order; every other cell is NaT and dropped. */
  function PresentDays(cells: seq<Cell>): (ds: seq<Day>)
    ensures |ds| <= |cells|
    ensures forall d :: d in ds <==> Stamp(d) in cells
  {
    if |cells| == 0 then []
    else
      var init := PresentDays(cells[..|cells| - 1]);
      var last := cells[|cells| - 1];
      assert cells == cells[..|cells| - 1] + [last];
      if last.Stamp? then init + [last.d] else init
  }

  /** Gaps between consecutive days (`np.diff`). */
  function Gaps(ds: seq<int>): (g: seq<int>)
    ensures |g| == if |ds| == 0 then 0 else |ds| - 1
    ensures forall i :: 0 <= i < |g| ==> g[i] == ds[i + 1] - ds[i]
  {
    if |ds| <= 1 then [] else seq(|ds| - 1, i requires 0 <= i < |ds| - 1 => ds[i + 1] - ds[i])
  }

  function AsReals(xs: seq<int>): (r: seq<real>)
    ensures |r| == |xs| && forall i :: 0 <= i < |xs| ==> r[i] == xs[i] as real
  {
    seq(|xs|, i requires 0 <= i < |xs| => xs[i] as real)
  }

  /** `np.median(np.diff(days))`. */
  function MedianGap(ds: seq<int>): real
    requires |ds| >= 2
  {
    var g := Gaps(ds);
    var sorted := SortBy(g, Identity);
    SortBySortedPermutation(g, Identity);
    Median(AsReals(sorted))
  }

  /** `_detect_frequency`: None for fewer than three distinct days, otherwise the median
      gap decides: at most 1 is daily, at most 8 weekly, at most 32 monthly. */
  function DetectFrequency(cells: seq<Cell>): (r: Option<Frequency>)
    ensures |SortedUnique(PresentDays(cells))| < 3 ==> r.None?
    ensures r.Some? ==> |SortedUnique(PresentDays(cells))| >= 3
  {
    var ds := SortedUnique(PresentDays(cells));
    if |ds| < 3 then None else Classify(MedianGap(ds))
  }

  /** Every gap at least `lo` puts the median gap at least `lo`, every gap at most `hi` at most `hi`. */
  lemma MedianGapWithin(ds: seq<int>, lo: int, hi: int, bounded: bool)
    requires |ds| >= 2
    requires forall i :: 0 <= i < |Gaps(ds)| ==> lo <= Gaps(ds)[i] && (bounded ==> Gaps(ds)[i] <= hi)
    ensures lo as real <= MedianGap(ds) && (bounded ==> MedianGap(ds) <= hi as real)
  {
    var g := Gaps(ds);
    var sorted := SortBy(g, Identity);
    SortBySortedPermutation(g, Identity);
    assert sorted[0] in multiset(g) && sorted[|sorted| - 1] in multiset(g);
  }

  /** The frequency a median gap maps to. */
  function Classify(gap: real): Option<Frequency>
  {
    if gap <= 1.0 then Some(Daily)
    else if gap <= 8.0 then Some(Weekly)
    else if gap <= 32.0 then Some(MonthEnd)
    else None
  }

  /** Gaps that all lie within [lo, hi] (above lo when unbounded) decide the frequency
      through the median: all at most 1 give daily, all in (1, 8] weekly, all in
      (8, 32] monthly and all above 32 none. */
  lemma FrequencyFromGaps(cells: seq<Cell>, lo: int, hi: int, bounded: bool)
    requires |SortedUnique(PresentDays(cells))| >= 3
    requires forall i :: 0 <= i < |Gaps(SortedUnique(PresentDays(cells)))| ==>
      lo <= Gaps(SortedUnique(PresentDays(cells)))[i] && (bounded ==> Gaps(SortedUnique(PresentDays(cells)))[i] <= hi)
    ensures bounded && hi <= 1 ==> DetectFrequency(cells) == Some(Daily)
    ensures bounded && 2 <= lo && hi <= 8 ==> DetectFrequency(cells) == Some(Weekly)
    ensures bounded && 9 <= lo && hi <= 32 ==> DetectFrequency(cells) == Some(MonthEnd)
    ensures 33 <= lo ==> DetectFrequency(cells) == None
  {
    MedianGapWithin(SortedUnique(PresentDays(cells)), lo, hi, bounded);
  }

  /** A period start of pandas' `date_range` with this frequency. */
  predicate IsAnchor(d: Day, freq: Frequency)
  {
    match freq
    case Daily => true
    case Weekly => IsSunday(d)
    case MonthEnd => IsMonthEnd(d)
  }

  /** `len(pd.date_range(start, end, freq))`: the anchor days from start to end. */
  function CountAnchors(start: Day, end: Day, freq: Frequency): (n: nat)
    decreases end - start
  {
    if end < start then 0 else CountAnchors(start, end - 1, freq) + (if IsAnchor(end, freq) then 1 else 0)
  }

  /** A daily range counts every day. */
  lemma {:induction false} DailyAnchors(start: Day, end: Day)
    ensures CountAnchors(start, end, Daily) == if end < start then 0 else end - start + 1
    decreases end - start
  {
    if end >= start {
      DailyAnchors(start, end - 1);
    }
  }

  function MinDay(ds: seq<Day>): (m: Day)
    requires |ds| > 0
    ensures m in ds && forall i :: 0 <= i < |ds| ==> m <= ds[i]
  {
    if |ds| == 1 then ds[0]
    else
      var rest := MinDay(ds[1..]);
      assert forall i :: 1 <= i < |ds| ==> ds[i] == ds[1..][i - 1];
      if ds[0] <= rest then ds[0] else rest
  }

  function MaxDay(ds: seq<Day>): (m: Day)
    requires |ds| > 0
    ensures m in ds && forall i :: 0 <= i < |ds| ==> ds[i] <= m
  {
    if |ds| == 1 then ds[0]
    else
      var rest := MaxDay(ds[1..]);
      assert forall i :: 1 <= i < |ds| ==> ds[i] == ds[1..][i - 1];
      if ds[0] >= rest then ds[0] else rest
  }

  /** a / b as a float. */
  function Share(a: nat, b: nat): (r: real)
    requires b > 0
    ensures r >= 0.0
  {
    (a as real) / (b as real)
  }

  /** Distinct days over the expected periods from the first day to the last, to four decimals. */
  function CoverageRatio(ds: seq<Day>, freq: Frequency): (r: Option<real>)
    requires |ds| > 0
    ensures r.Some? ==> r.value >= 0.0
    ensures r.None? <==> CountAnchors(MinDay(ds), MaxDay(ds), freq) == 0
  {
    var expected := CountAnchors(MinDay(ds), MaxDay(ds), freq);
    if expected == 0 then None
    else
      var ratio := Share(|Unique(ds)|, expected);
      RoundNonNegative(ratio, 4);
      Some(Round(ratio, 4))
  }

  /** `_compute_date_coverage`: the coverage at the detected frequency (daily when none);
      None without a date column, dates or expected periods. */
  function Coverage(f: Frame, mapping: ColumnMapping): (r: Option<real>)
    ensures r.Some? ==> Truthy(mapping.date) && r.value >= 0.0
  {
    if !Truthy(mapping.date) then None
    else
      var cells := ColumnCells(f, mapping.date.value);
      var ds := PresentDays(cells);
      if |ds| == 0 then None
      else
        var detected := DetectFrequency(cells);
        CoverageRatio(ds, if detected.Some? then detected.value else Daily)
  }

  /** At the daily frequency the expected periods are every day from the first date
      to the last, so the coverage is the share of those days that occur. */
  lemma DailyCoverage(ds: seq<Day>)
    requires |ds| > 0
    ensures CountAnchors(MinDay(ds), MaxDay(ds), Daily) == MaxDay(ds) - MinDay(ds) + 1
    ensures CoverageRatio(ds, Daily) == Some(Round(Share(|Unique(ds)|, CountAnchors(MinDay(ds), MaxDay(ds), Daily)), 4))
  {
    var lo, hi := MinDay(ds), MaxDay(ds);
    assert lo <= ds[0] <= hi;
    DailyAnchors(lo, hi);
    var e := CountAnchors(lo, hi, Daily);
    assert e == hi - lo + 1;
    assert CoverageRatio(ds, Daily) == Some(Round(Share(|Unique(ds)|, e), 4));
  }

  // Anomalies

  const DefaultSku: string := "default_sku"

  /** The column is mapped, non-empty and present in the frame. */
  predicate MappedIn(f: Frame, col: Option<string>)
  {
    Truthy(col) && col.value in Names(f)
  }

  /** The group key of a row: the SKU cell when the SKU column is mapped and present,
      "default_sku" otherwise. */
  function SkuKeyOf(f: Frame, mapping: ColumnMapping): Row -> Option<string>
  {
    if MappedIn(f, mapping.sku) then
      var col := mapping.sku.value;
      (r: Row) => AsKey(CellOf(r, col))
    else
      (r: Row) => Some(DefaultSku)
  }

  /** A row that keeps its demand and date through `dropna` and has a group key. */
  datatype Observation = Observation(sku: string, date: Day, value: real)

  function Observations(rows: seq<Row>, key: Row -> Option<string>, dateCol: string, demandCol: string): (obs: seq<Observation>)
    ensures |obs| <= |rows|
  {
    if |rows| == 0 then []
    else
      var init := Observations(rows[..|rows| - 1], key, dateCol, demandCol);
      var r := rows[|rows| - 1];
      var k, d, v := key(r), AsDay(CellOf(r, dateCol)), AsReal(CellOf(r, demandCol));
      if k.Some? && d.Some? && v.Some? then init + [Observation(k.value, d.value, v.value)] else init
  }

  function SkusOf(obs: seq<Observation>): (ks: seq<string>)
    ensures |ks| == |obs| && forall i :: 0 <= i < |obs| ==> ks[i] == obs[i].sku
  {
    seq(|obs|, i requires 0 <= i < |obs| => obs[i].sku)
  }

  /** The observations of one SKU, in frame order (a `groupby` group). */
  function OfSku(obs: seq<Observation>, sku: string): (g: seq<Observation>)
    ensures |g| <= |obs| && forall i :: 0 <= i < |g| ==> g[i].sku == sku
  {
    if |obs| == 0 then []
    else OfSku(obs[..|obs| - 1], sku) + (if obs[|obs| - 1].sku == sku then [obs[|obs| - 1]] else [])
  }

  function ValuesOf(obs: seq<Observation>): (vs: seq<real>)
    ensures |vs| == |obs| && forall i :: 0 <= i < |obs| ==> vs[i] == obs[i].value
  {
    seq(|obs|, i requires 0 <= i < |obs| => obs[i].value)
  }

  function ZScore(v: real, mean: real, std: real): real
    requires std != 0.0
  {
    (v - mean) / std
  }

  predicate Outlier(o: Observation, mean: real, std: real)
    requires std != 0.0
  {
    Abs(ZScore(o.value, mean, std)) >= 3.0
  }

  function AnomalyOf(o: Observation, mean: real, std: real): (a: ValidationAnomaly)
    requires std != 0.0
  {
    ValidationAnomaly(o.sku, IsoDate(o.date), o.value, ZScore(o.value, mean, std))
  }

  /** The anomalies of the outlying observations, in order. */
  function Flagged(group: seq<Observation>, mean: real, std: real): (r: seq<ValidationAnomaly>)
    requires std != 0.0
    ensures |r| <= |group|
  {
    if |group| == 0 then []
    else
      var last := group[|group| - 1];
      Flagged(group[..|group| - 1], mean, std) + (if Outlier(last, mean, std) then [AnomalyOf(last, mean, std)] else [])
  }

  /** Exactly the observations with |z| >= 3 are flagged. */
  lemma {:induction false} FlaggedExactly(group: seq<Observation>, mean: real, std: real, a: ValidationAnomaly)
    requires std != 0.0
    ensures a in Flagged(group, mean, std) <==>
      exists i :: 0 <= i < |group| && Outlier(group[i], mean, std) && a == AnomalyOf(group[i], mean, std)
    decreases |group|
  {
    if |group| > 0 {
      var init := group[..|group| - 1];
      FlaggedExactly(init, mean, std, a);
      assert forall i :: 0 <= i < |init| ==> init[i] == group[i];
      if a in Flagged(init, mean, std) {
        var i :| 0 <= i < |init| && Outlier(init[i], mean, std) && a == AnomalyOf(init[i], mean, std);
        assert Outlier(group[i], mean, std) && a == AnomalyOf(group[i], mean, std);
      }
    }
  }

  /** One SKU group: examined only with at least ten values and a non-zero population
      standard deviation. */
  function GroupAnomalies(group: seq<Observation>, sqrt: real -> real): seq<ValidationAnomaly>
  {
    if |group| < 10 then []
    else
      var vs := ValuesOf(group);
      var std := sqrt(PopulationVariance(vs));
      if std == 0.0 then [] else Flagged(group, Mean(vs), std)
  }

  lemma GroupAnomaliesSpec(group: seq<Observation>, sqrt: real -> real, a: ValidationAnomaly)
    ensures a in GroupAnomalies(group, sqrt) <==>
      |group| >= 10 && sqrt(PopulationVariance(ValuesOf(group))) != 0.0
      && exists i :: 0 <= i < |group| && Outlier(group[i], Mean(ValuesOf(group)), sqrt(PopulationVariance(ValuesOf(group))))
                     && a == AnomalyOf(group[i], Mean(ValuesOf(group)), sqrt(PopulationVariance(ValuesOf(group))))
  {
    if |group| >= 10 && sqrt(PopulationVariance(ValuesOf(group))) != 0.0 {
      FlaggedExactly(group, Mean(ValuesOf(group)), sqrt(PopulationVariance(ValuesOf(group))), a);
    }
  }

  /** The anomalies of each SKU's group. */
  function GroupsOf(obs: seq<Observation>, sqrt: real -> real): string -> seq<ValidationAnomaly>
  {
    sku => GroupAnomalies(OfSku(obs, sku), sqrt)
  }

  /** The observations `_calculate_anomalies` groups, or none when the demand column is
      unmapped or absent or the date column unmapped. */
  function AnomalyInput(f: Frame, mapping: ColumnMapping): seq<Observation>
  {
    if !MappedIn(f, mapping.demand) || !Truthy(mapping.date) then []
    else Observations(f.rows, SkuKeyOf(f, mapping), mapping.date.value, mapping.demand.value)
  }

  /** `_calculate_anomalies`: groups in ascending SKU order (as `groupby` sorts them). */
  function AnomaliesOf(f: Frame, mapping: ColumnMapping, sqrt: real -> real): seq<ValidationAnomaly>
  {
    var obs := AnomalyInput(f, mapping);
    ConcatMap(SortedStrings(SkusOf(obs)), GroupsOf(obs, sqrt))
  }

  /** Concatenating over the sorted distinct SKUs visits every SKU's group. */
  lemma GroupedMembers<T>(obs: seq<Observation>, g: string -> seq<T>, a: T)
    ensures a in ConcatMap(SortedStrings(SkusOf(obs)), g) <==> exists i :: 0 <= i < |obs| && a in g(obs[i].sku)
  {
    var skus := SortedStrings(SkusOf(obs));
    SortedStringsSpec(SkusOf(obs));
    ConcatMapMembers(skus, g, a);
    if a in ConcatMap(skus, g) {
      var k :| 0 <= k < |skus| && a in g(skus[k]);
      assert skus[k] in SkusOf(obs);
      var i :| 0 <= i < |obs| && SkusOf(obs)[i] == skus[k];
    }
    if exists i :: 0 <= i < |obs| && a in g(obs[i].sku) {
      var i :| 0 <= i < |obs| && a in g(obs[i].sku);
      assert SkusOf(obs)[i] == obs[i].sku;
      assert obs[i].sku in skus;
      var k :| 0 <= k < |skus| && skus[k] == obs[i].sku;
      assert a in g(skus[k]);
    }
  }

  /** An anomaly is reported exactly when it is one of some SKU group's anomalies (see
      GroupAnomaliesSpec for which those are). */
  lemma AnomaliesSpec(f: Frame, mapping: ColumnMapping, sqrt: real -> real, a: ValidationAnomaly)
    ensures var obs := AnomalyInput(f, mapping);
      a in AnomaliesOf(f, mapping, sqrt) <==>
        exists i :: 0 <= i < |obs| && a in GroupAnomalies(OfSku(obs, obs[i].sku), sqrt)
  {
    var obs := AnomalyInput(f, mapping);
    GroupedMembers(obs, GroupsOf(obs, sqrt), a);
  }

  /** The anomaly loop of `_calculate_anomalies`, one SKU group at a time. */
  method CalculateAnomalies(f: Frame, mapping: ColumnMapping, sqrt: real -> real) returns (anomalies: seq<ValidationAnomaly>)
    ensures anomalies == AnomaliesOf(f, mapping, sqrt)
  {
    var obs := AnomalyInput(f, mapping);
    var skus := SortedStrings(SkusOf(obs));
    anomalies := [];
    var k := 0;
    while k < |skus|
      invariant 0 <= k <= |skus|
      invariant anomalies == ConcatMap(skus[..k], GroupsOf(obs, sqrt))
    {
      assert skus[..k + 1][..k] == skus[..k];
      anomalies := anomalies + GroupAnomalies(OfSku(obs, skus[k]), sqrt);
      k := k + 1;
    }
    assert skus[..k] == skus;
  }

  // Missing values and the validation summary

  function NullCount(cells: seq<Cell>): (n: nat)
    ensures n <= |cells|
    ensures n == 0 <==> forall i :: 0 <= i < |cells| ==> !cells[i].Null?
  {
    if |cells| == 0 then 0
    else
      var init := cells[..|cells| - 1];
      assert forall i :: 0 <= i < |init| ==> init[i] == cells[i];
      NullCount(init) + if cells[|cells| - 1].Null? then 1 else 0
  }

  /** `round(float(df[column].isna().mean()), 4)`: the missing share to four decimals
      (0 for a frame without rows, where pandas' mean is NaN). */
  function MissingShare(f: Frame, col: string): (r: real)
    ensures r >= 0.0
    ensures |f.rows| > 0 ==> Abs(r - Share(NullCount(ColumnCells(f, col)), |f.rows|)) <= 0.5 / (Pow10(4) as real)
  {
    if |f.rows| == 0 then 0.0
    else
      var share := Share(NullCount(ColumnCells(f, col)), |f.rows|);
      RoundNonNegative(share, 4);
      Round(share, 4)
  }

  /** The missing share of demand, inventory and lead time, for each of them mapped to a
      column the frame has. */
  function MissingByField(f: Frame, mapping: ColumnMapping): (m: map<string, real>)
    ensures "demand" in m <==> MappedIn(f, mapping.demand)
    ensures "inventory" in m <==> MappedIn(f, mapping.inventory)
    ensures "lead_time" in m <==> MappedIn(f, mapping.leadTime)
    ensures forall k :: k in m ==> k == "demand" || k == "inventory" || k == "lead_time"
    ensures "demand" in m ==> m["demand"] == MissingShare(f, mapping.demand.value)
    ensures "inventory" in m ==> m["inventory"] == MissingShare(f, mapping.inventory.value)
    ensures "lead_time" in m ==> m["lead_time"] == MissingShare(f, mapping.leadTime.value)
  {
    var m1 := if MappedIn(f, mapping.demand) then map["demand" := MissingShare(f, mapping.demand.value)] else map[];
    var m2 := if MappedIn(f, mapping.inventory) then m1["inventory" := MissingShare(f, mapping.inventory.value)] else m1;
    if MappedIn(f, mapping.leadTime) then m2["lead_time" := MissingShare(f, mapping.leadTime.value)] else m2
  }

  /** Both callers index the frame by a mapped date column, so it must be present. */
  predicate DateReadable(f: Frame, mapping: ColumnMapping)
  {
    !Truthy(mapping.date) || mapping.date.value in Names(f)
  }

  function FrequencyOf(cells: seq<Cell>): (r: Option<string>)
    ensures r.Some? ==> r.value in {"D", "W", "M"}
    ensures r.None? <==> DetectFrequency(cells).None?
  {
    var q := DetectFrequency(cells);
    if q.Some? then Some(FrequencyCode(q.value)) else None
  }

  /** `_build_validation_summary`. */
  function BuildSummary(f: Frame, mapping: ColumnMapping, sqrt: real -> real): (r: ValidationSummary)
    requires DateReadable(f, mapping)
    ensures r.rows == |f.rows| && r.columns == Names(f)
    ensures r.detectedFrequency.Some? ==> Truthy(mapping.date) && r.detectedFrequency.value in {"D", "W", "M"}
    ensures Truthy(mapping.date) ==> r.detectedFrequency == FrequencyOf(ColumnCells(f, mapping.date.value))
    ensures r.dateCoveragePct == Coverage(f, mapping)
    ensures r.missingByField == MissingByField(f, mapping)
    ensures r.anomalies == AnomaliesOf(f, mapping, sqrt)
  {
    ValidationSummary(|f.rows|, Names(f),
                      if Truthy(mapping.date) then FrequencyOf(ColumnCells(f, mapping.date.value)) else None,
                      Coverage(f, mapping), MissingByField(f, mapping), AnomaliesOf(f, mapping, sqrt))
  }

  // Validation

  /** The columns by kind, in frame order: numeric dtype, datetime dtype or a head that
      `pd.to_datetime` accepts, and the rest. */
  datatype ColumnKinds = ColumnKinds(dates: seq<string>, numerics: seq<string>, texts: seq<string>)

  function ClassifyColumn(k: ColumnKinds, c: Column): ColumnKinds
  {
    if c.dtype == NumericDtype then k.(numerics := k.numerics + [c.name])
    else if DateLike(c) then k.(dates := k.dates + [c.name])
    else k.(texts := k.texts + [c.name])
  }

  function KindsOf(columns: seq<Column>): (k: ColumnKinds)
    ensures |k.dates| + |k.numerics| + |k.texts| == |columns|
    ensures forall i :: 0 <= i < |columns| && columns[i].dtype == NumericDtype ==> columns[i].name in k.numerics
    ensures forall i :: 0 <= i < |columns| && columns[i].dtype != NumericDtype && DateLike(columns[i]) ==>
      columns[i].name in k.dates
    ensures forall i :: 0 <= i < |columns| && columns[i].dtype != NumericDtype && !DateLike(columns[i]) ==>
      columns[i].name in k.texts
    ensures forall n :: n in k.numerics ==> exists i :: 0 <= i < |columns| && columns[i].name == n && columns[i].dtype == NumericDtype
  {
    if |columns| == 0 then ColumnKinds([], [], [])
    else
      var init := columns[..|columns| - 1];
      assert forall i :: 0 <= i < |init| ==> init[i] == columns[i];
      ClassifyColumn(KindsOf(init), columns[|columns| - 1])
  }

  /** What `validate_csv_file` reports under "info" besides the summary. */
  datatype FileInfo = FileInfo(rows: nat, columns: seq<string>, kinds: ColumnKinds)

  datatype Warning = NoSkuColumn | LowCoverage | MissingDemand | Anomalies(count: nat)

  const NoSkuText: string := "Could not detect SKU/product column. Defaulting to single-product behaviour."
  const LowCoverageText: string := "Date coverage is below 70%. Consider filling gaps for better accuracy."
  const MissingDemandText: string := "More than 5% of demand values are missing. Fill or clean the dataset."
  const AnomaliesPrefix: string := "Detected "
  const AnomaliesSuffix: string := " potential demand anomalies (|z| >= 3.0)."

  function WarningText(w: Warning): string
  {
    match w
    case NoSkuColumn => NoSkuText
    case LowCoverage => LowCoverageText
    case MissingDemand => MissingDemandText
    case Anomalies(n) => AnomaliesPrefix + NatToString(n) + AnomaliesSuffix
  }

  function Texts(ws: seq<Warning>): (ts: seq<string>)
    ensures |ts| == |ws| && forall i :: 0 <= i < |ws| ==> ts[i] == WarningText(ws[i])
  {
    seq(|ws|, i requires 0 <= i < |ws| => WarningText(ws[i]))
  }

  const LowCoverageBound: real := 0.7
  const MissingDemandBound: real := 0.05

  /** The warnings of a frame that passed the emptiness check, in the order they are raised. */
  function WarningsOf(mapping: ColumnMapping, summary: ValidationSummary): seq<Warning>
  {
    (if !Truthy(mapping.sku) then [NoSkuColumn] else [])
    + (if summary.dateCoveragePct.Some? && summary.dateCoveragePct.value < LowCoverageBound then [LowCoverage] else [])
    + (if "demand" in summary.missingByField && summary.missingByField["demand"] > MissingDemandBound then [MissingDemand] else [])
    + (if |summary.anomalies| > 0 then [Anomalies(|summary.anomalies|)] else [])
  }

  /** Each warning is raised exactly when its condition holds, at most once, and the
      anomaly warning carries the number of anomalies. */
  lemma WarningsSpec(mapping: ColumnMapping, summary: ValidationSummary)
    ensures NoSkuColumn in WarningsOf(mapping, summary) <==> !Truthy(mapping.sku)
    ensures LowCoverage in WarningsOf(mapping, summary) <==>
      summary.dateCoveragePct.Some? && summary.dateCoveragePct.value < 0.7
    ensures MissingDemand in WarningsOf(mapping, summary) <==>
      "demand" in summary.missingByField && summary.missingByField["demand"] > 0.05
    ensures forall n :: Anomalies(n) in WarningsOf(mapping, summary) <==> n == |summary.anomalies| && n > 0
    ensures |WarningsOf(mapping, summary)| <= 4
  {
  }

  datatype ValidationResult = ValidationResult(
    valid: bool,
    errors: seq<string>,
    warnings: seq<string>,
    info: Option<FileInfo>,
    mapping: Option<ColumnMapping>,
    summary: Option<ValidationSummary>)

  const ReadErrorPrefix: string := "Error reading CSV file: "
  const EmptyFileError: string := "CSV file is empty"
  const MissingRequiredPrefix: string := "Missing required column(s) for "
  const MissingRequiredInfix: string := " mode: "

  /** The required fields, date and demand in both modes, that the mapping leaves unset. */
  function MissingRequired(mapping: ColumnMapping): (names: seq<string>)
    ensures "date" in names <==> !Truthy(mapping.date)
    ensures "demand" in names <==> !Truthy(mapping.demand)
    ensures names == [] <==> Truthy(mapping.date) && Truthy(mapping.demand)
  {
    (if Truthy(mapping.date) then [] else ["date"]) + (if Truthy(mapping.demand) then [] else ["demand"])
  }

  /** The column-type loop of `validate_csv_file`. */
  method ClassifyColumns(columns: seq<Column>) returns (kinds: ColumnKinds)
    ensures kinds == KindsOf(columns)
  {
    kinds := ColumnKinds([], [], []);
    var i := 0;
    while i < |columns|
      invariant 0 <= i <= |columns|
      invariant KindsSoFar(kinds, columns, i)
    {
      KindsStep(columns, i);
      kinds := ClassifyColumn(kinds, columns[i]);
      i := i + 1;
    }
    assert columns[..i] == columns;
  }

  ghost predicate KindsSoFar(kinds: ColumnKinds, columns: seq<Column>, i: int)
    requires 0 <= i <= |columns|
  {
    kinds == KindsOf(columns[..i])
  }

  lemma KindsStep(columns: seq<Column>, i: int)
    requires 0 <= i < |columns|
    ensures KindsOf(columns[..i + 1]) == ClassifyColumn(KindsOf(columns[..i]), columns[i])
  {
    assert columns[..i + 1][..i] == columns[..i];
  }

  /** `validate_csv_file`, given the outcome of reading the file. */
  method ValidateCsvFile(read: Result<Frame>, mode: ForecastMode, sqrt: real -> real) returns (r: ValidationResult)
    ensures r.valid <==> read.Ok? && !IsEmpty(read.value) && MissingRequired(DetectColumnMapping(read.value)) == []
    ensures read.Err? ==> r == ValidationResult(false, [ReadErrorPrefix + read.error], [], None, None, None)
    ensures read.Ok? && IsEmpty(read.value) ==>
      r == ValidationResult(false, [EmptyFileError], [], Some(FileInfo(|read.value.rows|, Names(read.value), ColumnKinds([], [], []))), None, None)
    ensures read.Ok? && !IsEmpty(read.value) ==>
      var f := read.value;
      var mapping := DetectColumnMapping(f);
      var missing := MissingRequired(mapping);
      var summary := BuildSummary(f, mapping, sqrt);
      && r.info == Some(FileInfo(|f.rows|, Names(f), KindsOf(f.columns)))
      && r.mapping == Some(mapping) && r.summary == Some(summary)
      && r.errors == (if missing == [] then [] else [MissingRequiredPrefix + ModeValue(mode) + MissingRequiredInfix + Join(missing, ", ")])
      && r.warnings == Texts(WarningsOf(mapping, summary))
  {
    if read.Err? {
      return ValidationResult(false, [ReadErrorPrefix + read.error], [], None, None, None);
    }
    var f := read.value;
    if IsEmpty(f) {
      return ValidationResult(false, [EmptyFileError], [], Some(FileInfo(|f.rows|, Names(f), ColumnKinds([], [], []))), None, None);
    }
    var mapping := DetectColumnMapping(f);
    var kinds := ClassifyColumns(f.columns);
    var missing := MissingRequired(mapping);
    var errors := if missing == [] then [] else [MissingRequiredPrefix + ModeValue(mode) + MissingRequiredInfix + Join(missing, ", ")];
    var summary := BuildSummary(f, mapping, sqrt);
    r := ValidationResult(missing == [], errors, Texts(WarningsOf(mapping, summary)), Some(FileInfo(|f.rows|, Names(f), kinds)),
                          Some(mapping), Some(summary));
  }

  // Inventory snapshot and lead times

  predicate HasDate(r: Row, col: string)
  {
    CellOf(r, col).Stamp?
  }

  /** The day of a row's date cell (0 for a row without one). */
  function DayIn(r: Row, col: string): int
  {
    if HasDate(r, col) then CellOf(r, col).d else 0
  }

  /** The sort key of `sort_values(col)` for the dated rows. */
  function RowDay(col: string): Row -> int
  {
    (r: Row) => DayIn(r, col)
  }

  function Dated(rows: seq<Row>, col: string): (d: seq<Row>)
    ensures forall r :: r in d ==> HasDate(r, col)
  {
    if |rows| == 0 then []
    else Dated(rows[..|rows| - 1], col) + if HasDate(rows[|rows| - 1], col) then [rows[|rows| - 1]] else []
  }

  function Undated(rows: seq<Row>, col: string): (u: seq<Row>)
    ensures forall r :: r in u ==> !HasDate(r, col)
  {
    if |rows| == 0 then []
    else Undated(rows[..|rows| - 1], col) + if HasDate(rows[|rows| - 1], col) then [] else [rows[|rows| - 1]]
  }

  /** Every row is either dated or undated. */
  lemma {:induction false} DatedUndated(rows: seq<Row>, col: string)
    ensures multiset(Dated(rows, col)) + multiset(Undated(rows, col)) == multiset(rows)
    decreases |rows|
  {
    if |rows| > 0 {
      var init := rows[..|rows| - 1];
      DatedUndated(init, col);
      assert rows == init + [rows[|rows| - 1]];
    }
  }

  /** `df.sort_values(col)`: the dated rows by day, then the rows without a date. */
  function SortedByDate(rows: seq<Row>, col: string): seq<Row>
  {
    SortBy(Dated(rows, col), RowDay(col)) + Undated(rows, col)
  }

  /** The sort is a permutation in which every row before a dated row is dated and no
      later, so the rows without a date come last. */
  lemma SortedByDateSpec(rows: seq<Row>, col: string)
    ensures multiset(SortedByDate(rows, col)) == multiset(rows)
    ensures var r := SortedByDate(rows, col);
      forall i, j :: 0 <= i < j < |r| && HasDate(r[j], col) ==>
        HasDate(r[i], col) && DayIn(r[i], col) <= DayIn(r[j], col)
  {
    var d := Dated(rows, col);
    var u := Undated(rows, col);
    var key := RowDay(col);
    var sorted := SortBy(d, key);
    SortBySortedPermutation(d, key);
    SortByMembers(d, key);
    DatedUndated(rows, col);
    var r := sorted + u;
    forall i, j | 0 <= i < j < |r| && HasDate(r[j], col)
      ensures HasDate(r[i], col) && DayIn(r[i], col) <= DayIn(r[j], col)
    {
      assert r[i] == sorted[i] && r[j] == sorted[j];
      assert sorted[i] in d && sorted[j] in d;
      assert key(sorted[i]) <= key(sorted[j]);
    }
  }

  /** Row r holds a value for group k in `col`: it survives `dropna` in k's series. */
  predicate Carries(r: Row, key: Row -> Option<string>, col: string, k: string)
  {
    key(r) == Some(k) && AsReal(CellOf(r, col)).Some?
  }

  /** `series.dropna().iloc[-1]` of every group: the last value each key holds in `col`. */
  function LastValues(rows: seq<Row>, key: Row -> Option<string>, col: string): map<string, real>
  {
    if |rows| == 0 then map[]
    else
      var m := LastValues(rows[..|rows| - 1], key, col);
      var r := rows[|rows| - 1];
      if key(r).Some? && AsReal(CellOf(r, col)).Some? then m[key(r).value := AsReal(CellOf(r, col)).value] else m
  }

  /** A key has a last value exactly when some row carries it. */
  lemma {:induction false} LastValuesKeys(rows: seq<Row>, key: Row -> Option<string>, col: string, k: string)
    ensures k in LastValues(rows, key, col) <==> exists i :: 0 <= i < |rows| && Carries(rows[i], key, col, k)
    decreases |rows|
  {
    if |rows| > 0 {
      var init := rows[..|rows| - 1];
      LastValuesKeys(init, key, col, k);
      if exists i :: 0 <= i < |init| && Carries(init[i], key, col, k) {
        var i :| 0 <= i < |init| && Carries(init[i], key, col, k);
        assert init[i] == rows[i];
      }
      if exists i :: 0 <= i < |rows| && Carries(rows[i], key, col, k) {
        var i :| 0 <= i < |rows| && Carries(rows[i], key, col, k);
        if i < |init| {
          assert init[i] == rows[i];
        }
      }
    }
  }

  /** The last value of a key is the one of the last row carrying it. */
  lemma {:induction false} LastValuesLast(rows: seq<Row>, key: Row -> Option<string>, col: string, k: string)
    requires k in LastValues(rows, key, col)
    ensures exists i :: (0 <= i < |rows| && Carries(rows[i], key, col, k)
      && LastValues(rows, key, col)[k] == AsReal(CellOf(rows[i], col)).value
      && forall j :: i < j < |rows| ==> !Carries(rows[j], key, col, k))
    decreases |rows|
  {
    var init := rows[..|rows| - 1];
    var last := |rows| - 1;
    if !Carries(rows[last], key, col, k) {
      LastValuesLast(init, key, col, k);
      var i :| 0 <= i < |init| && Carries(init[i], key, col, k)
        && LastValues(init, key, col)[k] == AsReal(CellOf(init[i], col)).value
        && forall j :: i < j < |init| ==> !Carries(init[j], key, col, k);
      assert init[i] == rows[i];
      forall j | i < j < |rows| ensures !Carries(rows[j], key, col, k) {
        if j < last {
          assert init[j] == rows[j];
        }
      }
    }
  }

  lemma SameMembers(a: seq<Row>, b: seq<Row>)
    requires multiset(a) == multiset(b)
    ensures forall r :: r in a <==> r in b
  {
    forall r ensures r in a <==> r in b {
      assert r in a <==> r in multiset(a);
      assert r in b <==> r in multiset(b);
    }
  }

  /** Every row of `rows` carrying k is dated no later than r. */
  ghost predicate LatestFor(rows: seq<Row>, r: Row, key: Row -> Option<string>, col: string, date: string, k: string)
  {
    forall r' :: r' in rows && Carries(r', key, col, k) ==> HasDate(r', date) && DayIn(r', date) <= DayIn(r, date)
  }

  /** Reordering the rows does not change which keys have a last value. */
  lemma LastOfOrderedKeys(rows: seq<Row>, ordered: seq<Row>, key: Row -> Option<string>, col: string, k: string)
    requires multiset(ordered) == multiset(rows)
    ensures k in LastValues(ordered, key, col) <==> exists r :: r in rows && Carries(r, key, col, k)
  {
    SameMembers(ordered, rows);
    LastValuesKeys(ordered, key, col, k);
    if exists r :: r in rows && Carries(r, key, col, k) {
      var r :| r in rows && Carries(r, key, col, k);
      var j :| 0 <= j < |ordered| && ordered[j] == r;
    }
  }

  /** Reading the last values over rows sorted by date with the undated last, a key's
      value is that of a carrying row which, when dated, is the latest of them. */
  lemma LastOfOrdered(rows: seq<Row>, ordered: seq<Row>, key: Row -> Option<string>, col: string,
                      date: string, byDate: bool, k: string)
    requires multiset(ordered) == multiset(rows)
    requires byDate ==> forall i, j :: 0 <= i < j < |ordered| && HasDate(ordered[j], date) ==>
      HasDate(ordered[i], date) && DayIn(ordered[i], date) <= DayIn(ordered[j], date)
    requires k in LastValues(ordered, key, col)
    ensures exists r :: (r in rows && Carries(r, key, col, k)
        && LastValues(ordered, key, col)[k] == AsReal(CellOf(r, col)).value
        && (byDate && HasDate(r, date) ==> LatestFor(rows, r, key, col, date, k)))
  {
    SameMembers(ordered, rows);
    LastValuesLast(ordered, key, col, k);
    var i :| 0 <= i < |ordered| && Carries(ordered[i], key, col, k)
      && LastValues(ordered, key, col)[k] == AsReal(CellOf(ordered[i], col)).value
      && forall j :: i < j < |ordered| ==> !Carries(ordered[j], key, col, k);
    if byDate && HasDate(ordered[i], date) {
      LatestInOrder(ordered, key, col, date, k, i);
      LatestForSameMembers(ordered, rows, ordered[i], key, col, date, k);
    }
    assert ordered[i] in rows;
  }

  /** In date order, the last carrying row is the latest carrying row. */
  lemma LatestInOrder(ordered: seq<Row>, key: Row -> Option<string>, col: string, date: string, k: string, i: int)
    requires forall i, j :: 0 <= i < j < |ordered| && HasDate(ordered[j], date) ==>
      HasDate(ordered[i], date) && DayIn(ordered[i], date) <= DayIn(ordered[j], date)
    requires 0 <= i < |ordered| && HasDate(ordered[i], date)
    requires forall j :: i < j < |ordered| ==> !Carries(ordered[j], key, col, k)
    ensures LatestFor(ordered, ordered[i], key, col, date, k)
  {
    forall r' | r' in ordered && Carries(r', key, col, k)
      ensures HasDate(r', date) && DayIn(r', date) <= DayIn(ordered[i], date)
    {
      var j :| 0 <= j < |ordered| && ordered[j] == r';
    }
  }

  lemma LatestForSameMembers(a: seq<Row>, b: seq<Row>, r: Row, key: Row -> Option<string>, col: string, date: string, k: string)
    requires forall x :: x in a <==> x in b
    requires LatestFor(a, r, key, col, date, k)
    ensures LatestFor(b, r, key, col, date, k)
  {
  }

  /** The group loop of `_extract_inventory_snapshot` and `_extract_lead_times`. */
  method CollectLast(rows: seq<Row>, key: Row -> Option<string>, col: string) returns (m: map<string, real>)
    ensures m == LastValues(rows, key, col)
  {
    m := map[];
    var i := 0;
    while i < |rows|
      invariant 0 <= i <= |rows|
      invariant m == LastValues(rows[..i], key, col)
    {
      assert rows[..i + 1][..i] == rows[..i];
      var k, v := key(rows[i]), AsReal(CellOf(rows[i], col));
      if k.Some? && v.Some? {
        m := m[k.value := v.value];
      }
      i := i + 1;
    }
    assert rows[..i] == rows;
  }

  /** The rows in the order the snapshot reads them: by date when the date column is there. */
  function SnapshotRows(f: Frame, mapping: ColumnMapping): seq<Row>
  {
    if MappedIn(f, mapping.date) then SortedByDate(f.rows, mapping.date.value) else f.rows
  }

  /** `_extract_inventory_snapshot`: the latest inventory of every SKU that has one. */
  function InventorySnapshot(f: Frame, mapping: ColumnMapping): map<string, real>
  {
    if !MappedIn(f, mapping.inventory) then map[]
    else LastValues(SnapshotRows(f, mapping), SkuKeyOf(f, mapping), mapping.inventory.value)
  }

  /** Only a mapped, present inventory column yields a snapshot; a SKU is in it exactly
      when one of its rows records an inventory, and its value is the one recorded on the
      latest date (every other row recording one is dated no later). */
  lemma SnapshotSpec(f: Frame, mapping: ColumnMapping, k: string)
    ensures !MappedIn(f, mapping.inventory) ==> InventorySnapshot(f, mapping) == map[]
    ensures MappedIn(f, mapping.inventory) ==>
      (k in InventorySnapshot(f, mapping) <==>
         exists r :: r in f.rows && Carries(r, SkuKeyOf(f, mapping), mapping.inventory.value, k))
    ensures MappedIn(f, mapping.inventory) && k in InventorySnapshot(f, mapping) ==>
      exists r :: (r in f.rows && Carries(r, SkuKeyOf(f, mapping), mapping.inventory.value, k)
        && InventorySnapshot(f, mapping)[k] == AsReal(CellOf(r, mapping.inventory.value)).value
        && (MappedIn(f, mapping.date) && HasDate(r, mapping.date.value) ==>
              LatestFor(f.rows, r, SkuKeyOf(f, mapping), mapping.inventory.value, mapping.date.value, k)))
  {
    if MappedIn(f, mapping.inventory) {
      var byDate := MappedIn(f, mapping.date);
      var date := if byDate then mapping.date.value else "";
      if byDate {
        SortedByDateSpec(f.rows, date);
      }
      LastOfOrderedKeys(f.rows, SnapshotRows(f, mapping), SkuKeyOf(f, mapping), mapping.inventory.value, k);
      if k in InventorySnapshot(f, mapping) {
        LastOfOrdered(f.rows, SnapshotRows(f, mapping), SkuKeyOf(f, mapping), mapping.inventory.value, date, byDate, k);
      }
    }
  }

  /** `_extract_inventory_snapshot`. */
  method ExtractInventorySnapshot(f: Frame, mapping: ColumnMapping) returns (snapshot: map<string, real>)
    ensures snapshot == InventorySnapshot(f, mapping)
  {
    if !MappedIn(f, mapping.inventory) {
      return map[];
    }
    var rows := SnapshotRows(f, mapping);
    snapshot := CollectLast(rows, SkuKeyOf(f, mapping), mapping.inventory.value);
  }

  /** The group keys of `groupby`: every key some row has (rows without one are dropped). */
  function KeysOf(rows: seq<Row>, key: Row -> Option<string>): (ks: set<string>)
    ensures forall k :: k in ks <==> exists i :: 0 <= i < |rows| && key(rows[i]) == Some(k)
  {
    if |rows| == 0 then {}
    else
      var init := rows[..|rows| - 1];
      assert forall i :: 0 <= i < |init| ==> init[i] == rows[i];
      KeysOf(init, key) + if key(rows[|rows| - 1]).Some? then {key(rows[|rows| - 1]).value} else {}
  }

  /** Python's `int(x)` on a float: truncation toward zero. */
  function Trunc(x: real): (n: int)
    ensures x >= 0.0 ==> n as real <= x < n as real + 1.0
    ensures x < 0.0 ==> n as real - 1.0 < x <= n as real
  {
    if x >= 0.0 then x.Floor else -((-x).Floor)
  }

  /** `_extract_lead_times`. */
  function LeadTimes(f: Frame, mapping: ColumnMapping, default: int): map<string, int>
  {
    var key := SkuKeyOf(f, mapping);
    if MappedIn(f, mapping.leadTime) then
      var last := LastValues(f.rows, key, mapping.leadTime.value);
      if MappedIn(f, mapping.sku) then
        map k | k in KeysOf(f.rows, key) :: if k in last then Trunc(last[k]) else default
      else
        map[DefaultSku := if DefaultSku in last then Trunc(last[DefaultSku]) else default]
    else if MappedIn(f, mapping.sku) then
      map k | k in KeysOf(f.rows, key) :: default
    else
      map[DefaultSku := default]
  }

  /** Every SKU with a row (or the single default SKU) gets a lead time: the truncated
      last lead time it records, or the default when it records none. */
  lemma LeadTimesSpec(f: Frame, mapping: ColumnMapping, default: int, k: string)
    ensures k in LeadTimes(f, mapping, default) <==>
      if MappedIn(f, mapping.sku) then exists i :: 0 <= i < |f.rows| && SkuKeyOf(f, mapping)(f.rows[i]) == Some(k)
      else k == DefaultSku
    ensures k in LeadTimes(f, mapping, default) && !MappedIn(f, mapping.leadTime) ==> LeadTimes(f, mapping, default)[k] == default
    ensures MappedIn(f, mapping.leadTime) && k in LeadTimes(f, mapping, default) ==>
      if exists i :: 0 <= i < |f.rows| && Carries(f.rows[i], SkuKeyOf(f, mapping), mapping.leadTime.value, k) then
        exists i :: (0 <= i < |f.rows| && Carries(f.rows[i], SkuKeyOf(f, mapping), mapping.leadTime.value, k)
          && LeadTimes(f, mapping, default)[k] == Trunc(AsReal(CellOf(f.rows[i], mapping.leadTime.value)).value)
          && forall j :: i < j < |f.rows| ==> !Carries(f.rows[j], SkuKeyOf(f, mapping), mapping.leadTime.value, k))
      else LeadTimes(f, mapping, default)[k] == default
  {
    if MappedIn(f, mapping.leadTime) {
      var key, col := SkuKeyOf(f, mapping), mapping.leadTime.value;
      LastValuesKeys(f.rows, key, col, k);
      if k in LastValues(f.rows, key, col) {
        LastValuesLast(f.rows, key, col, k);
      }
    }
  }

  /** `_extract_lead_times`. */
  method ExtractLeadTimes(f: Frame, mapping: ColumnMapping, default: int) returns (leadTimes: map<string, int>)
    ensures leadTimes == LeadTimes(f, mapping, default)
  {
    var key := SkuKeyOf(f, mapping);
    if MappedIn(f, mapping.leadTime) {
      var last := CollectLast(f.rows, key, mapping.leadTime.value);
      if MappedIn(f, mapping.sku) {
        leadTimes := map k | k in KeysOf(f.rows, key) :: if k in last then Trunc(last[k]) else default;
      } else {
        leadTimes := map[DefaultSku := if DefaultSku in last then Trunc(last[DefaultSku]) else default];
      }
    } else if MappedIn(f, mapping.sku) {
      leadTimes := map k | k in KeysOf(f.rows, key) :: default;
    } else {
      leadTimes := map[DefaultSku := default];
    }
  }

  // The demand series

  /** A row of the demand frame: SKU, day and summed demand. */
  datatype DemandRow = DemandRow(uniqueId: string, ds: Day, y: real)

  /** The module's `DemandArtifacts`. */
  datatype DemandArtifacts = DemandArtifacts(
    demand: seq<DemandRow>,
    inventoryOnHand: map<string, real>,
    leadTimes: map<string, int>,
    frequency: string,
    validation: ValidationSummary)

  const SkuTag: string := "__sku__"

  /** Adds the SKU tag: the SKU cell when a SKU column is mapped, "default_sku" otherwise. */
  function TagRow(r: Row, mapping: ColumnMapping): Row
  {
    r[SkuTag := if Truthy(mapping.sku) then CellOf(r, mapping.sku.value) else Str(DefaultSku)]
  }

  function TagRows(rows: seq<Row>, mapping: ColumnMapping): (t: seq<Row>)
    ensures |t| == |rows| && forall i :: 0 <= i < |rows| ==> t[i] == TagRow(rows[i], mapping)
  {
    seq(|rows|, i requires 0 <= i < |rows| => TagRow(rows[i], mapping))
  }

  /** The frame `prepare_demand_artifacts` works on: undated rows dropped, sorted by date
      and tagged with the SKU column "__sku__". */
  function Processed(f: Frame, mapping: ColumnMapping): (p: Frame)
    requires Truthy(mapping.date)
    ensures forall n :: n in Names(f) ==> n in Names(p)
    ensures SkuTag in Names(p)
  {
    var date := mapping.date.value;
    var rows := TagRows(SortBy(Dated(f.rows, date), RowDay(date)), mapping);
    var columns := if SkuTag in Names(f) then f.columns else f.columns + [Column(SkuTag, ObjectDtype, false)];
    assert forall i :: 0 <= i < |f.columns| ==> columns[i] == f.columns[i];
    assert SkuTag !in Names(f) ==> columns[|f.columns|].name == SkuTag;
    Frame(columns, rows)
  }

  /** The processed rows are the dated rows in date order, each tagged with its SKU. */
  lemma ProcessedSpec(f: Frame, mapping: ColumnMapping)
    requires Truthy(mapping.date) && mapping.date.value != SkuTag
    ensures var p := Processed(f, mapping); var date := mapping.date.value;
      && |p.rows| == |Dated(f.rows, date)|
      && (forall i :: 0 <= i < |p.rows| ==> HasDate(p.rows[i], date))
      && (forall i, j :: 0 <= i < j < |p.rows| ==> DayIn(p.rows[i], date) <= DayIn(p.rows[j], date))
      && (forall i :: 0 <= i < |p.rows| ==>
            CellOf(p.rows[i], SkuTag) == (if Truthy(mapping.sku) then CellOf(p.rows[i], mapping.sku.value) else Str(DefaultSku)))
  {
    var date := mapping.date.value;
    var d := Dated(f.rows, date);
    var sorted := SortBy(d, RowDay(date));
    SortBySortedPermutation(d, RowDay(date));
    SortByMembers(d, RowDay(date));
    var p := Processed(f, mapping);
    forall i | 0 <= i < |p.rows| ensures HasDate(p.rows[i], date) && DayIn(p.rows[i], date) == DayIn(sorted[i], date) {
      assert sorted[i] in d;
    }
  }

  /** The (SKU, day, demand) entries `groupby(["__sku__", date])` sums: rows with a SKU tag
      and a date; a missing or non-numeric demand adds nothing. */
  function DemandEntries(rows: seq<Row>, date: string, demand: string): (es: seq<Observation>)
    ensures |es| <= |rows|
  {
    if |rows| == 0 then []
    else
      var init := DemandEntries(rows[..|rows| - 1], date, demand);
      var r := rows[|rows| - 1];
      var k, v := AsKey(CellOf(r, SkuTag)), AsReal(CellOf(r, demand));
      if k.Some? && HasDate(r, date) then init + [Observation(k.value, DayIn(r, date), if v.Some? then v.value else 0.0)]
      else init
  }

  /** The demand of one (SKU, day) slot: the sum of its entries. */
  function SlotTotal(es: seq<Observation>, sku: string, day: Day): real
  {
    if |es| == 0 then 0.0
    else
      var e := es[|es| - 1];
      SlotTotal(es[..|es| - 1], sku, day) + if e.sku == sku && e.date == day then e.value else 0.0
  }

  function DaysOf(es: seq<Observation>): (ds: seq<int>)
    ensures |ds| == |es| && forall i :: 0 <= i < |es| ==> ds[i] == es[i].date
  {
    seq(|es|, i requires 0 <= i < |es| => es[i].date)
  }

  /** One SKU's rows of the demand frame: its days in increasing order with their totals. */
  function SkuRows(es: seq<Observation>, sku: string): (rows: seq<DemandRow>)
    ensures forall i :: 0 <= i < |rows| ==> rows[i].uniqueId == sku
  {
    var days := SortedUnique(DaysOf(OfSku(es, sku)));
    seq(|days|, i requires 0 <= i < |days| => DemandRow(sku, days[i], SlotTotal(es, sku, days[i])))
  }

  function RowsFor(es: seq<Observation>): string -> seq<DemandRow>
  {
    sku => SkuRows(es, sku)
  }

  /** `groupby(["__sku__", date])[demand].sum().reset_index()`: SKUs in ascending order,
      each SKU's days in ascending order. */
  function Aggregate(es: seq<Observation>): seq<DemandRow>
  {
    ConcatMap(SortedStrings(SkusOf(es)), RowsFor(es))
  }

  lemma {:induction false} OfSkuMembers(es: seq<Observation>, sku: string, o: Observation)
    ensures o in OfSku(es, sku) <==> o in es && o.sku == sku
    decreases |es|
  {
    if |es| > 0 {
      var init := es[..|es| - 1];
      OfSkuMembers(init, sku, o);
      assert es == init + [es[|es| - 1]];
    }
  }

  /** Every row of a SKU is one of its days with that slot's total. */
  lemma SkuRowsSound(es: seq<Observation>, sku: string, row: DemandRow)
    requires row in SkuRows(es, sku)
    ensures exists i :: 0 <= i < |es| && es[i].sku == sku && row == DemandRow(sku, es[i].date, SlotTotal(es, sku, es[i].date))
  {
    var g := OfSku(es, sku);
    var days := SortedUnique(DaysOf(g));
    SortedUniqueSpec(DaysOf(g));
    var rows := SkuRows(es, sku);
    var k :| 0 <= k < |rows| && rows[k] == row;
    assert days[k] in DaysOf(g);
    var j :| 0 <= j < |g| && DaysOf(g)[j] == days[k];
    OfSkuMembers(es, sku, g[j]);
    var i :| 0 <= i < |es| && es[i] == g[j];
  }

  /** Every day of a SKU has its row. */
  lemma SkuRowsComplete(es: seq<Observation>, sku: string, i: int)
    requires 0 <= i < |es| && es[i].sku == sku
    ensures DemandRow(sku, es[i].date, SlotTotal(es, sku, es[i].date)) in SkuRows(es, sku)
  {
    var g := OfSku(es, sku);
    var days := SortedUnique(DaysOf(g));
    SortedUniqueSpec(DaysOf(g));
    OfSkuMembers(es, sku, es[i]);
    var j :| 0 <= j < |g| && g[j] == es[i];
    assert DaysOf(g)[j] == es[i].date;
    var k :| 0 <= k < |days| && days[k] == es[i].date;
    assert SkuRows(es, sku)[k] == DemandRow(sku, es[i].date, SlotTotal(es, sku, es[i].date));
  }

  /** The demand frame holds one row for every (SKU, day) slot that has entries, with the
      slot's total, and no other rows. */
  lemma AggregateMembers(es: seq<Observation>, row: DemandRow)
    ensures row in Aggregate(es) <==>
      exists i :: 0 <= i < |es| && row == DemandRow(es[i].sku, es[i].date, SlotTotal(es, es[i].sku, es[i].date))
  {
    GroupedMembers(es, RowsFor(es), row);
    if row in Aggregate(es) {
      var i :| 0 <= i < |es| && row in SkuRows(es, es[i].sku);
      SkuRowsSound(es, es[i].sku, row);
    }
    if exists i :: 0 <= i < |es| && row == DemandRow(es[i].sku, es[i].date, SlotTotal(es, es[i].sku, es[i].date)) {
      var i :| 0 <= i < |es| && row == DemandRow(es[i].sku, es[i].date, SlotTotal(es, es[i].sku, es[i].date));
      SkuRowsComplete(es, es[i].sku, i);
    }
  }

  /** Row a comes before row b in (SKU, day) order. */
  predicate RowBefore(a: DemandRow, b: DemandRow)
  {
    StrLess(a.uniqueId, b.uniqueId) || (a.uniqueId == b.uniqueId && a.ds < b.ds)
  }

  ghost predicate SlotOrdered(rows: seq<DemandRow>)
  {
    forall i, j :: 0 <= i < j < |rows| ==> RowBefore(rows[i], rows[j])
  }

  lemma SkuRowsOrdered(es: seq<Observation>, sku: string)
    ensures SlotOrdered(SkuRows(es, sku))
  {
    SortedUniqueSpec(DaysOf(OfSku(es, sku)));
  }

  lemma {:induction false} ConcatOrdered(keys: seq<string>, es: seq<Observation>)
    requires StrictlyAscending(keys)
    ensures SlotOrdered(ConcatMap(keys, RowsFor(es)))
    ensures forall r :: r in ConcatMap(keys, RowsFor(es)) ==> r.uniqueId in keys
    decreases |keys|
  {
    if |keys| > 0 {
      var n := |keys| - 1;
      var init := keys[..n];
      assert forall i :: 0 <= i < n ==> init[i] == keys[i];
      ConcatOrdered(init, es);
      var a := ConcatMap(init, RowsFor(es));
      var b := SkuRows(es, keys[n]);
      SkuRowsOrdered(es, keys[n]);
      assert ConcatMap(keys, RowsFor(es)) == a + b;
      forall r | r in a ensures StrLess(r.uniqueId, keys[n]) {
        var k :| 0 <= k < n && init[k] == r.uniqueId;
      }
      SlotOrderedConcat(a, b, keys[n]);
      forall r | r in a + b ensures r.uniqueId in keys {
        if r in a {
          var k :| 0 <= k < n && init[k] == r.uniqueId;
        }
      }
    }
  }

  /** Rows of earlier SKUs followed by the ordered rows of a later SKU stay ordered. */
  lemma SlotOrderedConcat(a: seq<DemandRow>, b: seq<DemandRow>, sku: string)
    requires SlotOrdered(a) && SlotOrdered(b)
    requires forall r :: r in a ==> StrLess(r.uniqueId, sku)
    requires forall i :: 0 <= i < |b| ==> b[i].uniqueId == sku
    ensures SlotOrdered(a + b)
  {
    forall i, j | 0 <= i < j < |a + b| ensures RowBefore((a + b)[i], (a + b)[j]) {
      if i < |a| <= j {
        assert a[i] in a;
        assert (a + b)[j] == b[j - |a|];
      }
    }
  }

  /** The demand frame is strictly ordered by SKU and then day, so no (SKU, day) slot
      appears twice. */
  lemma AggregateOrdered(es: seq<Observation>)
    ensures SlotOrdered(Aggregate(es))
    ensures forall i, j :: 0 <= i < j < |Aggregate(es)| ==>
      Aggregate(es)[i].uniqueId != Aggregate(es)[j].uniqueId || Aggregate(es)[i].ds != Aggregate(es)[j].ds
  {
    SortedStringsSpec(SkusOf(es));
    ConcatOrdered(SortedStrings(SkusOf(es)), es);
    var rows := Aggregate(es);
    forall i, j | 0 <= i < j < |rows| ensures rows[i].uniqueId != rows[j].uniqueId || rows[i].ds != rows[j].ds {
      StrLessIrreflexive(rows[i].uniqueId);
    }
  }

  // Preparing the demand artifacts

  const DemandMappingError: string := "Demand mode requires mapped date and demand columns."
  const DemandColumnPrefix: string := "Demand column '"
  const DemandColumnSuffix: string := "' not found in dataset."

  /** `str(KeyError(col))`, raised by indexing a frame with a missing column. */
  function KeyError(col: string): string
  {
    "'" + col + "'"
  }

  /** The frequency: the configured one when non-empty, else the one detected over the
      demand frame's days, else daily. */
  function ChosenFrequency(configured: string, demand: seq<DemandRow>): (r: string)
    ensures r != ""
    ensures configured != "" ==> r == configured
    ensures configured == "" ==> r in {"D", "W", "M"}
  {
    if configured != "" then configured
    else
      var detected := FrequencyOf(seq(|demand|, i requires 0 <= i < |demand| => Stamp(demand[i].ds)));
      if detected.Some? then detected.value else "D"
  }

  /** The conditions under which `prepare_demand_artifacts` raises instead of returning. */
  predicate PrepareFails(f: Frame, mapping: ColumnMapping)
  {
    !Truthy(mapping.date) || !Truthy(mapping.demand) || mapping.date.value !in Names(f)
    || mapping.demand.value !in Names(f) || (Truthy(mapping.sku) && mapping.sku.value !in Names(f))
  }

  /** The demand entries of the processed frame. */
  function ProcessedEntries(f: Frame, mapping: ColumnMapping): seq<Observation>
    requires Truthy(mapping.date) && Truthy(mapping.demand)
  {
    DemandEntries(Processed(f, mapping).rows, mapping.date.value, mapping.demand.value)
  }

  /** `prepare_demand_artifacts` on the frame read from the upload; the parquet copies it
      writes are not modelled. */
  method PrepareDemandArtifacts(f: Frame, mapping: ColumnMapping, config: ForecastConfig, sqrt: real -> real)
    returns (r: Result<DemandArtifacts>)
    ensures r.Err? <==> PrepareFails(f, mapping)
    ensures !Truthy(mapping.date) || !Truthy(mapping.demand) ==> r == Err(DemandMappingError)
    ensures Truthy(mapping.date) && Truthy(mapping.demand) && mapping.date.value !in Names(f) ==>
      r == Err(KeyError(mapping.date.value))
    ensures Truthy(mapping.date) && Truthy(mapping.demand) && mapping.date.value in Names(f) && mapping.demand.value !in Names(f) ==>
      r == Err(DemandColumnPrefix + mapping.demand.value + DemandColumnSuffix)
    ensures Truthy(mapping.date) && Truthy(mapping.demand) && mapping.date.value in Names(f) && mapping.demand.value in Names(f)
            && Truthy(mapping.sku) && mapping.sku.value !in Names(f) ==>
      r == Err(KeyError(mapping.sku.value))
    ensures r.Ok? ==>
      var p := Processed(f, mapping);
      && r.value.demand == Aggregate(ProcessedEntries(f, mapping))
      && r.value.inventoryOnHand == InventorySnapshot(p, mapping)
      && r.value.leadTimes == LeadTimes(p, mapping, config.leadTimeDaysDefault)
      && r.value.frequency == ChosenFrequency(config.frequency, r.value.demand)
      && r.value.validation == BuildSummary(p, mapping, sqrt)
  {
    if !Truthy(mapping.date) || !Truthy(mapping.demand) {
      return Err(DemandMappingError);
    }
    if mapping.date.value !in Names(f) {
      return Err(KeyError(mapping.date.value));
    }
    if mapping.demand.value !in Names(f) {
      return Err(DemandColumnPrefix + mapping.demand.value + DemandColumnSuffix);
    }
    if Truthy(mapping.sku) && mapping.sku.value !in Names(f) {
      return Err(KeyError(mapping.sku.value));
    }
    var p := Processed(f, mapping);
    var demand := Aggregate(ProcessedEntries(f, mapping));
    var frequency := ChosenFrequency(config.frequency, demand);
    var summary := BuildSummary(p, mapping, sqrt);
    var snapshot := ExtractInventorySnapshot(p, mapping);
    var leadTimes := ExtractLeadTimes(p, mapping, config.leadTimeDaysDefault);
    r := Ok(DemandArtifacts(demand, snapshot, leadTimes, frequency, summary));
  }
}
