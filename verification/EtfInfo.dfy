/**
 * The ETF information tool's configuration generator: the listing-date
 * filter, the name-keyword style classifier, and the grouping of the ETFs
 * listed before 2020 into style categories, from which the generated file's
 * defensive list and ETF pool are written. Dates are `yyyymmdd` integers; a
 * listing date that failed to parse is `None`.
 */
module EtfInfo {
  import opened Wrappers

  /** One row of the ETF table: code, name and listing date. */
  datatype EtfRow = EtfRow(tsCode: string, name: string, listDate: Option<int>)

  datatype Style = Commodity | Overseas | AShare | Tech | Other

  /** One entry of a category list: symbol, name and style. */
  datatype EtfEntry = EtfEntry(symbol: string, name: string, style: Style)

  /** The last listing date the generated configuration admits. */
  const Cutoff: int := 20191231

  /**
   * A row passes `filter_by_date`: both bounds inclusive, and a row whose
   * date did not parse fails every bound that is given.
   */
  predicate InDateRange(row: EtfRow, start: Option<int>, end: Option<int>)
  {
    (start.None? || (row.listDate.Some? && row.listDate.value >= start.value))
    && (end.None? || (row.listDate.Some? && row.listDate.value <= end.value))
  }

  /** `filter_by_date`: the rows within the bounds, in their original order. */
  function FilterByDate(rows: seq<EtfRow>, start: Option<int>, end: Option<int>): (r: seq<EtfRow>)
    ensures |r| <= |rows|
    ensures forall x :: x in r <==> x in rows && InDateRange(x, start, end)
    ensures start.None? && end.None? ==> r == rows
    decreases |rows|
  {
    if |rows| == 0 then []
    else
      var prev := FilterByDate(rows[..|rows| - 1], start, end);
      var last := rows[|rows| - 1];
      assert forall x :: x in rows <==> x in rows[..|rows| - 1] || x == last;
      if InDateRange(last, start, end) then prev + [last] else prev
  }

  /** A row on either bound is kept. */
  lemma BoundsInclusive(row: EtfRow, d: int)
    requires row.listDate == Some(d)
    ensures FilterByDate([row], Some(d), Some(d)) == [row]
  {
    assert [row][..0] == [];
  }

  /** One row is kept exactly when it is within the bounds. */
  lemma FilterByDateSingle(row: EtfRow, start: Option<int>, end: Option<int>)
    ensures FilterByDate([row], start, end) == if InDateRange(row, start, end) then [row] else []
  {
    assert [row][..0] == [];
  }

  /** The last row is kept after the others exactly when it is within the bounds. */
  lemma FilterByDateLast(rows: seq<EtfRow>, start: Option<int>, end: Option<int>)
    requires |rows| > 0
    ensures FilterByDate(rows, start, end)
         == FilterByDate(rows[..|rows| - 1], start, end) + Kept(rows[|rows| - 1], start, end)
  {
  }

  /** The rows `filter_by_date` keeps of a single row. */
  function Kept(row: EtfRow, start: Option<int>, end: Option<int>): seq<EtfRow>
  {
    if InDateRange(row, start, end) then [row] else []
  }

  /**
   * Filtering distributes over concatenation: the kept rows keep their
   * relative order and their multiplicity.
   */
  lemma {:induction false} FilterByDateAppend(a: seq<EtfRow>, b: seq<EtfRow>, start: Option<int>, end: Option<int>)
    ensures FilterByDate(a + b, start, end) == FilterByDate(a, start, end) + FilterByDate(b, start, end)
    decreases |b|
  {
    if |b| == 0 {
      assert a + b == a;
      assert FilterByDate(a, start, end) + [] == FilterByDate(a, start, end);
    } else {
      var init, last := b[..|b| - 1], b[|b| - 1];
      var ab := a + b;
      assert ab[..|ab| - 1] == a + init;
      assert ab[|ab| - 1] == last;
      FilterByDateAppend(a, init, start, end);
      FilterByDateLast(ab, start, end);
      FilterByDateLast(b, start, end);
      AppendAssoc(FilterByDate(a, start, end), FilterByDate(init, start, end), Kept(last, start, end));
    }
  }

  /** Concatenation is associative. */
  lemma AppendAssoc(x: seq<EtfRow>, y: seq<EtfRow>, z: seq<EtfRow>)
    ensures (x + y) + z == x + (y + z)
  {
  }

  /** `keyword in name`: `keyword` occurs in `name` as a contiguous run. */
  predicate Occurs(keyword: string, name: string)
    decreases |name|
  {
    |keyword| <= |name| && (name[..|keyword|] == keyword || Occurs(keyword, name[1..]))
  }

  /** `keyword` starts at position `i` of `name`. */
  predicate OccursAtIndex(keyword: string, name: string, i: nat)
  {
    i + |keyword| <= |name| && name[i..i + |keyword|] == keyword
  }

  /** An occurrence found by `Occurs` is at some position. */
  lemma {:induction false} OccursHasIndex(keyword: string, name: string)
    requires Occurs(keyword, name)
    ensures exists i :: OccursAtIndex(keyword, name, i)
    decreases |name|
  {
    if name[..|keyword|] == keyword {
      assert OccursAtIndex(keyword, name, 0);
    } else {
      OccursHasIndex(keyword, name[1..]);
      var i: nat :| OccursAtIndex(keyword, name[1..], i);
      assert name[i + 1..i + 1 + |keyword|] == name[1..][i..i + |keyword|];
      assert OccursAtIndex(keyword, name, i + 1);
    }
  }

  /** A keyword at any position is found by `Occurs`. */
  lemma {:induction false} IndexOccurs(keyword: string, name: string, i: nat)
    requires OccursAtIndex(keyword, name, i)
    ensures Occurs(keyword, name)
    decreases i
  {
    if i > 0 && name[..|keyword|] != keyword {
      assert name[1..][i - 1..i - 1 + |keyword|] == name[i..i + |keyword|];
      IndexOccurs(keyword, name[1..], i - 1);
    }
  }

  /** `any(keyword in name for keyword in keywords)`. */
  predicate AnyOccurs(keywords: seq<string>, name: string)
  {
    exists k :: k in keywords && Occurs(k, name)
  }

  const CommodityKeywords: seq<string> := ["商品", "黄金", "白银", "原油", "有色", "煤炭", "豆粕", "钢铁"]
  const OverseasKeywords: seq<string> := ["纳指", "标普", "纳斯达克", "恒生", "港股", "海外", "全球"]
  const AShareKeywords: seq<string> := ["沪深", "A股", "上证", "深证", "创业板", "中证", "50", "500", "1000"]
  const TechKeywords: seq<string> := ["科技", "半导体", "芯片", "电子", "通信", "计算机", "互联网", "人工智能"]

  /** The style the name's keywords give, the first matching list deciding. */
  function Classify(name: string): (s: Style)
    ensures s == Commodity <==> AnyOccurs(CommodityKeywords, name)
    ensures s == Overseas <==> !AnyOccurs(CommodityKeywords, name) && AnyOccurs(OverseasKeywords, name)
    ensures s == AShare <==> (!AnyOccurs(CommodityKeywords, name) && !AnyOccurs(OverseasKeywords, name)
                              && AnyOccurs(AShareKeywords, name))
    ensures s == Tech <==> (!AnyOccurs(CommodityKeywords, name) && !AnyOccurs(OverseasKeywords, name)
                            && !AnyOccurs(AShareKeywords, name) && AnyOccurs(TechKeywords, name))
    ensures s == Other <==> (!AnyOccurs(CommodityKeywords, name) && !AnyOccurs(OverseasKeywords, name)
                             && !AnyOccurs(AShareKeywords, name) && !AnyOccurs(TechKeywords, name))
  {
    if AnyOccurs(CommodityKeywords, name) then Commodity
    else if AnyOccurs(OverseasKeywords, name) then Overseas
    else if AnyOccurs(AShareKeywords, name) then AShare
    else if AnyOccurs(TechKeywords, name) then Tech
    else Other
  }

  /** The entry a row becomes in its category list. */
  function EntryOf(row: EtfRow): (e: EtfEntry)
    ensures e.symbol == row.tsCode && e.name == row.name && e.style == Classify(row.name)
  {
    EtfEntry(row.tsCode, row.name, Classify(row.name))
  }

  /** The entries of all rows, in table order. */
  function Entries(rows: seq<EtfRow>): (r: seq<EtfEntry>)
    ensures |r| == |rows| && forall i :: 0 <= i < |rows| ==> r[i] == EntryOf(rows[i])
    decreases |rows|
  {
    if |rows| == 0 then [] else Entries(rows[..|rows| - 1]) + [EntryOf(rows[|rows| - 1])]
  }

  /** The entries of one style, in order. */
  function OfStyle(es: seq<EtfEntry>, style: Style): (r: seq<EtfEntry>)
    decreases |es|
  {
    if |es| == 0 then []
    else
      var prev := OfStyle(es[..|es| - 1], style);
      var e := es[|es| - 1];
      if e.style == style then prev + [e] else prev
  }

  /** The category list of one style: the rows of that style, as entries, in table order. */
  function Members(rows: seq<EtfRow>, style: Style): seq<EtfEntry>
  {
    OfStyle(Entries(rows), style)
  }

  /** The category lists in the order the file writes them: commodity, overseas, a_share, tech, other. */
  function Grouped(rows: seq<EtfRow>): (ls: seq<seq<EtfEntry>>)
    ensures |ls| == 5
  {
    [Members(rows, Commodity), Members(rows, Overseas), Members(rows, AShare), Members(rows, Tech), Members(rows, Other)]
  }

  /** What the generated file holds: the defensive list and the category lists in file order. */
  datatype Generated = Generated(defensive: seq<string>, pool: seq<seq<EtfEntry>>)

  /** The ETF pool the file lists: each category's entries in turn. */
  function Concat(ls: seq<seq<EtfEntry>>): (r: seq<EtfEntry>)
    decreases |ls|
  {
    if |ls| == 0 then [] else Concat(ls[..|ls| - 1]) + ls[|ls| - 1]
  }

  /** The symbols of a list of entries. */
  function Symbols(es: seq<EtfEntry>): (r: seq<string>)
    ensures |r| == |es| && forall i :: 0 <= i < |es| ==> r[i] == es[i].symbol
    decreases |es|
  {
    if |es| == 0 then [] else Symbols(es[..|es| - 1]) + [es[|es| - 1].symbol]
  }

  /** The defensive list: the symbols of the first (up to) three commodity entries. */
  function Defensive(commodity: seq<EtfEntry>): (r: seq<string>)
    ensures |r| <= 3 && |r| == if |commodity| < 3 then |commodity| else 3
    ensures forall i :: 0 <= i < |r| ==> r[i] == commodity[i].symbol
  {
    Symbols(commodity[..if |commodity| < 3 then |commodity| else 3])
  }

  /**
   * `generate_config_toml`: nothing is written when no ETF was listed by the
   * cutoff; otherwise every such ETF is appended to the list of its style.
   */
  method GenerateConfigToml(rows: seq<EtfRow>) returns (out: Option<Generated>)
    ensures FilterByDate(rows, None, Some(Cutoff)) == [] <==> out.None?
    ensures out.Some? ==> out.value.pool == Grouped(FilterByDate(rows, None, Some(Cutoff)))
    ensures out.Some? ==> out.value.defensive == Defensive(Members(FilterByDate(rows, None, Some(Cutoff)), Commodity))
  {
    var pre := FilterByDate(rows, None, Some(Cutoff));
    if |pre| == 0 {
      return None;
    }
    var categories: map<Style, seq<EtfEntry>> := map[Commodity := [], Overseas := [], AShare := [], Tech := [], Other := []];
    for i := 0 to |pre|
      invariant categories.Keys == AllStyles
      invariant forall s :: s in categories ==> categories[s] == Members(pre[..i], s)
    {
      assert pre[..i + 1][..i] == pre[..i];
      var entry := EtfEntry(pre[i].tsCode, pre[i].name, Other);
      entry := entry.(style := Classify(pre[i].name));
      var es := Entries(pre[..i]);
      assert Entries(pre[..i + 1]) == es + [entry];
      InAllStyles(entry.style);
      categories := categories[entry.style := categories[entry.style] + [entry]];
      forall s | s in categories
        ensures categories[s] == OfStyle(es + [entry], s)
      {
        OfStyleStep(es, entry, s);
      }
    }
    assert pre[..|pre|] == pre;
    InAllStyles(Commodity);
    var pool := [categories[Commodity], categories[Overseas], categories[AShare], categories[Tech], categories[Other]];
    return Some(Generated(Defensive(categories[Commodity]), pool));
  }

  const AllStyles: set<Style> := {Commodity, Overseas, AShare, Tech, Other}

  lemma InAllStyles(s: Style)
    ensures s in AllStyles
  {
    match s
    case Commodity =>
    case Overseas =>
    case AShare =>
    case Tech =>
    case Other =>
  }

  /** Appending an entry grows the list of its own style and no other. */
  lemma OfStyleStep(es: seq<EtfEntry>, e: EtfEntry, s: Style)
    ensures OfStyle(es + [e], s) == OfStyle(es, s) + (if e.style == s then [e] else [])
  {
    assert (es + [e])[..|es|] == es;
  }

  /** An entry is in the list of a style exactly when it is one of the entries and has that style. */
  lemma {:induction false} OfStyleMembers(es: seq<EtfEntry>, style: Style)
    ensures forall e :: e in OfStyle(es, style) <==> e in es && e.style == style
    decreases |es|
  {
    if |es| > 0 {
      OfStyleMembers(es[..|es| - 1], style);
      assert es == es[..|es| - 1] + [es[|es| - 1]];
    }
  }

  lemma OfStyleAppend(es: seq<EtfEntry>, e: EtfEntry, s: Style)
    ensures multiset(OfStyle(es + [e], s)) == multiset(OfStyle(es, s)) + (if e.style == s then multiset{e} else multiset{})
  {
    assert (es + [e])[..|es|] == es;
  }

  /** Every entry of a category list comes from a row with that style. */
  lemma MembersFrom(rows: seq<EtfRow>, style: Style, e: EtfEntry)
    requires e in Members(rows, style)
    ensures exists i :: 0 <= i < |rows| && EntryOf(rows[i]) == e && Classify(rows[i].name) == style
  {
    OfStyleMembers(Entries(rows), style);
    var i :| 0 <= i < |rows| && Entries(rows)[i] == e;
  }

  /** A style list holds every entry of that style as often as the whole list does, and nothing else. */
  lemma {:induction false} OfStyleCount(es: seq<EtfEntry>, s: Style, y: EtfEntry)
    ensures multiset(OfStyle(es, s))[y] == if y.style == s then multiset(es)[y] else 0
    decreases |es|
  {
    if |es| > 0 {
      var init := es[..|es| - 1];
      assert es == init + [es[|es| - 1]];
      OfStyleCount(init, s, y);
    }
  }

  /** The five style lists together hold each entry exactly once. */
  lemma StylePartition(es: seq<EtfEntry>)
    ensures multiset(OfStyle(es, Commodity)) + multiset(OfStyle(es, Overseas)) + multiset(OfStyle(es, AShare))
      + multiset(OfStyle(es, Tech)) + multiset(OfStyle(es, Other)) == multiset(es)
  {
    var u := multiset(OfStyle(es, Commodity)) + multiset(OfStyle(es, Overseas)) + multiset(OfStyle(es, AShare))
      + multiset(OfStyle(es, Tech)) + multiset(OfStyle(es, Other));
    forall y | true
      ensures u[y] == multiset(es)[y]
    {
      OfStyleCount(es, Commodity, y);
      OfStyleCount(es, Overseas, y);
      OfStyleCount(es, AShare, y);
      OfStyleCount(es, Tech, y);
      OfStyleCount(es, Other, y);
    }
  }

  /**
   * The file's ETF pool is a rearrangement of the ETFs listed by the
   * cutoff, each under its own style.
   */
  lemma PoolIsPermutation(rows: seq<EtfRow>)
    ensures multiset(Concat(Grouped(rows))) == multiset(Entries(rows))
    ensures |Concat(Grouped(rows))| == |rows|
  {
    var ls := Grouped(rows);
    assert Concat(ls[..1]) == ls[0] by { assert ls[..1][..0] == []; }
    assert Concat(ls[..2]) == ls[0] + ls[1] by { assert ls[..2][..1] == ls[..1]; }
    assert Concat(ls[..3]) == ls[0] + ls[1] + ls[2] by { assert ls[..3][..2] == ls[..2]; }
    assert Concat(ls[..4]) == ls[0] + ls[1] + ls[2] + ls[3] by { assert ls[..4][..3] == ls[..3]; }
    assert Concat(ls) == ls[0] + ls[1] + ls[2] + ls[3] + ls[4] by { assert ls[..4] == ls[..|ls| - 1]; }
    StylePartition(Entries(rows));
    assert |multiset(Concat(ls))| == |multiset(Entries(rows))|;
  }
}
