/** `group_companies_instruments.py`: the rating entries of one scrape are
    grouped by company name, each group keeping its instruments in input
    order, the sorted distinct dates and the distinct non-empty urls; the
    summary reports the company and instrument totals and their average.
    Reading and writing the JSON files and printing are left out. */
module Grouping {
  import opened Common
  import opened Strings

  /** One entry of the input list; `None` is a key that is absent. */
  datatype Entry = Entry(
    companyName: Option<string>,
    instrumentCategory: Option<string>,
    rating: Option<string>,
    outlook: Option<string>,
    instrumentAmount: Option<string>,
    date: Option<string>,
    url: Option<string>)

  datatype Instrument = Instrument(
    instrumentCategory: string,
    rating: string,
    outlook: string,
    instrumentAmount: string,
    date: string)

  /** One value of the returned dictionary. */
  datatype CompanyGroup = CompanyGroup(
    companyName: string,
    instruments: seq<Instrument>,
    totalInstruments: nat,
    dates: seq<string>,
    urls: seq<string>)

  const UnknownCompany := "Unknown Company"
  const NotAvailable := "N/A"

  /** The key an entry is grouped under. */
  function CompanyKey(e: Entry): string {
    e.companyName.GetOr(UnknownCompany)
  }

  function DateOf(e: Entry): string {
    e.date.GetOr(NotAvailable)
  }

  /** The instrument dictionary built for an entry, absent fields 'N/A'. */
  function ToInstrument(e: Entry): Instrument {
    Instrument(
      e.instrumentCategory.GetOr(NotAvailable),
      e.rating.GetOr(NotAvailable),
      e.outlook.GetOr(NotAvailable),
      e.instrumentAmount.GetOr(NotAvailable),
      DateOf(e))
  }

  /** `entry.get('url')` is truthy. */
  predicate HasUrl(e: Entry) {
    e.url.Some? && e.url.value != ""
  }

  // ---------------------------------------------------------------------
  // What the groups hold, entry by entry

  function Companies(data: seq<Entry>): set<string> {
    if data == [] then {} else Companies(data[..|data| - 1]) + {CompanyKey(data[|data| - 1])}
  }

  function InstrumentsOf(data: seq<Entry>, name: string): seq<Instrument> {
    if data == [] then []
    else
      var e := data[|data| - 1];
      InstrumentsOf(data[..|data| - 1], name) + (if CompanyKey(e) == name then [ToInstrument(e)] else [])
  }

  function DatesOf(data: seq<Entry>, name: string): set<string> {
    if data == [] then {}
    else
      var e := data[|data| - 1];
      DatesOf(data[..|data| - 1], name) + (if CompanyKey(e) == name then {DateOf(e)} else {})
  }

  function UrlsOf(data: seq<Entry>, name: string): set<string> {
    if data == [] then {}
    else
      var e := data[|data| - 1];
      UrlsOf(data[..|data| - 1], name) + (if CompanyKey(e) == name && HasUrl(e) then {e.url.value} else {})
  }

  predicate StrictlySorted(xs: seq<string>) {
    forall i, j | 0 <= i < j < |xs| :: StrLess(xs[i], xs[j])
  }

  predicate Distinct<T(==)>(xs: seq<T>) {
    forall i, j | 0 <= i < j < |xs| :: xs[i] != xs[j]
  }

  /** `grouped[name]` is what `group_by_company` builds for `name`. */
  ghost predicate GroupOf(data: seq<Entry>, name: string, g: CompanyGroup) {
    && g.companyName == name
    && g.instruments == InstrumentsOf(data, name)
    && g.totalInstruments == |g.instruments|
    && StrictlySorted(g.dates)
    && (forall d :: d in g.dates <==> d in DatesOf(data, name))
    && Distinct(g.urls)
    && (forall u :: u in g.urls <==> u in UrlsOf(data, name))
  }

  /** The whole returned dictionary: one group per company key. */
  ghost predicate GroupedFrom(data: seq<Entry>, grouped: map<string, CompanyGroup>) {
    && (forall name :: name in grouped <==> name in Companies(data))
    && (forall name | name in grouped :: GroupOf(data, name, grouped[name]))
  }

  // ---------------------------------------------------------------------
  // Reference definitions and the properties of the groups

  /** A company appears exactly when some entry carries its key. */
  lemma {:induction false} CompaniesMembers(data: seq<Entry>, name: string)
    ensures name in Companies(data) <==> exists i | 0 <= i < |data| :: CompanyKey(data[i]) == name
  {
    if data != [] {
      var init := data[..|data| - 1];
      CompaniesMembers(init, name);
      if exists i | 0 <= i < |init| :: CompanyKey(init[i]) == name {
        var i :| 0 <= i < |init| && CompanyKey(init[i]) == name;
        assert data[i] == init[i];
      }
      if exists i | 0 <= i < |data| :: CompanyKey(data[i]) == name {
        var i :| 0 <= i < |data| && CompanyKey(data[i]) == name;
        if i < |init| {
          assert init[i] == data[i];
        }
      }
    }
  }

  /** The test `company_name == name` on entries. */
  function KeyIs(name: string): Entry -> bool {
    (e: Entry) => CompanyKey(e) == name
  }

  /** A company's instruments are its entries' instruments, in input order. */
  lemma {:induction false} InstrumentsInOrder(data: seq<Entry>, name: string)
    ensures InstrumentsOf(data, name) == MapSeq(Select(data, KeyIs(name)), ToInstrument)
  {
    if data != [] {
      var init := data[..|data| - 1];
      var keep := KeyIs(name);
      InstrumentsInOrder(init, name);
      var sel := Select(init, keep);
      var last := data[|data| - 1];
      if CompanyKey(last) == name {
        assert keep(last);
        var sel' := sel + [last];
        assert Select(data, keep) == sel';
        assert sel'[..|sel'| - 1] == sel;
        assert MapSeq(sel', ToInstrument) == MapSeq(sel, ToInstrument) + [ToInstrument(last)];
        assert InstrumentsOf(data, name) == InstrumentsOf(init, name) + [ToInstrument(last)];
      } else {
        assert !keep(last);
        assert Select(data, keep) == sel;
        assert InstrumentsOf(data, name) == InstrumentsOf(init, name);
      }
    }
  }

  /** A date is listed for a company exactly when one of its entries has it
      ('N/A' for an entry without a date). */
  lemma {:induction false} DatesMembers(data: seq<Entry>, name: string, d: string)
    ensures d in DatesOf(data, name) <==> exists i | 0 <= i < |data| :: CompanyKey(data[i]) == name && DateOf(data[i]) == d
  {
    if data != [] {
      var init := data[..|data| - 1];
      DatesMembers(init, name, d);
      if exists i | 0 <= i < |init| :: CompanyKey(init[i]) == name && DateOf(init[i]) == d {
        var i :| 0 <= i < |init| && CompanyKey(init[i]) == name && DateOf(init[i]) == d;
        assert data[i] == init[i];
      }
      if exists i | 0 <= i < |data| :: CompanyKey(data[i]) == name && DateOf(data[i]) == d {
        var i :| 0 <= i < |data| && CompanyKey(data[i]) == name && DateOf(data[i]) == d;
        if i < |init| {
          assert init[i] == data[i];
        }
      }
    }
  }

  /** A url is listed for a company exactly when one of its entries has it
      and it is not empty. */
  lemma {:induction false} UrlsMembers(data: seq<Entry>, name: string, u: string)
    ensures u in UrlsOf(data, name) <==>
      u != "" && exists i | 0 <= i < |data| :: CompanyKey(data[i]) == name && data[i].url == Some(u)
  {
    if data != [] {
      var init := data[..|data| - 1];
      UrlsMembers(init, name, u);
      if exists i | 0 <= i < |init| :: CompanyKey(init[i]) == name && init[i].url == Some(u) {
        var i :| 0 <= i < |init| && CompanyKey(init[i]) == name && init[i].url == Some(u);
        assert data[i] == init[i];
      }
      if exists i | 0 <= i < |data| :: CompanyKey(data[i]) == name && data[i].url == Some(u) {
        var i :| 0 <= i < |data| && CompanyKey(data[i]) == name && data[i].url == Some(u);
        if i < |init| {
          assert init[i] == data[i];
        }
      }
    }
  }

  /** An entry without a company name lands in 'Unknown Company', and its
      absent instrument fields read 'N/A'. */
  lemma UnnamedEntryGrouping(data: seq<Entry>, i: nat)
    requires i < |data| && data[i].companyName.None?
    ensures UnknownCompany in Companies(data)
    ensures ToInstrument(data[i]) in InstrumentsOf(data, UnknownCompany)
    ensures data[i].rating.None? ==> ToInstrument(data[i]).rating == NotAvailable
    ensures data[i].date.None? ==> NotAvailable in DatesOf(data, UnknownCompany)
  {
    CompaniesMembers(data, UnknownCompany);
    InstrumentsInOrder(data, UnknownCompany);
    var keep := KeyIs(UnknownCompany);
    SelectMembers(data, keep, data[i]);
    var sel := Select(data, keep);
    var k :| 0 <= k < |sel| && sel[k] == data[i];
    MapSeqIndex(sel, ToInstrument);
    assert MapSeq(sel, ToInstrument)[k] == ToInstrument(data[i]);
    DatesMembers(data, UnknownCompany, NotAvailable);
  }

  lemma {:induction false} AbsentCompanyEmpty(data: seq<Entry>, name: string)
    requires name !in Companies(data)
    ensures InstrumentsOf(data, name) == []
    ensures DatesOf(data, name) == {} && UrlsOf(data, name) == {}
  {
    if data != [] {
      AbsentCompanyEmpty(data[..|data| - 1], name);
    }
  }

  /** The instrument count of every company, as a function of its name. */
  function CountsIn(data: seq<Entry>): string -> nat {
    (name: string) => |InstrumentsOf(data, name)|
  }

  /** Every entry is counted once: the group totals add up to the number
      of entries. */
  lemma {:induction false} TotalsAddUp(data: seq<Entry>)
    ensures SumSet(Companies(data), CountsIn(data)) == |data|
  {
    if data != [] {
      var init := data[..|data| - 1];
      var k := CompanyKey(data[|data| - 1]);
      var c := Companies(init);
      TotalsAddUp(init);
      assert forall n | n != k :: CountsIn(data)(n) == CountsIn(init)(n);
      assert CountsIn(data)(k) == CountsIn(init)(k) + 1;
      if k in c {
        assert Companies(data) == c;
        SumSetPick(c, CountsIn(data), k);
        SumSetAgree(c - {k}, CountsIn(data), CountsIn(init));
        SumSetPick(c, CountsIn(init), k);
      } else {
        AbsentCompanyEmpty(init, k);
        SumSetPick(c + {k}, CountsIn(data), k);
        assert (c + {k}) - {k} == c;
        SumSetAgree(c, CountsIn(data), CountsIn(init));
      }
    }
  }

  // ---------------------------------------------------------------------
  // `group_by_company`

  /** The `defaultdict` value while entries are still being read. */
  datatype Accumulator = Accumulator(
    companyName: string,
    instruments: seq<Instrument>,
    dates: set<string>,
    urls: set<string>)

  const EmptyAccumulator := Accumulator("", [], {}, {})

  ghost predicate AccumulatedFrom(data: seq<Entry>, acc: map<string, Accumulator>) {
    && (forall name :: name in acc <==> name in Companies(data))
    && (forall name | name in acc ::
          acc[name] == Accumulator(name, InstrumentsOf(data, name), DatesOf(data, name), UrlsOf(data, name)))
  }

  /** One turn of the first loop of `group_by_company`. */
  function AddEntry(acc: map<string, Accumulator>, e: Entry): map<string, Accumulator> {
    var name := CompanyKey(e);
    var g := if name in acc then acc[name] else EmptyAccumulator;
    var g1 := if g.companyName == "" then g.(companyName := name) else g;
    var g2 := g1.(instruments := g1.instruments + [ToInstrument(e)], dates := g1.dates + {DateOf(e)});
    var g3 := if HasUrl(e) then g2.(urls := g2.urls + {e.url.value}) else g2;
    acc[name := g3]
  }

  lemma AddEntryStep(data: seq<Entry>, i: nat, acc: map<string, Accumulator>)
    requires i < |data| && AccumulatedFrom(data[..i], acc)
    ensures AccumulatedFrom(data[..i + 1], AddEntry(acc, data[i]))
  {
    var pre, e := data[..i], data[i];
    assert data[..i + 1] == pre + [e];
    var acc' := AddEntry(acc, e);
    assert (pre + [e])[..|pre|] == pre;
    assert Companies(pre + [e]) == Companies(pre) + {CompanyKey(e)};
    forall name | name in acc'
      ensures acc'[name] == Accumulator(name, InstrumentsOf(pre + [e], name), DatesOf(pre + [e], name), UrlsOf(pre + [e], name))
    {
      AddEntryFor(pre, e, acc, name);
    }
  }

  /** The group of one company after one more entry. */
  lemma AddEntryFor(pre: seq<Entry>, e: Entry, acc: map<string, Accumulator>, name: string)
    requires name in acc ==> acc[name] == Accumulator(name, InstrumentsOf(pre, name), DatesOf(pre, name), UrlsOf(pre, name))
    requires name !in acc ==> name !in Companies(pre)
    requires name in AddEntry(acc, e)
    ensures AddEntry(acc, e)[name] == Accumulator(name, InstrumentsOf(pre + [e], name), DatesOf(pre + [e], name), UrlsOf(pre + [e], name))
  {
    assert (pre + [e])[..|pre|] == pre;
    if name !in acc {
      AbsentCompanyEmpty(pre, name);
    }
  }

  /** The entries of a set in strictly increasing order: `sorted(list(s))`. */
  method SortedList(s: set<string>) returns (r: seq<string>)
    ensures StrictlySorted(r)
    ensures forall x :: x in r <==> x in s
  {
    r := [];
    var rest := s;
    while rest != {}
      invariant rest <= s
      invariant StrictlySorted(r)
      invariant forall x :: x in r <==> x in s - rest
      decreases rest
    {
      var x :| x in rest;
      r := Insert(r, x);
      rest := rest - {x};
    }
  }

  /** `x` placed in a strictly sorted list, once. */
  function Insert(xs: seq<string>, x: string): (r: seq<string>)
    requires StrictlySorted(xs)
    ensures StrictlySorted(r)
    ensures forall y :: y in r <==> y == x || y in xs
  {
    if xs == [] then [x]
    else if x == xs[0] then xs
    else if StrLess(x, xs[0]) then
      assert forall j | 0 < j < |xs| :: StrLess(x, xs[j]) by {
        forall j | 0 < j < |xs| ensures StrLess(x, xs[j]) {
          StrLessTransitive(x, xs[0], xs[j]);
        }
      }
      [x] + xs
    else
      assert StrictlySorted(xs[1..]) by {
        forall i, j | 0 <= i < j < |xs| - 1 ensures StrLess(xs[1..][i], xs[1..][j]) {
          assert xs[1..][i] == xs[i + 1] && xs[1..][j] == xs[j + 1];
        }
      }
      var tail := Insert(xs[1..], x);
      assert StrLess(xs[0], x) by {
        StrLessTotal(x, xs[0]);
      }
      assert forall y | y in tail :: StrLess(xs[0], y) by {
        forall y | y in tail ensures StrLess(xs[0], y) {
          if y != x {
            var j :| 1 <= j < |xs| && xs[j] == y;
          }
        }
      }
      [xs[0]] + tail
  }

  /** `list(s)`: the entries of a set once each, in an order the model
      does not fix. */
  method ListOf(s: set<string>) returns (r: seq<string>)
    ensures Distinct(r)
    ensures forall x :: x in r <==> x in s
  {
    r := [];
    var rest := s;
    while rest != {}
      invariant rest <= s
      invariant Distinct(r)
      invariant forall x :: x in r <==> x in s - rest
      decreases rest
    {
      var x :| x in rest;
      assert x !in r;
      assert forall i | 0 <= i < |r| :: (r + [x])[i] == r[i];
      r := r + [x];
      rest := rest - {x};
    }
  }

  /** `group_by_company`: entries are read in order into the accumulators,
      then every accumulator becomes a group with its count, its sorted
      dates and its url list. */
  method GroupByCompany(data: seq<Entry>) returns (grouped: map<string, CompanyGroup>)
    ensures GroupedFrom(data, grouped)
  {
    var acc: map<string, Accumulator> := map[];
    var i := 0;
    while i < |data|
      invariant 0 <= i <= |data|
      invariant AccumulatedFrom(data[..i], acc)
    {
      AddEntryStep(data, i, acc);
      acc := AddEntry(acc, data[i]);
      i := i + 1;
    }
    assert data[..i] == data;
    grouped := map[];
    var rest := acc.Keys;
    while rest != {}
      invariant rest <= acc.Keys
      invariant forall name :: name in grouped <==> name in acc && name !in rest
      invariant forall name | name in grouped :: GroupOf(data, name, grouped[name])
      decreases rest
    {
      var name :| name in rest;
      var a := acc[name];
      var dates := SortedList(a.dates);
      var urls := ListOf(a.urls);
      assert a == Accumulator(name, InstrumentsOf(data, name), DatesOf(data, name), UrlsOf(data, name));
      assert GroupOf(data, name, CompanyGroup(a.companyName, a.instruments, |a.instruments|, dates, urls));
      grouped := grouped[name := CompanyGroup(a.companyName, a.instruments, |a.instruments|, dates, urls)];
      rest := rest - {name};
    }
  }

  // ---------------------------------------------------------------------
  // `print_summary`

  datatype Summary = Summary(totalCompanies: nat, totalInstruments: nat, average: real)

  /** The instrument total of every group, as a function of its name. */
  function GroupTotals(grouped: map<string, CompanyGroup>): string -> nat {
    (name: string) => if name in grouped then grouped[name].totalInstruments else 0
  }

  /** `print_summary` as written: the average divides by the company
      count, which raises `ZeroDivisionError` when there is no company. */
  ghost function SummaryAsWritten(grouped: map<string, CompanyGroup>): Result<Summary, string> {
    var companies := |grouped|;
    var instruments := SumSet(grouped.Keys, GroupTotals(grouped));
    if companies == 0 then Err("ZeroDivisionError")
    else Ok(Summary(companies, instruments, instruments as real / companies as real))
  }

  /** An empty input file groups into no company, so the summary fails. */
  lemma EmptyInputFailsSummary(grouped: map<string, CompanyGroup>)
    requires GroupedFrom([], grouped)
    ensures SummaryAsWritten(grouped).Err?
  {
    assert grouped == map[];
  }

  /** The summary with the average of no company taken as zero. */
  ghost function SummaryOf(grouped: map<string, CompanyGroup>): Summary {
    var companies := |grouped|;
    var instruments := SumSet(grouped.Keys, GroupTotals(grouped));
    Summary(companies, instruments, if companies == 0 then 0.0 else instruments as real / companies as real)
  }

  /** The summary counts one company per key and every entry once; on a
      non-empty input it is what `print_summary` prints, the number of
      entries over the number of companies. */
  lemma SummaryCounts(data: seq<Entry>, grouped: map<string, CompanyGroup>)
    requires GroupedFrom(data, grouped)
    ensures SummaryOf(grouped).totalCompanies == |Companies(data)|
    ensures SummaryOf(grouped).totalInstruments == |data|
    ensures data != [] ==>
      && SummaryAsWritten(grouped) == Ok(SummaryOf(grouped))
      && SummaryOf(grouped).average == |data| as real / |Companies(data)| as real
    ensures data == [] ==> SummaryOf(grouped).average == 0.0
  {
    var companies := |grouped|;
    var instruments := SumSet(grouped.Keys, GroupTotals(grouped));
    assert grouped.Keys == Companies(data);
    assert forall n | n in grouped.Keys :: GroupTotals(grouped)(n) == CountsIn(data)(n) by {
      forall n | n in grouped.Keys ensures GroupTotals(grouped)(n) == CountsIn(data)(n) {
        assert GroupOf(data, n, grouped[n]);
      }
    }
    SumSetAgree(grouped.Keys, GroupTotals(grouped), CountsIn(data));
    TotalsAddUp(data);
    assert instruments == |data|;
    CompaniesOfNonEmpty(data);
    assert companies == |Companies(data)|;
  }

  lemma CompaniesOfNonEmpty(data: seq<Entry>)
    ensures data == [] <==> Companies(data) == {}
  {
    if data != [] {
      assert CompanyKey(data[|data| - 1]) in Companies(data);
    }
  }
}
