/** The markdown extractor: a scraped page whose line breaks are stored as
    the two characters backslash and 'n' is cut into company sections, and
    each instrument block of a section becomes one record. The regular
    expression that finds the instrument blocks is an oracle giving its
    matches in order; reading the file is left out. */
module MarkdownExtractor {
  import opened Common
  import opened Strings

  /** The literal text `\n\n### ` that opens a company section. */
  const SectionMarker: string := "\\n\\n### "
  /** The literal two characters `\n`. */
  const EscapedNewline: string := "\\n"
  /** Where an amount ends, tried in this order. */
  const StopPatterns: seq<string> := ["[View Instrument]", "[Bank lender", "Instrument Category"]

  // ---------------------------------------------------------------------
  // Sections and company names

  /** `re.split(r'\\n\\n### ', content)[1:]`: the text before the first
      marker is dropped. */
  function Sections(content: string): seq<string> {
    Split(content, SectionMarker)[1..]
  }

  /** The sections, with the dropped preamble in front and the marker
      between them, are the content again; no section holds a marker, and
      content without a marker has no section. */
  lemma SectionsRebuild(content: string)
    ensures Join([Split(content, SectionMarker)[0]] + Sections(content), SectionMarker) == content
    ensures forall s | s in Sections(content) :: !Contains(s, SectionMarker)
    ensures !Contains(content, SectionMarker) ==> Sections(content) == []
  {
    var parts := Split(content, SectionMarker);
    assert [parts[0]] + parts[1..] == parts;
    JoinSplit(content, SectionMarker);
    SplitPiecesFree(content, SectionMarker);
  }

  /** The match of `[^\\]+` at the start: the longest prefix without a
      backslash. */
  function LeadingRun(s: string): (r: string)
    ensures |r| <= |s| && r == s[..|r|] && '\\' !in r
    ensures |r| < |s| ==> s[|r|] == '\\'
  {
    if s == [] || s[0] == '\\' then [] else [s[0]] + LeadingRun(s[1..])
  }

  /** `_process_company_section`'s company name: the stripped text before
      the first backslash, or none when the section is empty or starts
      with one. */
  function CompanyName(section: string): (r: Option<string>)
    ensures r.None? <==> section == [] || section[0] == '\\'
  {
    var run := LeadingRun(section);
    if run == [] then None else Some(Strip(run))
  }

  /** The name is stripped, holds no backslash, and is the whole run of
      text up to the first backslash, stripped. */
  lemma CompanyNameShape(section: string)
    ensures CompanyName(section).Some? ==>
      var n := CompanyName(section).value;
      Trimmed(n) && '\\' !in n && Visible(n) == Visible(LeadingRun(section))
  {
    var run := LeadingRun(section);
    if run != [] {
      StripKeepsOut(run, '\\');
    }
  }

  /** The name stops at the first backslash; a section opening with a
      backslash has none. */
  lemma CompanyNameSample()
    ensures CompanyName("Acme\\n") == Some("Acme")
    ensures CompanyName("\\n").None?
  {
    var s := "Acme\\n";
    assert LeadingRun(s[4..]) == [];
    assert LeadingRun(s) == "Acme";
    assert Trimmed("Acme");
  }

  // ---------------------------------------------------------------------
  // `_clean_text` and `_extract_amount_only`

  /** `_clean_text`: each literal `\n` becomes a space, the text is
      stripped and each whitespace run becomes one space. */
  function CleanText(text: string): string {
    if text == "" then "" else CollapseSpaces(Strip(Replace(text, EscapedNewline, " ")))
  }

  /** The cleaned text is trimmed and single-spaced and keeps every visible
      character once the escaped newlines are spaces. */
  lemma CleanTextClean(text: string)
    ensures Trimmed(CleanText(text)) && SingleSpaced(CleanText(text))
    ensures Visible(CleanText(text)) == Visible(Replace(text, EscapedNewline, " "))
    ensures text == "" ==> CleanText(text) == ""
  {
    if text != "" {
      StripCollapseClean(Replace(text, EscapedNewline, " "));
    }
  }

  lemma StripCollapseClean(u: string)
    ensures Trimmed(CollapseSpaces(Strip(u))) && SingleSpaced(CollapseSpaces(Strip(u)))
    ensures Visible(CollapseSpaces(Strip(u))) == Visible(u)
  {
    CollapseTrimmed(Strip(u));
  }

  lemma CollapseTrimmed(s: string)
    requires Trimmed(s)
    ensures Trimmed(CollapseSpaces(s)) && SingleSpaced(CollapseSpaces(s))
    ensures Visible(CollapseSpaces(s)) == Visible(s)
  {
    CollapseKeepsTrimmed(s);
    CollapseVisible(s);
    CollapseSingleSpaced(s);
  }

  lemma CollapseKeepsTrimmed(s: string)
    requires Trimmed(s)
    ensures Trimmed(CollapseSpaces(s))
  {
    CollapseEnds(s);
    var c := CollapseSpaces(s);
    if c != [] {
      assert !IsSpace(s[0]) && !IsSpace(s[|s| - 1]);
      assert !IsSpace(c[0]) && !IsSpace(c[|c| - 1]);
    }
  }

  /** A text that is already trimmed, single-spaced and free of backslashes
      is its own cleaning. */
  lemma CleanTextFixed(t: string)
    requires Trimmed(t) && SingleSpaced(t) && '\\' !in t
    ensures CleanText(t) == t
  {
    if t != "" {
      assert Replace(t, EscapedNewline, " ") == t;
      CollapseOfSingleSpaced(t);
    }
  }

  /** The amount after the first stop pattern from index `from` on, in
      list order, that occurs: the cleaned text up to that pattern's first
      occurrence, stripped. */
  function TruncateFrom(cleaned: string, patterns: seq<string>, from: nat): string
    decreases |patterns| - from
  {
    if from >= |patterns| then cleaned
    else
      var found := IndexOf(cleaned, patterns[from]);
      if found.Some? then Strip(cleaned[..found.value])
      else TruncateFrom(cleaned, patterns, from + 1)
  }

  /** `_extract_amount_only` as a value. */
  function AmountOnly(amountText: string): string {
    if amountText == "" then "" else TruncateFrom(CleanText(amountText), StopPatterns, 0)
  }

  /** With no stop pattern in the cleaned text the amount is that text. */
  lemma {:induction false} TruncateNoStop(cleaned: string, patterns: seq<string>, from: nat)
    requires forall j | from <= j < |patterns| :: !Contains(cleaned, patterns[j])
    ensures TruncateFrom(cleaned, patterns, from) == cleaned
    decreases |patterns| - from
  {
    if from < |patterns| {
      TruncateNoStop(cleaned, patterns, from + 1);
    }
  }

  /** Patterns before the `k`-th that do not occur are passed over. */
  lemma {:induction false} TruncateSkips(cleaned: string, patterns: seq<string>, from: nat, k: nat)
    requires from <= k <= |patterns|
    requires forall j | from <= j < k :: !Contains(cleaned, patterns[j])
    ensures TruncateFrom(cleaned, patterns, from) == TruncateFrom(cleaned, patterns, k)
    decreases k - from
  {
    if from < k {
      TruncateSkips(cleaned, patterns, from + 1, k);
    }
  }

  /** When the `k`-th pattern is the first in list order that occurs, the
      amount is the text before its first occurrence, stripped. */
  lemma TruncateFirstStop(cleaned: string, patterns: seq<string>, k: nat)
    requires k < |patterns| && Contains(cleaned, patterns[k])
    requires forall j | 0 <= j < k :: !Contains(cleaned, patterns[j])
    ensures TruncateFrom(cleaned, patterns, 0) == Strip(cleaned[..IndexOf(cleaned, patterns[k]).value])
  {
    TruncateSkips(cleaned, patterns, 0, k);
  }

  /** The cut text holds no copy of the pattern it was cut at. */
  lemma CutHasNoStop(cleaned: string, p: string)
    requires p != [] && Contains(cleaned, p)
    ensures !Contains(Strip(cleaned[..IndexOf(cleaned, p).value]), p)
  {
    var i := IndexOf(cleaned, p).value;
    IndexOfFinds(cleaned, p);
    PrefixFree(cleaned, p, i);
    StripFree(cleaned[..i], p);
  }

  /** Stripping cannot create an occurrence. */
  lemma StripFree(s: string, sub: string)
    requires forall k :: !OccursAt(s, sub, k)
    ensures !Contains(Strip(s), sub)
  {
    var off := StripSlice(s);
    SliceFree(s, sub, off, off + |Strip(s)|);
    IndexOfFinds(Strip(s), sub);
  }

  lemma SliceFree(s: string, sub: string, a: nat, b: nat)
    requires a <= b <= |s| && forall k :: !OccursAt(s, sub, k)
    ensures forall k :: !OccursAt(s[a..b], sub, k)
  {
    forall k ensures !OccursAt(s[a..b], sub, k) {
      if 0 <= k && k + |sub| <= b - a {
        assert !OccursAt(s, sub, a + k);
        assert s[a..b][k..k + |sub|] == s[a + k..a + k + |sub|];
      }
    }
  }

  lemma {:induction false} TruncateTrimmed(cleaned: string, patterns: seq<string>, from: nat)
    requires Trimmed(cleaned)
    ensures Trimmed(TruncateFrom(cleaned, patterns, from))
    decreases |patterns| - from
  {
    if from < |patterns| && IndexOf(cleaned, patterns[from]).None? {
      TruncateTrimmed(cleaned, patterns, from + 1);
    }
  }

  /** The amount is always trimmed; with no stop pattern it is the cleaned
      text, and otherwise it is cut at the first stop pattern in list
      order that occurs and holds no copy of that pattern. */
  lemma AmountOnlyStops(amountText: string, k: nat)
    ensures Trimmed(AmountOnly(amountText))
    ensures amountText != "" && (forall j | 0 <= j < |StopPatterns| :: !Contains(CleanText(amountText), StopPatterns[j])) ==>
      AmountOnly(amountText) == CleanText(amountText)
    ensures (amountText != "" && k < |StopPatterns| && Contains(CleanText(amountText), StopPatterns[k])
      && forall j | 0 <= j < k :: !Contains(CleanText(amountText), StopPatterns[j])) ==>
      && AmountOnly(amountText) == Strip(CleanText(amountText)[..IndexOf(CleanText(amountText), StopPatterns[k]).value])
      && !Contains(AmountOnly(amountText), StopPatterns[k])
  {
    if amountText != "" {
      CleanTextClean(amountText);
      TruncateStops(CleanText(amountText), k);
    }
  }

  /** The stop-pattern cut of a trimmed text, whatever the text. */
  lemma TruncateStops(c: string, k: nat)
    requires Trimmed(c)
    ensures Trimmed(TruncateFrom(c, StopPatterns, 0))
    ensures (forall j | 0 <= j < |StopPatterns| :: !Contains(c, StopPatterns[j])) ==> TruncateFrom(c, StopPatterns, 0) == c
    ensures (k < |StopPatterns| && Contains(c, StopPatterns[k]) && forall j | 0 <= j < k :: !Contains(c, StopPatterns[j])) ==>
      && TruncateFrom(c, StopPatterns, 0) == Strip(c[..IndexOf(c, StopPatterns[k]).value])
      && !Contains(TruncateFrom(c, StopPatterns, 0), StopPatterns[k])
  {
    TruncateTrimmed(c, StopPatterns, 0);
    if forall j | 0 <= j < |StopPatterns| :: !Contains(c, StopPatterns[j]) {
      TruncateNoStop(c, StopPatterns, 0);
    }
    if k < |StopPatterns| && Contains(c, StopPatterns[k]) && forall j | 0 <= j < k :: !Contains(c, StopPatterns[j]) {
      TruncateFirstStop(c, StopPatterns, k);
      assert StopPatterns[k] != [] by {
        assert StopPatterns[k] in StopPatterns;
      }
      CutHasNoStop(c, StopPatterns[k]);
    }
  }

  /** `_extract_amount_only`: the text is cleaned, then cut at the first
      stop pattern that occurs. */
  method ExtractAmountOnly(amountText: string) returns (cleaned: string)
    ensures cleaned == AmountOnly(amountText)
  {
    if amountText == "" {
      return "";
    }
    cleaned := CleanText(amountText);
    cleaned := CutAtStops(cleaned);
  }

  /** The stop patterns are tried in order and the first that occurs cuts
      the text. */
  method CutAtStops(text: string) returns (cut: string)
    ensures cut == TruncateFrom(text, StopPatterns, 0)
  {
    var k := 0;
    while k < |StopPatterns|
      invariant 0 <= k <= |StopPatterns|
      invariant TruncateFrom(text, StopPatterns, 0) == TruncateFrom(text, StopPatterns, k)
    {
      var found := IndexOf(text, StopPatterns[k]);
      if found.Some? {
        return Strip(text[..found.value]);
      }
      k := k + 1;
    }
    cut := text;
  }

  // ---------------------------------------------------------------------
  // Records

  datatype InstrumentData = InstrumentData(
    companyName: string, instrumentCategory: string, rating: string, outlook: string,
    instrumentAmount: string, date: string, url: string)

  /** The six groups of one instrument-block match: category, "as on"
      date, rating, outlook, amount and the "View Instrument" link. */
  datatype InstrumentMatch = InstrumentMatch(
    category: string, asOn: string, rating: string, outlook: string, amount: string, url: string)

  /** The record one match becomes. */
  function BuildRecord(companyName: string, m: InstrumentMatch): InstrumentData {
    InstrumentData(CleanText(companyName), CleanText(m.category), CleanText(m.rating), CleanText(m.outlook),
                   AmountOnly(m.amount), CleanText(m.asOn), Strip(m.url))
  }

  function RecordBuilder(companyName: string): InstrumentMatch -> InstrumentData {
    (m: InstrumentMatch) => BuildRecord(companyName, m)
  }

  /** The records of one section's matches, in match order. */
  function SectionRecords(companyName: string, matches: seq<InstrumentMatch>): seq<InstrumentData> {
    MapSeq(matches, RecordBuilder(companyName))
  }

  /** One record per match, in match order, each with its fields cleaned
      and its url stripped. */
  lemma SectionRecordsIndex(companyName: string, matches: seq<InstrumentMatch>)
    ensures |SectionRecords(companyName, matches)| == |matches|
    ensures forall i | 0 <= i < |matches| :: SectionRecords(companyName, matches)[i] == BuildRecord(companyName, matches[i])
  {
    MapSeqIndex(matches, RecordBuilder(companyName));
  }

  /** Every field of a record is trimmed, and every field other than the
      url and the amount is single-spaced as well. */
  lemma BuildRecordClean(companyName: string, m: InstrumentMatch)
    ensures var r := BuildRecord(companyName, m);
      && Trimmed(r.companyName) && SingleSpaced(r.companyName)
      && Trimmed(r.instrumentCategory) && SingleSpaced(r.instrumentCategory)
      && Trimmed(r.rating) && SingleSpaced(r.rating)
      && Trimmed(r.outlook) && Trimmed(r.date) && Trimmed(r.url) && Trimmed(r.instrumentAmount)
  {
    CleanTextClean(companyName);
    CleanTextClean(m.category);
    CleanTextClean(m.rating);
    CleanTextClean(m.outlook);
    CleanTextClean(m.asOn);
    AmountOnlyStops(m.amount, 0);
  }

  /** What one section adds: nothing without a company name, else the
      records of the matches found in it. */
  function SectionContribution(findAll: string -> seq<InstrumentMatch>): string -> seq<InstrumentData> {
    (section: string) =>
      match CompanyName(section)
      case None => []
      case Some(name) => SectionRecords(name, findAll(section))
  }

  /** The records of a sequence of sections, in order. */
  function ContentRecords(sections: seq<string>, findAll: string -> seq<InstrumentMatch>): seq<InstrumentData> {
    FlatMap(sections, SectionContribution(findAll))
  }

  function Named(section: string): bool { CompanyName(section).Some? }

  /** Sections without a company name add nothing, so the records are
      those of the named sections alone. */
  lemma ContentRecordsSkipsUnnamed(sections: seq<string>, findAll: string -> seq<InstrumentMatch>)
    ensures ContentRecords(sections, findAll) == ContentRecords(Select(sections, Named), findAll)
  {
    FlatMapSkips(sections, SectionContribution(findAll), Named);
  }

  class CreditRatingExtractor {
    /** `extracted_data`. */
    var extractedData: seq<InstrumentData>

    constructor ()
      ensures extractedData == []
    {
      extractedData := [];
    }

    /** `_extract_instruments_from_section`: one record appended per match,
        in match order. */
    method ExtractInstrumentsFromSection(companyName: string, section: string, findAll: string -> seq<InstrumentMatch>)
      modifies this
      ensures extractedData == old(extractedData) + SectionRecords(companyName, findAll(section))
    {
      var matches := findAll(section);
      var i := 0;
      while i < |matches|
        invariant 0 <= i <= |matches|
        invariant extractedData == old(extractedData) + SectionRecords(companyName, matches[..i])
      {
        var m := matches[i];
        var amount := ExtractAmountOnly(m.amount);
        var record := InstrumentData(CleanText(companyName), CleanText(m.category), CleanText(m.rating),
                                     CleanText(m.outlook), amount, CleanText(m.asOn), Strip(m.url));
        assert record == RecordBuilder(companyName)(m);
        MapSeqStep(matches, i, RecordBuilder(companyName));
        AppendAssoc(old(extractedData), SectionRecords(companyName, matches[..i]), [record]);
        extractedData := extractedData + [record];
        i := i + 1;
      }
      assert matches[..i] == matches;
    }

    /** `_process_company_section`: a section without a company name is
        skipped. */
    method ProcessCompanySection(section: string, findAll: string -> seq<InstrumentMatch>)
      modifies this
      ensures extractedData == old(extractedData) + SectionContribution(findAll)(section)
    {
      var name := CompanyName(section);
      if name.None? {
        return;
      }
      ExtractInstrumentsFromSection(name.value, section, findAll);
    }

    /** `extract_company_data` on the file's content: every section after
        the first marker is processed in order; returns all the records. */
    method ExtractCompanyData(content: string, findAll: string -> seq<InstrumentMatch>) returns (data: seq<InstrumentData>)
      modifies this
      ensures extractedData == old(extractedData) + ContentRecords(Sections(content), findAll)
      ensures data == extractedData
    {
      var sections := Sections(content);
      var i := 0;
      while i < |sections|
        invariant 0 <= i <= |sections|
        invariant extractedData == old(extractedData) + ContentRecords(sections[..i], findAll)
      {
        ghost var before := extractedData;
        var contribution := SectionContribution(findAll);
        ProcessCompanySection(sections[i], findAll);
        FlatMapStep(sections, i, contribution);
        assert ContentRecords(sections[..i + 1], findAll) == ContentRecords(sections[..i], findAll) + contribution(sections[i]);
        AppendAssoc(old(extractedData), ContentRecords(sections[..i], findAll), contribution(sections[i]));
        i := i + 1;
      }
      assert sections[..i] == sections;
      data := extractedData;
    }
  }
}
