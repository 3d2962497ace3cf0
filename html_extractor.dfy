/** The press-release extractor `HTMLCreditRatingExtractor` (the copy in the
    API service and the stand-alone script share every parsing rule, so it is
    modelled once) and the date check of `InfomericsPressScraper`.

    The parsed HTML is abstracted: a document is the sequence of its `h3`
    elements, each with the siblings that follow it, and an element carries
    the rating blocks found inside it, each block holding the raw texts the
    `find` queries return. The cleaning, URL choice, duplicate/append rule
    and the walk bounds are modelled as written. */
module HtmlExtractor {
  import opened Common
  import opened Strings
  import opened Dates

  const NotFound: string := "Not found"
  const CompanySuffixes: seq<string> := ["Limited", "LLP", "Private", "Company"]
  /** `max_elements`: siblings examined after one company header. */
  const MaxElements: nat := 50
  /** Parents climbed from an 'Instrument Category' div. */
  const MaxClimb: nat := 10

  // ---------------------------------------------------------------------
  // `_clean_text` and `_clean_url`

  /** The five entity replacements, '&amp;' first. */
  function DecodeEntities(text: string): string {
    Replace(Replace(Replace(Replace(Replace(text, "&amp;", "&"), "&lt;", "<"), "&gt;", ">"), "&quot;", "\""), "&#39;", "'")
  }

  /** `_clean_text`: entities decoded, stripped, whitespace runs made one
      space, tabs and newlines made spaces, stripped again. */
  function CleanText(text: string): string {
    if text == "" then ""
    else Strip(SpaceControls(CollapseSpaces(Strip(DecodeEntities(text)))))
  }

  /** The cleaned text is empty for empty input, trimmed and single-spaced,
      and keeps every visible character of the decoded text in order. */
  lemma CleanTextClean(text: string)
    ensures text == "" ==> CleanText(text) == ""
    ensures Trimmed(CleanText(text)) && SingleSpaced(CleanText(text))
    ensures Visible(CleanText(text)) == Visible(DecodeEntities(text))
  {
    if text != "" {
      var stripped := Strip(DecodeEntities(text));
      var cleaned := CollapseSpaces(stripped);
      CollapseSpacesShape(stripped);
      assert Trimmed(cleaned);
      SpaceControlsOfSingleSpaced(cleaned);
      assert Strip(SpaceControls(cleaned)) == cleaned;
      assert CleanText(text) == cleaned;
    }
  }

  /** Once whitespace is single spaces, turning tabs and newlines into
      spaces changes nothing. */
  lemma SpaceControlsOfSingleSpaced(s: string)
    requires SingleSpaced(s)
    ensures SpaceControls(s) == s
  {
    var r := SpaceControls(s);
    forall i | 0 <= i < |s| ensures r[i] == s[i] {
      if s[i] in "\t\n\r" {
        assert IsSpace(s[i]);
      }
    }
  }

  /** A text that is already clean and holds no entity is left unchanged. */
  lemma CleanTextFixed(t: string)
    requires Trimmed(t) && SingleSpaced(t) && '&' !in t
    ensures CleanText(t) == t
  {
    if t != "" {
      assert DecodeEntities(t) == t;
      CollapseOfSingleSpaced(t);
      SpaceControlsOfSingleSpaced(t);
    }
  }

  /** '&amp;' is decoded first, so an escaped entity is decoded twice. */
  lemma CleanTextDecodesAmpFirst()
    ensures CleanText("&amp;lt;") == "<"
  {
    var s := "&amp;lt;";
    assert s[..5] == "&amp;";
    assert s[5..] == "lt;";
    assert Replace("lt;", "&amp;", "&") == "lt;";
    assert Replace(s, "&amp;", "&") == "&lt;";
    var t := "&lt;";
    assert t[..4] == "&lt;" && t[4..] == [];
    assert Replace(t, "&lt;", "<") == "<";
    assert DecodeEntities(s) == "<";
    CleanTextFixed("<");
  }

  /** `_clean_url`: empty gives "Not found"; otherwise the stripped text
      loses one pair of surrounding quotes (or escaped quotes) and every
      backslash, and is stripped again. */
  function CleanUrl(url: string): string {
    if url == "" then NotFound
    else Strip(Replace(Replace(Unescape(Unquote(Strip(url))), "\\\"", "\""), "\\", ""))
  }

  /** Drops one pair of surrounding double quotes (`cleaned[1:-1]`). */
  function Unquote(c: string): string {
    if StartsWith(c, "\"") && EndsWith(c, "\"") then (if |c| >= 2 then c[1..|c| - 1] else []) else c
  }

  /** Drops one pair of surrounding escaped quotes (`cleaned[2:-2]`). */
  function Unescape(c: string): string {
    if StartsWith(c, "\\\"") && EndsWith(c, "\\\"") then (if |c| >= 4 then c[2..|c| - 2] else []) else c
  }

  /** A cleaned URL is "Not found" for empty input and otherwise trimmed
      and free of backslashes. */
  lemma CleanUrlClean(url: string)
    ensures url == "" ==> CleanUrl(url) == NotFound
    ensures url != "" ==> '\\' !in CleanUrl(url) && Trimmed(CleanUrl(url))
  {
    if url != "" {
      var c := Replace(Unescape(Unquote(Strip(url))), "\\\"", "\"");
      ReplaceDeletesChar(c, '\\');
      var c3 := Replace(c, "\\", "");
      StripKeepsOut(c3, '\\');
    }
  }

  /** A quoted URL with no backslash and no surrounding whitespace inside
      the quotes comes back without its quotes. */
  lemma CleanUrlUnquotes(x: string)
    requires '\\' !in x && Trimmed(x)
    ensures CleanUrl("\"" + x + "\"") == x
  {
    var q := "\"" + x + "\"";
    QuotedTrimmed(x);
    UnquoteQuoted(x);
    BackslashFree(x);
  }

  lemma QuotedTrimmed(x: string)
    ensures Strip("\"" + x + "\"") == "\"" + x + "\""
  {
    var q := "\"" + x + "\"";
    assert q[0] == '"' && q[|q| - 1] == '"';
  }

  lemma UnquoteQuoted(x: string)
    ensures Unquote("\"" + x + "\"") == x
  {
    var q := "\"" + x + "\"";
    assert q[..1] == "\"" && q[|q| - 1..] == "\"";
    assert q[1..|q| - 1] == x;
  }

  /** Text without a backslash passes the unescaping steps unchanged. */
  lemma BackslashFree(x: string)
    requires '\\' !in x
    ensures Unescape(x) == x
    ensures Replace(Replace(x, "\\\"", "\""), "\\", "") == x
  {
    assert !StartsWith(x, "\\\"") by {
      if |x| >= 2 { assert x[0] != '\\'; }
    }
    assert Replace(x, "\\\"", "\"") == x;
  }


  /** A clean URL passes through unchanged. */
  lemma CleanUrlKeepsPlain(u: string)
    requires u != "" && '\\' !in u && Trimmed(u) && u[0] != '"'
    ensures CleanUrl(u) == u
  {
    assert !StartsWith(u, "\"");
    BackslashFree(u);
  }

  // ---------------------------------------------------------------------
  // Records and the duplicate/append rule

  datatype Instrument = Instrument(
    companyName: string, category: string, rating: string, outlook: string,
    amount: string, date: string, url: string)

  /** One rating block: the text of the div after each label (None when the
      label or its next div is missing), the `as on` capture, and the href
      each of the four URL lookups finds, in lookup order. */
  datatype Block = Block(
    category: Option<string>, dateCapture: Option<string>, rating: Option<string>,
    outlook: Option<string>, amount: Option<string>, hrefs: seq<Option<string>>)

  function FieldText(t: Option<string>): (r: string)
    ensures t.None? ==> r == NotFound
    ensures t.Some? ==> r == CleanText(t.value)
  {
    if t.Some? then CleanText(t.value) else NotFound
  }

  /** An href that ends the lookups: present, non-empty and not the
      literal "Not found", which leaves the URL unset for the next method. */
  predicate UsableHref(h: Option<string>) {
    h.Some? && h.value != "" && h.value != NotFound
  }

  /** The first lookup that finds a usable href. */
  function FirstHref(hrefs: seq<Option<string>>): (r: Option<string>)
    ensures r.Some? ==> r.value != "" && r.value != NotFound
    ensures r.Some? <==> exists i | 0 <= i < |hrefs| :: UsableHref(hrefs[i])
    ensures r.Some? ==> exists i | 0 <= i < |hrefs| ::
      (hrefs[i] == r && forall j | 0 <= j < i :: !UsableHref(hrefs[j]))
  {
    if hrefs == [] then None
    else if UsableHref(hrefs[0]) then hrefs[0]
    else
      var r := FirstHref(hrefs[1..]);
      assert forall i | 1 <= i < |hrefs| :: hrefs[i] == hrefs[1..][i - 1];
      r
  }

  /** The block's URL: "Not found" when no lookup gives a usable href,
      and otherwise the first usable href, cleaned. */
  function BlockUrl(b: Block): (url: string)
    ensures FirstHref(b.hrefs).None? ==> url == NotFound
    ensures FirstHref(b.hrefs).Some? ==>
      url == CleanUrl(FirstHref(b.hrefs).value) && '\\' !in url && Trimmed(url)
  {
    match FirstHref(b.hrefs)
    case None => NotFound
    case Some(u) => CleanUrlClean(u); CleanUrl(u)
  }

  /** The candidate record `_extract_instrument_from_block` builds. */
  function BlockRecord(companyName: string, b: Block): Instrument {
    Instrument(companyName, FieldText(b.category), FieldText(b.rating), FieldText(b.outlook),
               FieldText(b.amount), FieldText(b.dateCapture), BlockUrl(b))
  }

  /** The duplicate test: company, category, rating and amount; outlook,
      date and url are not compared. */
  predicate SameKey(a: Instrument, b: Instrument) {
    a.companyName == b.companyName && a.category == b.category
    && a.rating == b.rating && a.amount == b.amount
  }

  /** A record is kept only when its category or its rating was found. */
  predicate Accepted(r: Instrument) {
    r.category != NotFound || r.rating != NotFound
  }

  predicate HasDuplicate(data: seq<Instrument>, rec: Instrument) {
    exists i | 0 <= i < |data| :: SameKey(data[i], rec)
  }

  /** The specification of one `_extract_instrument_from_block`. */
  function AddRecord(data: seq<Instrument>, rec: Instrument): (r: seq<Instrument>)
    ensures r == data || r == data + [rec]
    ensures r == data + [rec] <==> !HasDuplicate(data, rec) && Accepted(rec)
  {
    if !HasDuplicate(data, rec) && Accepted(rec) then data + [rec] else data
  }

  /** The records an extractor holds: every one accepted, no two alike. */
  predicate WellFormed(data: seq<Instrument>) {
    (forall i | 0 <= i < |data| :: Accepted(data[i]))
    && (forall i, j | 0 <= i < j < |data| :: !SameKey(data[i], data[j]))
  }

  lemma AddRecordWellFormed(data: seq<Instrument>, rec: Instrument)
    requires WellFormed(data)
    ensures WellFormed(AddRecord(data, rec))
  {
    var r := AddRecord(data, rec);
    if r != data {
      forall i, j | 0 <= i < j < |r| ensures !SameKey(r[i], r[j]) {
        if j == |data| {
          assert r[i] == data[i] && r[j] == rec;
        } else {
          assert r[i] == data[i] && r[j] == data[j];
        }
      }
    }
  }

  /** `_extract_instrument_from_block` on a company's block, as a value. */
  function RecordsOf(companyName: string): Block -> Instrument {
    b => BlockRecord(companyName, b)
  }

  /** The blocks of one element processed in order, `build` making each
      block's candidate record. */
  function AddBlocks(data: seq<Instrument>, build: Block -> Instrument, blocks: seq<Block>): (r: seq<Instrument>)
    ensures |data| <= |r| <= |data| + |blocks| && r[..|data|] == data
    decreases |blocks|
  {
    if blocks == [] then data
    else AddBlocks(AddRecord(data, build(blocks[0])), build, blocks[1..])
  }

  lemma {:induction false} AddBlocksAppend(data: seq<Instrument>, build: Block -> Instrument, xs: seq<Block>, ys: seq<Block>)
    ensures AddBlocks(data, build, xs + ys) == AddBlocks(AddBlocks(data, build, xs), build, ys)
    decreases |xs|
  {
    if xs == [] {
      assert xs + ys == ys;
    } else {
      assert (xs + ys)[0] == xs[0] && (xs + ys)[1..] == xs[1..] + ys;
      AddBlocksAppend(AddRecord(data, build(xs[0])), build, xs[1..], ys);
    }
  }

  lemma {:induction false} AddBlocksWellFormed(data: seq<Instrument>, build: Block -> Instrument, blocks: seq<Block>)
    requires WellFormed(data)
    ensures WellFormed(AddBlocks(data, build, blocks))
    decreases |blocks|
  {
    if blocks != [] {
      AddRecordWellFormed(data, build(blocks[0]));
      AddBlocksWellFormed(AddRecord(data, build(blocks[0])), build, blocks[1..]);
    }
  }

  // ---------------------------------------------------------------------
  // The sibling walk

  datatype Node = TextNode | Element(name: string, text: string, blocks: seq<Block>)

  /** `any(suffix in text for suffix in [...])`. */
  predicate HasCompanySuffix(text: string) {
    MentionsAny(text, CompanySuffixes)
  }

  /** Some word of the list occurs in the text. */
  predicate MentionsAny(text: string, words: seq<string>)
    decreases |words|
  {
    words != [] && (Contains(text, words[0]) || MentionsAny(text, words[1..]))
  }

  /** Elements are nodes with a name; text nodes are skipped. */
  predicate IsElement(n: Node) { n.Element? && n.name != "" }

  /** The walk stops after a company `h3` or an `hr`. */
  predicate StopsWalk(n: Node) {
    IsElement(n) && ((n.name == "h3" && HasCompanySuffix(n.text)) || n.name == "hr")
  }

  /** The blocks the walk processes, from the sibling at position `checked`. */
  function Walk(siblings: seq<Node>, checked: nat): seq<Block>
    decreases |siblings|
  {
    if siblings == [] || checked >= MaxElements then []
    else
      var n := siblings[0];
      var here := if IsElement(n) then n.blocks else [];
      if StopsWalk(n) then here else here + Walk(siblings[1..], checked + 1)
  }

  /** One step of the walk from position `i`. */
  lemma WalkStep(siblings: seq<Node>, i: nat)
    requires i < |siblings| && i < MaxElements
    ensures Walk(siblings[i..], i) ==
      (if IsElement(siblings[i]) then siblings[i].blocks else [])
      + (if StopsWalk(siblings[i]) then [] else Walk(siblings[i + 1..], i + 1))
  {
    var rest := siblings[i..];
    assert rest[0] == siblings[i] && rest[1..] == siblings[i + 1..];
    if StopsWalk(siblings[i]) {
      var here := if IsElement(siblings[i]) then siblings[i].blocks else [];
      assert here + [] == here;
    }
  }

  /** Past the end or past 50 siblings the walk looks at nothing more. */
  lemma WalkEnd(siblings: seq<Node>, i: nat)
    requires i <= |siblings| && (i == |siblings| || i >= MaxElements)
    ensures Walk(siblings[i..], i) == []
  {
  }

  /** Siblings beyond the first 50 are never looked at. */
  lemma {:induction false} WalkBounded(siblings: seq<Node>, checked: nat, k: nat)
    requires checked + k >= MaxElements
    ensures Walk(siblings, checked) == Walk(siblings[..Min(k, |siblings|)], checked)
    decreases |siblings|
  {
    var cut := siblings[..Min(k, |siblings|)];
    if siblings != [] && checked < MaxElements {
      assert k >= 1;
      assert cut[0] == siblings[0];
      assert cut[1..] == siblings[1..][..Min(k - 1, |siblings| - 1)];
      WalkBounded(siblings[1..], checked + 1, k - 1);
    }
  }

  /** Nothing after a stopping sibling is looked at. */
  lemma {:induction false} WalkStops(siblings: seq<Node>, checked: nat, k: nat)
    requires k < |siblings| && StopsWalk(siblings[k])
    ensures Walk(siblings, checked) == Walk(siblings[..k + 1], checked)
    decreases k
  {
    var cut := siblings[..k + 1];
    assert cut[0] == siblings[0];
    if k > 0 && checked < MaxElements && !StopsWalk(siblings[0]) {
      assert cut[1..] == siblings[1..][..k];
      WalkStops(siblings[1..], checked + 1, k - 1);
    }
  }

  /** A company header: an `h3` whose stripped text names a company. */
  datatype Header = Header(text: string, following: seq<Node>)

  predicate IsCompanyHeader(h: Header) {
    HasCompanySuffix(Strip(h.text))
  }

  /** The headers whose text names a company, in document order. */
  function CompanyHeaders(headers: seq<Header>): seq<Header> {
    Select(headers, IsCompanyHeader)
  }

  /** The company headers are exactly the headers whose text names a
      company. */
  lemma CompanyHeadersSelected(headers: seq<Header>, h: Header)
    ensures h in CompanyHeaders(headers) <==> h in headers && IsCompanyHeader(h)
  {
    SelectMembers(headers, IsCompanyHeader, h);
  }

  /** The header filter of `extract_company_data`, as a loop. */
  method FindCompanyHeaders(headers: seq<Header>) returns (companyHeaders: seq<Header>)
    ensures companyHeaders == CompanyHeaders(headers)
  {
    companyHeaders := [];
    var i := 0;
    while i < |headers|
      invariant 0 <= i <= |headers|
      invariant companyHeaders == Select(headers[..i], IsCompanyHeader)
    {
      SelectStep(headers, i, IsCompanyHeader);
      if IsCompanyHeader(headers[i]) {
        companyHeaders := companyHeaders + [headers[i]];
      }
      i := i + 1;
    }
    assert headers[..i] == headers;
  }

  /** The records after walking every company header in order. */
  function ExtractAll(data: seq<Instrument>, companies: seq<Header>): seq<Instrument>
    decreases |companies|
  {
    if companies == [] then data
    else
      var h := companies[0];
      ExtractAll(AddBlocks(data, RecordsOf(CleanText(h.text)), Walk(h.following, 0)), companies[1..])
  }

  lemma {:induction false} ExtractAllWellFormed(data: seq<Instrument>, companies: seq<Header>)
    requires WellFormed(data)
    ensures WellFormed(ExtractAll(data, companies))
    decreases |companies|
  {
    if companies != [] {
      var h := companies[0];
      AddBlocksWellFormed(data, RecordsOf(CleanText(h.text)), Walk(h.following, 0));
      ExtractAllWellFormed(AddBlocks(data, RecordsOf(CleanText(h.text)), Walk(h.following, 0)), companies[1..]);
    }
  }

  /** `_find_rating_blocks_in_element` for one category div: climb at most
      ten parents, stopping at the first that holds all three labels.
      `complete[k]` says whether the (k+1)-th ancestor holds them; there are
      `|complete|` ancestors. The result is how many levels were climbed. */
  method ClimbToRatingBlock(complete: seq<bool>) returns (levels: nat)
    ensures levels <= MaxClimb && levels <= |complete|
    ensures forall k | 0 <= k < levels - 1 :: !complete[k]
    ensures levels < Min(MaxClimb, |complete|) ==> levels >= 1 && complete[levels - 1]
    ensures (exists k | 0 <= k < Min(MaxClimb, |complete|) :: complete[k]) ==> complete[levels - 1]
  {
    levels := 0;
    var step := 0;
    while step < MaxClimb
      invariant 0 <= step <= MaxClimb && levels == step && step <= |complete|
      invariant forall k | 0 <= k < step :: !complete[k]
    {
      if step >= |complete| {
        break;
      }
      levels := step + 1;
      if complete[step] {
        return;
      }
      step := step + 1;
    }
  }

  /** The duplicate scan of `_extract_instrument_from_block`: is there an
      earlier record with the same company, category, rating and amount? */
  method FindDuplicate(data: seq<Instrument>, rec: Instrument) returns (duplicate: bool)
    ensures duplicate <==> HasDuplicate(data, rec)
  {
    var i := 0;
    while i < |data|
      invariant 0 <= i <= |data|
      invariant forall j | 0 <= j < i :: !SameKey(data[j], rec)
    {
      var existing := data[i];
      if existing.companyName == rec.companyName && existing.category == rec.category
        && existing.rating == rec.rating && existing.amount == rec.amount
      {
        return true;
      }
      i := i + 1;
    }
    return false;
  }

  class Extractor {
    var extractedData: seq<Instrument>

    constructor ()
      ensures extractedData == []
    {
      extractedData := [];
    }

    /** `_extract_instrument_from_block`: builds the record, skips it if an
        earlier record has the same key, and appends it if its category or
        rating was found. */
    method ExtractInstrumentFromBlock(companyName: string, block: Block) returns (added: bool)
      modifies this
      ensures extractedData == AddRecord(old(extractedData), BlockRecord(companyName, block))
      ensures added <==> extractedData == old(extractedData) + [BlockRecord(companyName, block)]
    {
      var rec := BlockRecord(companyName, block);
      var duplicate := FindDuplicate(extractedData, rec);
      if duplicate {
        return false;
      }
      if rec.category != NotFound || rec.rating != NotFound {
        extractedData := extractedData + [rec];
        return true;
      }
      return false;
    }

    /** The `for block in rating_blocks` loop of
        `_extract_instruments_after_header`: every block in order; the count
        is the number of records added. */
    method ExtractBlocks(companyName: string, blocks: seq<Block>) returns (count: nat)
      modifies this
      ensures extractedData == AddBlocks(old(extractedData), RecordsOf(companyName), blocks)
      ensures count == |extractedData| - |old(extractedData)|
    {
      count := 0;
      var j := 0;
      while j < |blocks|
        invariant 0 <= j <= |blocks|
        invariant AddBlocks(extractedData, RecordsOf(companyName), blocks[j..]) == AddBlocks(old(extractedData), RecordsOf(companyName), blocks)
        invariant |old(extractedData)| <= |extractedData|
        invariant count == |extractedData| - |old(extractedData)|
      {
        assert blocks[j..][0] == blocks[j] && blocks[j..][1..] == blocks[j + 1..];
        var added := ExtractInstrumentFromBlock(companyName, blocks[j]);
        if added {
          count := count + 1;
        }
        j := j + 1;
      }
      assert blocks[j..] == [];
    }

    /** `_extract_instruments_after_header`: examines at most 50 siblings,
        processes every block of each element, and stops after a company
        `h3` or an `hr`; the count is the number of records added. */
    method ExtractInstrumentsAfterHeader(companyName: string, siblings: seq<Node>) returns (instrumentCount: nat)
      modifies this
      ensures extractedData == AddBlocks(old(extractedData), RecordsOf(companyName), Walk(siblings, 0))
      ensures instrumentCount == |extractedData| - |old(extractedData)|
    {
      instrumentCount := 0;
      var elementsChecked := 0;
      while elementsChecked < |siblings| && elementsChecked < MaxElements
        invariant 0 <= elementsChecked <= |siblings|
        invariant AddBlocks(extractedData, RecordsOf(companyName), Walk(siblings[elementsChecked..], elementsChecked))
          == AddBlocks(old(extractedData), RecordsOf(companyName), Walk(siblings, 0))
        invariant |old(extractedData)| <= |extractedData|
        invariant instrumentCount == |extractedData| - |old(extractedData)|
        decreases |siblings| - elementsChecked
      {
        var current := siblings[elementsChecked];
        WalkStep(siblings, elementsChecked);
        ghost var later := Walk(siblings[elementsChecked + 1..], elementsChecked + 1);
        elementsChecked := elementsChecked + 1;
        if current.Element? && current.name != "" {
          ghost var start := extractedData;
          var added := ExtractBlocks(companyName, current.blocks);
          instrumentCount := instrumentCount + added;
          if current.name == "h3" && HasCompanySuffix(current.text) {
            break;
          }
          if current.name == "hr" {
            break;
          }
          AddBlocksAppend(start, RecordsOf(companyName), current.blocks, later);
          assert Walk(siblings[elementsChecked - 1..], elementsChecked - 1) == current.blocks + later;
        } else {
          assert Walk(siblings[elementsChecked - 1..], elementsChecked - 1) == later;
        }
      }
      if elementsChecked == |siblings| || elementsChecked >= MaxElements {
        WalkEnd(siblings, elementsChecked);
      }
    }

    /** `extract_company_data` on a parsed document: the company headers in
        document order, each walked with its cleaned text as company name. */
    method ExtractCompanyData(headers: seq<Header>) returns (data: seq<Instrument>)
      modifies this
      ensures extractedData == ExtractAll(old(extractedData), CompanyHeaders(headers))
      ensures data == extractedData
    {
      var companyHeaders := FindCompanyHeaders(headers);
      var k := 0;
      while k < |companyHeaders|
        invariant 0 <= k <= |companyHeaders|
        invariant ExtractAll(extractedData, companyHeaders[k..]) == ExtractAll(old(extractedData), companyHeaders)
      {
        assert companyHeaders[k..][0] == companyHeaders[k] && companyHeaders[k..][1..] == companyHeaders[k + 1..];
        var companyName := CleanText(companyHeaders[k].text);
        var _ := ExtractInstrumentsAfterHeader(companyName, companyHeaders[k].following);
        k := k + 1;
      }
      assert companyHeaders[k..] == [];
      data := extractedData;
    }
  }

  // ---------------------------------------------------------------------
  // `read_html_from_json` (script copy) and the scraper's date check

  /** The JSON file as the script finds it: missing, not JSON, or an object
      whose 'body' member is absent (None) or present. */
  datatype JsonFile = FileMissing | NotJson | JsonObject(body: Option<string>)

  datatype ReadError =
    | FileNotFound
    | InvalidJson
    | Failure(message: string)

  const ReadPrefix: string := "Error reading JSON file: "

  /** `read_html_from_json`: the two `ValueError`s raised inside the `try`
      are caught by its generic handler and re-raised with the prefix. */
  function ReadHtmlFromJson(f: JsonFile): (r: Result<string, ReadError>)
    ensures r.Ok? <==> f.JsonObject? && f.body.Some? && f.body.value != ""
    ensures r.Ok? ==> r.value == f.body.value
    ensures f.JsonObject? && r.Err? ==> r.error.Failure? && StartsWith(r.error.message, ReadPrefix)
  {
    match f
    case FileMissing => Err(FileNotFound)
    case NotJson => Err(InvalidJson)
    case JsonObject(body) =>
      if body.None? then Err(Failure(ReadPrefix + "JSON file does not contain a 'body' field"))
      else if body.value == "" then Err(Failure(ReadPrefix + "Body field is empty"))
      else Ok(body.value)
  }

  /** `InfomericsPressScraper._validate_date_format`. */
  function ValidateScrapeDate(dateStr: string): (r: Result<(), string>)
    ensures r.Ok? <==> ParseIsoDate(dateStr).Ok?
    ensures r.Err? ==> r.error == "Invalid date format: " + dateStr + ". Expected format: YYYY-MM-DD"
  {
    if ParseIsoDate(dateStr).Ok? then Ok(())
    else Err("Invalid date format: " + dateStr + ". Expected format: YYYY-MM-DD")
  }

  /** The response data of one request; the body is the HTML. */
  datatype Page = Page(statusCode: int, body: string)

  /** The press-release scraper with the requests its session has sent. */
  class PressScraper {
    var requests: seq<(string, string)>

    constructor ()
      ensures requests == []
    {
      requests := [];
    }

    /** `scrape_date_range`: both dates are checked before any request; an
        invalid one gives None with no request sent. `fetch` is the HTTP
        outcome, None for a failed request. */
    method ScrapeDateRange(fromDate: string, toDate: string, fetch: (string, string) -> Option<Page>)
      returns (r: Option<Page>)
      modifies this
      ensures ValidateScrapeDate(fromDate).Err? || ValidateScrapeDate(toDate).Err? ==>
        r == None && requests == old(requests)
      ensures ValidateScrapeDate(fromDate).Ok? && ValidateScrapeDate(toDate).Ok? ==>
        r == fetch(fromDate, toDate) && requests == old(requests) + [(fromDate, toDate)]
    {
      if ValidateScrapeDate(fromDate).Err? || ValidateScrapeDate(toDate).Err? {
        return None;
      }
      requests := requests + [(fromDate, toDate)];
      r := fetch(fromDate, toDate);
    }
  }

  /** The script's `extract_company_data`: reading the file comes first and
      its error is raised before any parsing; `parse` is the HTML parser. */
  method ExtractFromJsonFile(e: Extractor, f: JsonFile, parse: string -> seq<Header>)
    returns (r: Result<seq<Instrument>, ReadError>)
    modifies e
    ensures ReadHtmlFromJson(f).Err? ==> r == Err(ReadHtmlFromJson(f).error) && e.extractedData == old(e.extractedData)
    ensures ReadHtmlFromJson(f).Ok? ==>
      r.Ok? && e.extractedData == ExtractAll(old(e.extractedData), CompanyHeaders(parse(ReadHtmlFromJson(f).value)))
      && r.value == e.extractedData
  {
    var html := ReadHtmlFromJson(f);
    if html.Err? {
      return Err(html.error);
    }
    var data := e.ExtractCompanyData(parse(html.value));
    r := Ok(data);
  }
}
