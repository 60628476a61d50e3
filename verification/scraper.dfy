/**
  The pure part of the OpenRouter model scraper (scripts/scrape_models.py): the
  `/provider/model` link filter and splitter, the provider-name normaliser, the
  group-by-provider catalog record and the scraping loop that drops unidentified models.

  Fetching pages, parsing HTML and reading each model's identifier are outside this
  model: a page fetch is a function argument from URL to the `href` attributes of the
  page's anchors (or `None` when the request or the parse raises), and identifying a model
  is a function argument from its link to the identifier text, `"N/A"` included.
 */
module Scraper {
  import opened Wrappers
  import opened Strings
  import opened PyDict

  // ---------------------------------------------------------------------------------------
  // Link filter and splitter (`scrape_model_links`)
  // ---------------------------------------------------------------------------------------

  /**
    `re.compile(r"^/[^/]+/[^/]+$").match(s)`: a slash, a non-empty run of non-slashes, a
    slash, and a non-empty run of non-slashes reaching the end of the text. The pattern's
    `$` also accepts a final line break, but `[^/]` consumes line breaks as well, so that
    changes nothing.
   */
  predicate IsModelPath(s: string) {
    && |s| > 0 && s[0] == '/'
    && match FindChar(s[1..], '/')
       case None => false
       case Some(k) => 0 < k && k + 2 < |s| && '/' !in s[k + 2..]
  }

  /** Every model path is two non-empty slash-free segments, and `split('/')` yields them. */
  lemma ModelPathSplit(s: string)
    requires IsModelPath(s)
    ensures var parts := Split(s, '/');
            && |parts| == 3 && parts[0] == ""
            && parts[1] != "" && parts[2] != ""
            && s == "/" + parts[1] + "/" + parts[2]
  {
    var k := FindChar(s[1..], '/').value;
    var a := s[1..k + 1];
    var b := s[k + 2..];
    assert s[1..][..k] == a;
    assert s == [] + ['/'] + (a + ['/'] + b);
    SplitAtFirst([], a + ['/'] + b, '/');
    SplitAtFirst(a, b, '/');
    SplitNoSep(b, '/');
  }

  /** Conversely, any two non-empty slash-free segments form a model path. */
  lemma ModelPathIntro(a: string, b: string)
    requires a != "" && b != "" && '/' !in a && '/' !in b
    ensures IsModelPath("/" + a + "/" + b)
  {
    var s := "/" + a + "/" + b;
    assert s[1..] == a + ['/'] + b;
    FindCharAfter(a, b, '/');
    assert s[|a| + 2..] == b;
  }

  /** `a.get('href') and pattern.match(a.get('href'))`: a present, non-empty, matching `href`. */
  predicate KeepHref(h: Option<string>) {
    h.Some? && |h.value| > 0 && IsModelPath(h.value)
  }

  /** The `href`s the filter keeps, in page order. */
  function FilterLinks(hrefs: seq<Option<string>>): (links: seq<string>)
    ensures |links| <= |hrefs|
    ensures forall s :: s in links <==> Some(s) in hrefs && IsModelPath(s)
    decreases |hrefs|
  {
    if |hrefs| == 0 then []
    else
      assert hrefs == [hrefs[0]] + hrefs[1..];
      (if KeepHref(hrefs[0]) then [hrefs[0].value] else []) + FilterLinks(hrefs[1..])
  }

  /** The filter works anchor by anchor: filtering a concatenation concatenates the results. */
  lemma {:induction false} FilterLinksAppend(a: seq<Option<string>>, b: seq<Option<string>>)
    ensures FilterLinks(a + b) == FilterLinks(a) + FilterLinks(b)
    decreases |a|
  {
    if |a| == 0 {
      assert a + b == b;
    } else {
      assert (a + b)[0] == a[0];
      assert (a + b)[1..] == a[1..] + b;
      FilterLinksAppend(a[1..], b);
    }
  }

  /** The three lists `scrape_model_links` returns. */
  datatype Scraped = Scraped(firstParts: seq<string>, lastParts: seq<string>, links: seq<string>)

  function Last(parts: seq<string>): string
    requires |parts| > 0
  {
    parts[|parts| - 1]
  }

  lemma LinksSplit(links: seq<string>)
    requires forall i :: 0 <= i < |links| ==> IsModelPath(links[i])
    ensures forall i :: 0 <= i < |links| ==>
      var parts := Split(links[i], '/');
      && |parts| == 3 && parts[0] == "" && parts[1] != "" && parts[2] != ""
      && links[i] == "/" + parts[1] + "/" + parts[2]
  {
    forall i | 0 <= i < |links|
      ensures var parts := Split(links[i], '/');
        && |parts| == 3 && parts[0] == "" && parts[1] != "" && parts[2] != ""
        && links[i] == "/" + parts[1] + "/" + parts[2]
    {
      ModelPathSplit(links[i]);
    }
  }

  /**
    `scrape_model_links` on the anchors of one page: the kept links, and for each the
    segment after the first slash and the segment after the last one.
   */
  function ScrapeModelLinks(hrefs: seq<Option<string>>): (r: Scraped)
    ensures r.links == FilterLinks(hrefs)
    ensures |r.firstParts| == |r.links| && |r.lastParts| == |r.links|
    ensures forall i :: 0 <= i < |r.links| ==>
      && r.links[i] == "/" + r.firstParts[i] + "/" + r.lastParts[i]
      && r.firstParts[i] != "" && '/' !in r.firstParts[i]
      && r.lastParts[i] != "" && '/' !in r.lastParts[i]
  {
    var links := FilterLinks(hrefs);
    assert forall i :: 0 <= i < |links| ==> links[i] in links;
    LinksSplit(links);
    Scraped(
      seq(|links|, i requires 0 <= i < |links| => Split(links[i], '/')[1]),
      seq(|links|, i requires 0 <= i < |links| => Last(Split(links[i], '/'))),
      links)
  }

  // ---------------------------------------------------------------------------------------
  // Provider normalisation (`save_models_to_json`, lines 56-65)
  // ---------------------------------------------------------------------------------------

  /** `provider.lower().replace(' ', '-').replace('ai-studio', 'gemini')`. */
  function ProviderKey(name: string): string {
    Replace(Replace(Lower(name), " ", "-"), "ai-studio", "gemini")
  }

  /** The mapping to the configuration's provider names. */
  const ProviderMapping: map<string, string> :=
    map["openai" := "openai", "groq" := "groq", "google-ai-studio" := "gemini"]

  /** `provider_mapping.get(provider_key, provider_key)`. */
  function NormaliseProvider(name: string): string {
    var key := ProviderKey(name);
    if key in ProviderMapping then ProviderMapping[key] else key
  }

  /**
    The second replacement has already turned every "ai-studio" into "gemini", so no
    provider name produces the mapping's key "google-ai-studio".
   */
  lemma GoogleAiStudioKeyUnreachable(name: string)
    ensures ProviderKey(name) != "google-ai-studio"
  {
    var t := Replace(Lower(name), " ", "-");
    assert 'a' !in "gemini" && 'g' !in "i-studio";
    ReplaceRemovesAll(t, "ai-studio", "gemini");
    assert OccursAt("google-ai-studio", "ai-studio", 7);
  }

  /** The mapping therefore never renames: the normalised name is the key itself. */
  lemma NormaliseIsKey(name: string)
    ensures NormaliseProvider(name) == ProviderKey(name)
  {
    GoogleAiStudioKeyUnreachable(name);
  }

  /** "OpenAI" keeps its letters, lower-cased. */
  lemma OpenAIName()
    ensures NormaliseProvider("OpenAI") == "openai"
  {
    assert Lower("OpenAI") == "openai";
    ReplaceSkips("openai", "", " ", "-");
    assert "openai" + "" == "openai";
    ReplaceShort("openai", "ai-studio", "gemini");
  }

  /** "Groq" keeps its letters, lower-cased. */
  lemma GroqName()
    ensures NormaliseProvider("Groq") == "groq"
  {
  }

  /** "Google AI Studio" becomes "google-gemini", which is not the configuration's "gemini". */
  lemma GoogleAiStudioName()
    ensures NormaliseProvider("Google AI Studio") == "google-gemini"
  {
    LowerGoogle();
    DashesGoogle();
    GeminiGoogle();
  }

  lemma LowerGoogle()
    ensures Lower("Google AI Studio") == "google ai studio"
  {
  }

  lemma DashesGoogle()
    ensures Replace("google ai studio", " ", "-") == "google-ai-studio"
  {
    assert "google ai studio" == "google" + " " + "ai" + " " + "studio";
    DashesBetween("google", "ai", "studio");
    assert "google" + "-" + "ai" + "-" + "studio" == "google-ai-studio";
  }

  /** Three blank-free words separated by single blanks come out separated by dashes. */
  lemma DashesBetween(a: string, b: string, c: string)
    requires ' ' !in a && ' ' !in b && ' ' !in c
    ensures Replace(a + " " + b + " " + c, " ", "-") == a + "-" + b + "-" + c
  {
    var bc := b + " " + c;
    assert a + " " + b + " " + c == a + " " + bc;
    ReplaceAfter(a, bc, " ", "-");
    ReplaceAfter(b, c, " ", "-");
    ReplaceSkips(c, "", " ", "-");
    assert c + "" == c;
  }

  lemma GeminiGoogle()
    ensures Replace("google-ai-studio", "ai-studio", "gemini") == "google-gemini"
  {
    assert "google-ai-studio" == "google-" + ("ai-studio" + "");
    ReplaceSkips("google-", "ai-studio" + "", "ai-studio", "gemini");
    ReplaceHere("", "ai-studio", "gemini");
    assert "google-" + ("gemini" + "") == "google-gemini";
  }

  // ---------------------------------------------------------------------------------------
  // Catalog record (`save_models_to_json`)
  // ---------------------------------------------------------------------------------------

  /** One row of the scraped table: `[provider_name, model_identifier, link]`. */
  datatype Row = Row(provider: string, modelId: string, link: string)

  /** One model in the catalog. */
  datatype CatalogEntry = CatalogEntry(id: string, name: string, provider: string, link: string, available: bool)

  const OpenRouter: string := "https://openrouter.ai"

  /** The bucket a row lands in. */
  function RowKey(r: Row): string {
    NormaliseProvider(r.provider)
  }

  function EntryOf(r: Row): CatalogEntry {
    CatalogEntry(r.modelId, r.modelId, RowKey(r), OpenRouter + r.link, true)
  }

  /** `models_by_provider`, built row by row. */
  function Group(rows: seq<Row>): (d: Dict<string, seq<CatalogEntry>>)
    ensures Valid(d)
    decreases |rows|
  {
    if |rows| == 0 then Empty()
    else
      var d := Group(rows[..|rows| - 1]);
      var r := rows[|rows| - 1];
      var bucket := if RowKey(r) in d.vals then d.vals[RowKey(r)] else [];
      Put(d, RowKey(r), bucket + [EntryOf(r)])
  }

  /** The bucket keys of the rows, in row order, repeats included. */
  function RowKeys(rows: seq<Row>): (keys: seq<string>)
    ensures |keys| == |rows|
    ensures forall i :: 0 <= i < |rows| ==> keys[i] == RowKey(rows[i])
  {
    seq(|rows|, i requires 0 <= i < |rows| => RowKey(rows[i]))
  }

  /** Reference for one bucket: the entries of the rows with bucket key `k`, in row order. */
  function Bucket(rows: seq<Row>, k: string): seq<CatalogEntry>
    decreases |rows|
  {
    if |rows| == 0 then []
    else
      var r := rows[|rows| - 1];
      Bucket(rows[..|rows| - 1], k) + (if RowKey(r) == k then [EntryOf(r)] else [])
  }

  /** A name has a bucket exactly when some row has it as bucket key. */
  lemma {:induction false} GroupMembership(rows: seq<Row>)
    ensures forall k :: k in Group(rows).vals <==> k in RowKeys(rows)
    decreases |rows|
  {
    if |rows| > 0 {
      var front := rows[..|rows| - 1];
      GroupMembership(front);
      assert RowKeys(rows) == RowKeys(front) + [RowKey(rows[|rows| - 1])];
    }
  }

  /** Grouping puts the providers in the order of their first row. */
  lemma {:induction false} GroupKeys(rows: seq<Row>)
    ensures Group(rows).keys == FirstOccurrences(RowKeys(rows))
    decreases |rows|
  {
    if |rows| > 0 {
      var front := rows[..|rows| - 1];
      var k := RowKey(rows[|rows| - 1]);
      var kf := RowKeys(front);
      GroupKeys(front);
      GroupMembership(front);
      assert RowKeys(rows)[..|rows| - 1] == kf;
      assert RowKeys(rows)[|rows| - 1] == k;
    }
  }

  /** Each provider's bucket holds exactly the entries of its rows, in row order. */
  lemma {:induction false} GroupBuckets(rows: seq<Row>)
    ensures forall k :: Bucket(rows, k) == (if k in Group(rows).vals then Group(rows).vals[k] else [])
    decreases |rows|
  {
    if |rows| > 0 {
      var front := rows[..|rows| - 1];
      var r := rows[|rows| - 1];
      var d := Group(front);
      var e := Group(rows);
      GroupBuckets(front);
      forall k ensures Bucket(rows, k) == (if k in e.vals then e.vals[k] else []) {
        assert Bucket(rows, k) == Bucket(front, k) + (if RowKey(r) == k then [EntryOf(r)] else []);
        assert Bucket(front, k) == (if k in d.vals then d.vals[k] else []);
        assert [] + [EntryOf(r)] == [EntryOf(r)];
      }
    }
  }

  /** `sum(len(models) for models in ...)`. */
  function SumLengths(xs: seq<seq<CatalogEntry>>): nat
    decreases |xs|
  {
    if |xs| == 0 then 0 else SumLengths(xs[..|xs| - 1]) + |xs[|xs| - 1]|
  }

  lemma SumLengthsAppend(xs: seq<seq<CatalogEntry>>, x: seq<CatalogEntry>)
    ensures SumLengths(xs + [x]) == SumLengths(xs) + |x|
  {
  }

  lemma {:induction false} SumLengthsUpdate(xs: seq<seq<CatalogEntry>>, j: nat, x: seq<CatalogEntry>)
    requires j < |xs|
    ensures SumLengths(xs[j := x]) + |xs[j]| == SumLengths(xs) + |x|
    decreases |xs|
  {
    var n := |xs| - 1;
    if j < n {
      SumLengthsUpdate(xs[..n], j, x);
      assert xs[j := x][..n] == xs[..n][j := x];
    } else {
      assert xs[j := x][..n] == xs[..n];
    }
  }

  /** Replacing a bucket changes the total by the difference in its length. */
  lemma TotalPutExisting(d: Dict<string, seq<CatalogEntry>>, k: string, x: seq<CatalogEntry>)
    requires Valid(d) && k in d.vals
    ensures SumLengths(Values(Put(d, k, x))) + |d.vals[k]| == SumLengths(Values(d)) + |x|
  {
    var j :| 0 <= j < |d.keys| && d.keys[j] == k;
    ValuesPutExisting(d, j, x);
    SumLengthsUpdate(Values(d), j, x);
  }

  /** A new bucket adds its length to the total. */
  lemma TotalPutNew(d: Dict<string, seq<CatalogEntry>>, k: string, x: seq<CatalogEntry>)
    requires Valid(d) && k !in d.vals
    ensures SumLengths(Values(Put(d, k, x))) == SumLengths(Values(d)) + |x|
  {
    ValuesPutNew(d, k, x);
    SumLengthsAppend(Values(d), x);
  }

  /** Every row is counted once: the catalog's total is the number of rows. */
  lemma {:induction false} GroupTotal(rows: seq<Row>)
    ensures SumLengths(Values(Group(rows))) == |rows|
    decreases |rows|
  {
    if |rows| > 0 {
      var front := rows[..|rows| - 1];
      var r := rows[|rows| - 1];
      var d := Group(front);
      GroupTotal(front);
      var k := RowKey(r);
      var x := (if k in d.vals then d.vals[k] else []) + [EntryOf(r)];
      if k in d.vals {
        TotalPutExisting(d, k, x);
      } else {
        TotalPutNew(d, k, x);
      }
    }
  }

  /** The fixed `recommended` map. */
  const Recommended: map<string, string> := map[
    "cost_effective" := "groq/deepseek-r1-distill-llama-70b",
    "coding" := "groq/mixtral-8x7b-instruct",
    "general" := "groq/llama-3.3-70b-versatile",
    "reliable" := "openai/gpt-4o-mini"]

  /** `output_data`. */
  datatype Catalog = Catalog(
    lastUpdated: string,
    totalModels: nat,
    providers: Dict<string, seq<CatalogEntry>>,
    recommended: map<string, string>)

  /** `save_models_to_json(table_data)` without the file write; `now` is the ISO clock reading. */
  function BuildCatalog(rows: seq<Row>, now: string): (c: Catalog)
    ensures Valid(c.providers)
    ensures c.totalModels == |rows|
    ensures c.lastUpdated == now + "Z"
    ensures c.recommended.Keys == {"cost_effective", "coding", "general", "reliable"}
  {
    var providers := Group(rows);
    GroupTotal(rows);
    Catalog(now + "Z", SumLengths(Values(providers)), providers, Recommended)
  }

  /** The recommendations do not depend on the rows. */
  lemma RecommendedConstant(rows1: seq<Row>, rows2: seq<Row>, now1: string, now2: string)
    ensures BuildCatalog(rows1, now1).recommended == BuildCatalog(rows2, now2).recommended
  {
  }

  /** Every row lands in the bucket of its provider. */
  lemma RowsInBuckets(rows: seq<Row>, now: string)
    ensures var c := BuildCatalog(rows, now);
      forall i :: 0 <= i < |rows| ==>
        (RowKey(rows[i]) in c.providers.vals && EntryOf(rows[i]) in c.providers.vals[RowKey(rows[i])])
  {
    GroupMembership(rows);
    GroupBuckets(rows);
    var d := Group(rows);
    forall i | 0 <= i < |rows|
      ensures RowKey(rows[i]) in d.vals && EntryOf(rows[i]) in d.vals[RowKey(rows[i])]
    {
      assert RowKeys(rows)[i] == RowKey(rows[i]);
      BucketHasRow(rows, i);
    }
  }

  /**
    Every entry of a bucket carries the bucket's key as provider, the same identifier as id
    and name, `available` set, and comes from one of the rows.
   */
  lemma EntriesFromRows(rows: seq<Row>, now: string, k: string, e: CatalogEntry)
    requires var c := BuildCatalog(rows, now); k in c.providers.vals && e in c.providers.vals[k]
    ensures e.provider == k && e.id == e.name && e.available
    ensures exists i :: 0 <= i < |rows| && e == EntryOf(rows[i])
  {
    GroupBuckets(rows);
    assert Bucket(rows, k) == Group(rows).vals[k];
    BucketFromRows(rows, k, e);
  }

  lemma {:induction false} BucketHasRow(rows: seq<Row>, i: nat)
    requires i < |rows|
    ensures EntryOf(rows[i]) in Bucket(rows, RowKey(rows[i]))
    decreases |rows|
  {
    if i < |rows| - 1 {
      BucketHasRow(rows[..|rows| - 1], i);
    }
  }

  lemma {:induction false} BucketFromRows(rows: seq<Row>, k: string, e: CatalogEntry)
    requires e in Bucket(rows, k)
    ensures e.provider == k && e.id == e.name && e.available
    ensures exists i :: 0 <= i < |rows| && e == EntryOf(rows[i])
    decreases |rows|
  {
    var front := rows[..|rows| - 1];
    if e in Bucket(front, k) {
      BucketFromRows(front, k, e);
      var i :| 0 <= i < |front| && e == EntryOf(front[i]);
      assert front[i] == rows[i];
    } else {
      assert e == EntryOf(rows[|rows| - 1]);
    }
  }

  // ---------------------------------------------------------------------------------------
  // The scraping run (`main`)
  // ---------------------------------------------------------------------------------------

  /** `provider_urls`, in its insertion order. */
  const ProviderPages: seq<(string, string)> := [
    ("OpenAI", "https://openrouter.ai/provider/openai"),
    ("Groq", "https://openrouter.ai/provider/groq"),
    ("Google AI Studio", "https://openrouter.ai/provider/google-ai-studio")]

  /** The anchors' `href`s of a page, or `None` when fetching or parsing it raises. */
  type Fetch = string -> Option<seq<Option<string>>>

  /** `extract_model_identifier`: `"N/A"` once every attempt has failed. */
  type Identify = string -> string

  /** `f` applied to each element in turn, the results concatenated. */
  function FlatMap<T, U>(xs: seq<T>, f: T -> seq<U>): seq<U>
    decreases |xs|
  {
    if |xs| == 0 then [] else f(xs[0]) + FlatMap(xs[1..], f)
  }

  lemma {:induction false} FlatMapAppend<T, U>(a: seq<T>, b: seq<T>, f: T -> seq<U>)
    ensures FlatMap(a + b, f) == FlatMap(a, f) + FlatMap(b, f)
    decreases |a|
  {
    if |a| == 0 {
      assert a + b == b;
    } else {
      assert (a + b)[1..] == a[1..] + b;
      FlatMapAppend(a[1..], b, f);
    }
  }

  /** The row one link yields: none when its identifier is `"N/A"`. */
  function LinkRow(name: string, identify: Identify, link: string): seq<Row> {
    if identify(link) != "N/A" then [Row(name, identify(link), link)] else []
  }

  /** The rows one provider page contributes, link by link in link order. */
  function PageRows(name: string, links: seq<string>, identify: Identify): seq<Row> {
    FlatMap(links, l => LinkRow(name, identify, l))
  }

  /**
    A page contributes a row exactly for each of its links whose identifier is not `"N/A"`,
    carrying the page's provider name and that identifier; never more rows than links.
   */
  lemma {:induction false} PageRowsMembers(name: string, links: seq<string>, identify: Identify)
    ensures |PageRows(name, links, identify)| <= |links|
    ensures forall r :: r in PageRows(name, links, identify) <==>
      r.provider == name && r.link in links && r.modelId == identify(r.link) && r.modelId != "N/A"
    decreases |links|
  {
    if |links| > 0 {
      var rest := links[1..];
      PageRowsMembers(name, rest, identify);
      assert links == [links[0]] + rest;
    }
  }

  /**
    The rows of a page are produced link by link, in link order: the rows of a concatenation
    are the concatenated rows, so a link listed twice contributes two rows.
   */
  lemma PageRowsAppend(name: string, a: seq<string>, b: seq<string>, identify: Identify)
    ensures PageRows(name, a + b, identify) == PageRows(name, a, identify) + PageRows(name, b, identify)
  {
    FlatMapAppend(a, b, l => LinkRow(name, identify, l));
  }

  /** A link listed twice on a page yields its row twice. */
  lemma DuplicateLinkTwice(name: string, l: string, identify: Identify)
    ensures identify(l) != "N/A" ==>
      PageRows(name, [l, l], identify) == [Row(name, identify(l), l), Row(name, identify(l), l)]
  {
    PageRowsAppend(name, [l], [l], identify);
    assert [l] + [l] == [l, l];
  }

  /** The rows one `(provider_name, url)` pair contributes; none when the fetch raises. */
  function PageData(page: (string, string), fetch: Fetch, identify: Identify): seq<Row> {
    match fetch(page.1)
    case None => []
    case Some(hrefs) => PageRows(page.0, ScrapeModelLinks(hrefs).links, identify)
  }

  /** `table_data` after the loop over `pages`. */
  function TableData(pages: seq<(string, string)>, fetch: Fetch, identify: Identify): seq<Row> {
    FlatMap(pages, p => PageData(p, fetch, identify))
  }

  /**
    Every row is sound: its identifier is not `"N/A"` and is the one read from its link, the
    link matches the pattern, and its provider name is that of a page whose fetch succeeded.
   */
  lemma {:induction false} TableDataSound(pages: seq<(string, string)>, fetch: Fetch, identify: Identify)
    ensures forall r :: r in TableData(pages, fetch, identify) ==>
      && r.modelId != "N/A" && r.modelId == identify(r.link) && IsModelPath(r.link)
      && exists p :: p in pages && p.0 == r.provider && fetch(p.1).Some?
    decreases |pages|
  {
    if |pages| > 0 {
      var first := pages[0];
      var rest := pages[1..];
      TableDataSound(rest, fetch, identify);
      assert first in pages;
      assert forall p :: p in rest ==> p in pages;
      if fetch(first.1).Some? {
        var links := ScrapeModelLinks(fetch(first.1).value).links;
        PageRowsMembers(first.0, links, identify);
      }
    }
  }

  /** The loop works page by page: the rows of a concatenation of pages are the concatenated rows. */
  lemma TableDataAppend(a: seq<(string, string)>, b: seq<(string, string)>, fetch: Fetch, identify: Identify)
    ensures TableData(a + b, fetch, identify) == TableData(a, fetch, identify) + TableData(b, fetch, identify)
  {
    FlatMapAppend(a, b, p => PageData(p, fetch, identify));
  }

  /** When every fetch raises, the loop collects nothing. */
  lemma {:induction false} TableDataNoFetch(pages: seq<(string, string)>, fetch: Fetch, identify: Identify)
    ensures (forall url :: fetch(url).None?) ==> TableData(pages, fetch, identify) == []
    decreases |pages|
  {
    if |pages| > 0 {
      TableDataNoFetch(pages[1..], fetch, identify);
    }
  }

  /**
    Nothing found is lost: every kept link of a page whose fetch succeeded, with an identifier
    other than `"N/A"`, yields a row carrying the page's provider name.
   */
  lemma {:induction false} TableDataComplete(pages: seq<(string, string)>, fetch: Fetch, identify: Identify,
                                             p: (string, string), l: string)
    ensures p in pages && fetch(p.1).Some? && l in ScrapeModelLinks(fetch(p.1).value).links && identify(l) != "N/A"
            ==> Row(p.0, identify(l), l) in TableData(pages, fetch, identify)
    decreases |pages|
  {
    if p in pages && fetch(p.1).Some? && l in ScrapeModelLinks(fetch(p.1).value).links && identify(l) != "N/A" {
      var rest := pages[1..];
      if p == pages[0] {
        PageRowsMembers(p.0, ScrapeModelLinks(fetch(p.1).value).links, identify);
      } else {
        assert pages == [pages[0]] + rest;
        TableDataComplete(rest, fetch, identify, p, l);
      }
    }
  }

  /** What `main` reports, and the catalog it saves when it has rows. */
  datatype RunResult = RunResult(success: bool, catalog: Option<Catalog>)

  /** `main`: scrape every provider page, then save a catalog only if some model was found. */
  function Main(fetch: Fetch, identify: Identify, now: string): (r: RunResult)
    ensures r.success <==> |TableData(ProviderPages, fetch, identify)| > 0
    ensures r.catalog.Some? <==> r.success
    ensures r.catalog.Some? ==> r.catalog.value.totalModels == |TableData(ProviderPages, fetch, identify)|
  {
    var rows := TableData(ProviderPages, fetch, identify);
    if |rows| > 0 then RunResult(true, Some(BuildCatalog(rows, now)))
    else RunResult(false, None)
  }

  /** A single model found on any provider page makes the run succeed and save a catalog. */
  lemma MainFindsRow(fetch: Fetch, identify: Identify, now: string, p: (string, string), l: string)
    ensures (p in ProviderPages && fetch(p.1).Some? && l in ScrapeModelLinks(fetch(p.1).value).links
             && identify(l) != "N/A") ==> Main(fetch, identify, now).success && Main(fetch, identify, now).catalog.Some?
  {
    TableDataComplete(ProviderPages, fetch, identify, p, l);
  }

  /** A run in which every page fetch fails finds nothing and saves nothing. */
  lemma NothingFetched(fetch: Fetch, identify: Identify, now: string)
    requires forall url :: fetch(url).None?
    ensures Main(fetch, identify, now) == RunResult(false, None)
  {
    TableDataNoFetch(ProviderPages, fetch, identify);
  }
}
