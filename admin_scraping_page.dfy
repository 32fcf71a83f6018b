/**
 * The admin scraping page (`AdminScraping.tsx`): the `key=value` selector text parser,
 * the body the create form posts, and the source list after an enable/disable toggle.
 */
module AdminScrapingPage {
  import opened Wrappers
  import opened Text
  import opened Queries
  import opened Json
  import opened Records

  // ---- parseSelectors ----

  /** A selector as a line of the box: `key=value`. */
  function SelectorLine(p: (string, string)): string {
    p.0 + "=" + p.1
  }

  function SelectorLines(pairs: seq<(string, string)>): (r: seq<string>)
    ensures |r| == |pairs| && forall i :: 0 <= i < |r| ==> r[i] == SelectorLine(pairs[i])
  {
    seq(|pairs|, i requires 0 <= i < |pairs| => SelectorLine(pairs[i]))
  }

  /** Selectors written one per line. */
  function SelectorText(pairs: seq<(string, string)>): string {
    Join(SelectorLines(pairs), '\n')
  }

  /** The text the selector box starts with, one line per selector. */
  const DefaultSelectorsText: string :=
    Join(["item=.job-card", "title=.job-title", "location=.job-location", "company=.company-name", "link=a.apply-link"], '\n')

  /** The selectors that text writes down. */
  const DefaultSelectorPairs: seq<(string, string)> := [
    ("item", ".job-card"), ("title", ".job-title"), ("location", ".job-location"),
    ("company", ".company-name"), ("link", "a.apply-link")]

  function TrimAll(lines: seq<string>): (r: seq<string>)
    ensures |r| == |lines| && forall k :: 0 <= k < |r| ==> r[k] == Trim(lines[k])
  {
    seq(|lines|, k requires 0 <= k < |lines| => Trim(lines[k]))
  }

  function NonEmpty(): string -> bool {
    (s: string) => s != ""
  }

  /** `text.split("\n").map(l => l.trim()).filter(Boolean)`. */
  function Lines(text: string): seq<string> {
    Filter(TrimAll(Split(text, '\n')), NonEmpty())
  }

  /** `line[i]` is the first "=" of the line. */
  predicate FirstEqualsAt(line: string, i: int) {
    0 <= i < |line| && line[i] == '=' && '=' !in line[..i]
  }

  /** The entry when the line is split at position `i`: both sides trimmed, both non-empty. */
  function EntryAt(line: string, i: int): (r: Option<(string, string)>)
    requires 0 <= i < |line|
    ensures r.Some? <==> Trim(line[..i]) != "" && Trim(line[i + 1..]) != ""
    ensures r.Some? ==> r.value == (Trim(line[..i]), Trim(line[i + 1..]))
  {
    var key := Trim(line[..i]);
    var val := Trim(line[i + 1..]);
    if key != "" && val != "" then Some((key, val)) else None
  }

  /** The entry one line contributes: split at the first "=", both sides trimmed, both non-empty. */
  function LineEntry(line: string): (r: Option<(string, string)>)
    ensures r.Some? ==> r.value.0 != "" && r.value.1 != "" && IsTrimmed(r.value.0) && IsTrimmed(r.value.1)
    ensures r.Some? ==> '=' !in r.value.0
    ensures '=' !in line ==> r.None?
    ensures r.Some? ==> exists i :: FirstEqualsAt(line, i) && r == EntryAt(line, i)
    ensures forall i :: FirstEqualsAt(line, i) ==> r == EntryAt(line, i)
  {
    var idx := IndexOf(line, '=');
    FirstOccurrenceUnique(line, '=', idx);
    if idx == -1 then None
    else
      TrimChars(line[..idx]);
      assert FirstEqualsAt(line, idx);
      EntryAt(line, idx)
  }

  /** An entry a line yields: a key and its value. */
  type Entry = Option<(string, string)>

  /**
   * `result[key] = val` on a plain object: the key "__proto__" hits the prototype setter,
   * which ignores a string, so that entry is never stored.
   */
  predicate Stores(e: Entry) {
    e.Some? && e.value.0 != "__proto__"
  }

  function Store(m: map<string, string>, e: Entry): map<string, string> {
    if Stores(e) then m[e.value.0 := e.value.1] else m
  }

  /** The entries of the lines, in order. */
  function EntriesOf(lines: seq<string>): (r: seq<Entry>)
    ensures |r| == |lines| && forall k :: 0 <= k < |r| ==> r[k] == LineEntry(lines[k])
  {
    seq(|lines|, k requires 0 <= k < |lines| => LineEntry(lines[k]))
  }

  /** The object the loop builds, storing one entry after another. */
  function CollectEntries(es: seq<Entry>): map<string, string>
    decreases |es|
  {
    if es == [] then map[] else Store(CollectEntries(es[..|es| - 1]), es[|es| - 1])
  }

  /** The object `parseSelectors` builds from the lines. */
  function Collect(lines: seq<string>): map<string, string> {
    CollectEntries(EntriesOf(lines))
  }

  /** `parseSelectors()`. */
  method ParseSelectors(selectorsText: string) returns (result: map<string, string>)
    ensures result == Collect(Lines(selectorsText))
  {
    result := CollectLines(Lines(selectorsText));
  }

  /** The loop of `parseSelectors` over the trimmed, non-empty lines. */
  method CollectLines(lines: seq<string>) returns (result: map<string, string>)
    ensures result == Collect(lines)
  {
    result := map[];
    var i := 0;
    while i < |lines|
      invariant 0 <= i <= |lines|
      invariant result == Collect(lines[..i])
    {
      var entry := LineEntry(lines[i]);
      CollectStep(lines, i);
      if Stores(entry) {
        result := result[entry.value.0 := entry.value.1];
      }
      i := i + 1;
    }
    assert lines[..i] == lines;
  }

  /** Collecting one more line stores that line's entry over what the earlier lines built. */
  lemma CollectStep(lines: seq<string>, i: nat)
    requires i < |lines|
    ensures Collect(lines[..i + 1]) == Store(Collect(lines[..i]), LineEntry(lines[i]))
  {
    var es := EntriesOf(lines[..i + 1]);
    assert es[..i] == EntriesOf(lines[..i]);
  }

  /** The entry `e` stores key `k`. */
  predicate Keyed(e: Entry, k: string) {
    Stores(e) && e.value.0 == k
  }

  /** A key is in the object exactly when some entry stores it. */
  lemma {:induction false} CollectKeys(es: seq<Entry>, k: string)
    ensures k in CollectEntries(es) <==> exists i :: 0 <= i < |es| && Keyed(es[i], k)
    decreases |es|
  {
    if es != [] {
      var n := |es| - 1;
      var init := es[..n];
      CollectKeys(init, k);
      if k in CollectEntries(es) && !Keyed(es[n], k) {
        var i :| 0 <= i < |init| && Keyed(init[i], k);
        assert es[i] == init[i];
      }
      if i :| 0 <= i < n && Keyed(es[i], k) {
        assert init[i] == es[i];
      }
    }
  }

  /** For a repeated key the last entry wins. */
  lemma {:induction false} LastEntryWins(es: seq<Entry>, k: string, i: nat)
    requires i < |es| && Keyed(es[i], k)
    requires forall j :: i < j < |es| ==> !Keyed(es[j], k)
    ensures k in CollectEntries(es) && CollectEntries(es)[k] == es[i].value.1
    decreases |es|
  {
    var init := es[..|es| - 1];
    if i < |es| - 1 {
      assert forall j :: i < j < |init| ==> init[j] == es[j];
      LastEntryWins(init, k, i);
    }
  }

  /** What `LineEntry` guarantees of an entry: non-empty trimmed key without "=", non-empty trimmed value. */
  predicate WellFormed(e: Entry) {
    e.Some? ==> e.value.0 != "" && IsTrimmed(e.value.0) && '=' !in e.value.0 && e.value.1 != "" && IsTrimmed(e.value.1)
  }

  predicate AllWellFormed(m: map<string, string>) {
    forall k :: k in m ==> WellFormed(Some((k, m[k])))
  }

  lemma {:induction false} CollectedWellFormed(es: seq<Entry>)
    requires forall i :: 0 <= i < |es| ==> WellFormed(es[i])
    ensures AllWellFormed(CollectEntries(es))
    decreases |es|
  {
    if es != [] {
      var init := es[..|es| - 1];
      var e := es[|es| - 1];
      assert forall i :: 0 <= i < |init| ==> init[i] == es[i];
      CollectedWellFormed(init);
      var m0 := CollectEntries(init);
      var m := Store(m0, e);
      forall k | k in m
        ensures WellFormed(Some((k, m[k])))
      {
        if !(Stores(e) && k == e.value.0) {
          assert k in m0 && m[k] == m0[k];
          assert WellFormed(Some((k, m0[k])));
        }
      }
    }
  }

  /** Every stored key and value is non-empty and trimmed, and no key holds "=". */
  lemma CollectedTrimmed(lines: seq<string>)
    ensures var m := Collect(lines);
            forall k :: k in m ==> k != "" && IsTrimmed(k) && '=' !in k && m[k] != "" && IsTrimmed(m[k])
  {
    var es := EntriesOf(lines);
    assert forall i :: 0 <= i < |es| ==> WellFormed(es[i]);
    CollectedWellFormed(es);
    var m := CollectEntries(es);
    forall k | k in m
      ensures k != "" && IsTrimmed(k) && '=' !in k && m[k] != "" && IsTrimmed(m[k])
    {
      assert WellFormed(Some((k, m[k])));
    }
  }

  /** The first "=" separates key and value: a value may itself contain "=". */
  lemma EntryAtFirstEquals(key: string, val: string)
    requires key != "" && val != "" && IsTrimmed(key) && IsTrimmed(val) && '=' !in key
    ensures LineEntry(key + "=" + val) == Some((key, val))
  {
    var line := key + "=" + val;
    IndexOfAfter(key, '=', val);
    assert line[..|key|] == key && line[|key| + 1..] == val;
    TrimOfTrimmed(key);
    TrimOfTrimmed(val);
  }

  /** A position holding `c` with no `c` before it is the one `IndexOf` finds. */
  lemma FirstOccurrenceUnique(s: string, c: char, idx: int)
    requires idx == IndexOf(s, c)
    ensures forall i :: 0 <= i < |s| && s[i] == c && c !in s[..i] ==> i == idx
  {
  }

  /** The separator's first occurrence in `a + [c] + b` is right after `a` when `a` lacks it. */
  lemma IndexOfAfter(a: string, c: char, b: string)
    requires c !in a
    ensures IndexOf(a + [c] + b, c) == |a|
  {
    var s := a + [c] + b;
    assert s[|a|] == c;
    assert s[..|a|] == a;
  }

  /** One field, the separator, then the rest: the field comes off first. */
  lemma SplitCons(a: string, c: char, rest: string)
    requires c !in a
    ensures Split(a + [c] + rest, c) == [a] + Split(rest, c)
  {
    var s := a + [c] + rest;
    IndexOfAfter(a, c, rest);
    assert s[..|a|] == a && s[|a| + 1..] == rest;
  }

  /** Splitting what `Join` glued recovers the parts, when no part holds the separator. */
  lemma {:induction false} SplitJoin(parts: seq<string>, c: char)
    requires |parts| >= 1 && forall i :: 0 <= i < |parts| ==> c !in parts[i]
    ensures Split(Join(parts, c), c) == parts
    decreases |parts|
  {
    if |parts| > 1 {
      SplitJoin(parts[1..], c);
      SplitCons(parts[0], c, Join(parts[1..], c));
      assert parts == [parts[0]] + parts[1..];
    }
  }

  /** A selector the box can hold as one line and give back unchanged. */
  predicate Writable(p: (string, string)) {
    && p.0 != "" && p.1 != "" && IsTrimmed(p.0) && IsTrimmed(p.1)
    && '=' !in p.0 && '\n' !in p.0 && '\n' !in p.1 && p.0 != "__proto__"
  }

  predicate DistinctKeys(pairs: seq<(string, string)>) {
    forall i, j :: 0 <= i < j < |pairs| ==> pairs[i].0 != pairs[j].0
  }

  lemma LineOfSelector(p: (string, string))
    requires Writable(p)
    ensures SelectorLine(p) != "" && IsTrimmed(SelectorLine(p)) && '\n' !in SelectorLine(p)
    ensures LineEntry(SelectorLine(p)) == Some(p)
  {
    var l := SelectorLine(p);
    assert l != "" && IsTrimmed(l) && '\n' !in l by {
      assert l[0] == p.0[0] && l[|l| - 1] == p.1[|p.1| - 1];
    }
    EntryAtFirstEquals(p.0, p.1);
  }

  /** The lines of written selectors are the selector lines themselves. */
  lemma SelectorTextLines(pairs: seq<(string, string)>)
    requires |pairs| >= 1 && forall i :: 0 <= i < |pairs| ==> Writable(pairs[i])
    ensures Lines(SelectorText(pairs)) == SelectorLines(pairs)
  {
    var ls := SelectorLines(pairs);
    SelectorLinesClean(pairs);
    assert Split(SelectorText(pairs), '\n') == ls by {
      SplitJoin(ls, '\n');
    }
    assert TrimAll(ls) == ls;
    FilterAllKept(ls, NonEmpty());
  }

  lemma SelectorLinesClean(pairs: seq<(string, string)>)
    requires forall i :: 0 <= i < |pairs| ==> Writable(pairs[i])
    ensures var ls := SelectorLines(pairs);
            forall i :: 0 <= i < |ls| ==> '\n' !in ls[i] && ls[i] != "" && Trim(ls[i]) == ls[i]
  {
    var ls := SelectorLines(pairs);
    forall i | 0 <= i < |ls|
      ensures '\n' !in ls[i] && ls[i] != "" && Trim(ls[i]) == ls[i]
    {
      LineOfSelector(pairs[i]);
      TrimOfTrimmed(ls[i]);
    }
  }

  /** Writing selectors one per line and parsing the text gives each key its value, and no other key. */
  lemma SelectorRoundTrip(pairs: seq<(string, string)>)
    requires |pairs| >= 1 && (forall i :: 0 <= i < |pairs| ==> Writable(pairs[i])) && DistinctKeys(pairs)
    ensures var m := Collect(Lines(SelectorText(pairs)));
            && (forall i :: 0 <= i < |pairs| ==> pairs[i].0 in m && m[pairs[i].0] == pairs[i].1)
            && (forall k :: k in m ==> exists i :: 0 <= i < |pairs| && pairs[i].0 == k)
  {
    SelectorTextLines(pairs);
    var es := EntriesOf(SelectorLines(pairs));
    forall i | 0 <= i < |es|
      ensures es[i] == Some(pairs[i])
    {
      LineOfSelector(pairs[i]);
    }
    var m := CollectEntries(es);
    forall i | 0 <= i < |pairs|
      ensures pairs[i].0 in m && m[pairs[i].0] == pairs[i].1
    {
      LastEntryWins(es, pairs[i].0, i);
    }
    forall k | k in m
      ensures exists i :: 0 <= i < |pairs| && pairs[i].0 == k
    {
      CollectKeys(es, k);
      var i :| 0 <= i < |es| && Keyed(es[i], k);
      assert pairs[i].0 == k;
    }
  }

  // ---- the default selector text ----

  lemma DefaultLines()
    ensures SelectorLines(DefaultSelectorPairs)
         == ["item=.job-card", "title=.job-title", "location=.job-location", "company=.company-name", "link=a.apply-link"]
  {
    DefaultItemLine();
    DefaultTitleLine();
    DefaultLocationLine();
    DefaultCompanyLine();
    DefaultLinkLine();
  }

  lemma DefaultItemLine() ensures SelectorLine(DefaultSelectorPairs[0]) == "item=.job-card" {}
  lemma DefaultTitleLine() ensures SelectorLine(DefaultSelectorPairs[1]) == "title=.job-title" {}
  lemma DefaultLocationLine() ensures SelectorLine(DefaultSelectorPairs[2]) == "location=.job-location" {}
  lemma DefaultCompanyLine() ensures SelectorLine(DefaultSelectorPairs[3]) == "company=.company-name" {}
  lemma DefaultLinkLine() ensures SelectorLine(DefaultSelectorPairs[4]) == "link=a.apply-link" {}

  /** The default text is the default selectors written one per line. */
  lemma DefaultTextIsWritten()
    ensures DefaultSelectorsText == SelectorText(DefaultSelectorPairs)
  {
    DefaultLines();
  }

  lemma DefaultItemWritable() ensures Writable(DefaultSelectorPairs[0]) {}
  lemma DefaultTitleWritable() ensures Writable(DefaultSelectorPairs[1]) {}
  lemma DefaultLocationWritable() ensures Writable(DefaultSelectorPairs[2]) {}
  lemma DefaultCompanyWritable() ensures Writable(DefaultSelectorPairs[3]) {}
  lemma DefaultLinkWritable() ensures Writable(DefaultSelectorPairs[4]) {}

  lemma DefaultPairsWritable()
    ensures forall i :: 0 <= i < |DefaultSelectorPairs| ==> Writable(DefaultSelectorPairs[i])
    ensures DistinctKeys(DefaultSelectorPairs)
  {
    DefaultItemWritable();
    DefaultTitleWritable();
    DefaultLocationWritable();
    DefaultCompanyWritable();
    DefaultLinkWritable();
    forall i | 0 <= i < |DefaultSelectorPairs|
      ensures Writable(DefaultSelectorPairs[i])
    {
      assert i == 0 || i == 1 || i == 2 || i == 3 || i == 4;
    }
  }

  /** A map holding exactly five distinct given keys with their values is the five-entry map display. */
  lemma MapOfFive(m: map<string, string>, d: seq<(string, string)>)
    requires |d| == 5 && DistinctKeys(d)
    requires forall i :: 0 <= i < |d| ==> d[i].0 in m && m[d[i].0] == d[i].1
    requires forall k :: k in m ==> exists i :: 0 <= i < |d| && d[i].0 == k
    ensures m == map[d[0].0 := d[0].1, d[1].0 := d[1].1, d[2].0 := d[2].1, d[3].0 := d[3].1, d[4].0 := d[4].1]
  {
    var want := map[d[0].0 := d[0].1, d[1].0 := d[1].1, d[2].0 := d[2].1, d[3].0 := d[3].1, d[4].0 := d[4].1];
    forall k | k in m
      ensures k in want && m[k] == want[k]
    {
      var i :| 0 <= i < |d| && d[i].0 == k;
    }
  }

  /** The default text parses to exactly the keys item, title, location, company and link. */
  lemma DefaultSelectors()
    ensures Collect(Lines(DefaultSelectorsText)) == map[
      "item" := ".job-card", "title" := ".job-title", "location" := ".job-location",
      "company" := ".company-name", "link" := "a.apply-link"]
  {
    var d := DefaultSelectorPairs;
    DefaultTextIsWritten();
    DefaultPairsWritable();
    SelectorRoundTrip(d);
    MapOfFive(Collect(Lines(SelectorText(d))), d);
  }

  // ---- handleCreateSource ----

  /** The create form's fields. */
  datatype CreateForm = CreateForm(
    name: string,
    baseUrl: string,
    listPath: string,
    providerType: ProviderType,
    enabled: bool,
    frequencyMinutes: Option<int>,
    selectorsText: string,
    apiEndpoint: string,
    apiKeyEnvVar: string)

  datatype ApiConfigPayload = ApiConfigPayload(endpoint: Option<string>, apiKeyEnvVar: Option<string>, extraParams: Option<Json>)

  /** The body posted to the create endpoint; absent fields are left out of the JSON. */
  datatype CreatePayload = CreatePayload(
    name: string,
    baseUrl: string,
    providerType: ProviderType,
    enabled: bool,
    frequencyMinutes: Option<int>,
    listPath: Option<string>,
    selectors: Option<map<string, string>>,
    apiConfig: Option<ApiConfigPayload>)

  /**
   * The payload of `handleCreateSource`: the trimmed list path only when it is not blank,
   * the parsed selectors for an HTML source, the API settings ("" left out) for an API
   * source. `extraParams` is what the JSON box parsed to.
   */
  function CreatePayloadOf(form: CreateForm, extraParams: Option<Json>): (p: CreatePayload)
    ensures p.name == form.name && p.baseUrl == form.baseUrl && p.providerType == form.providerType
    ensures p.enabled == form.enabled && p.frequencyMinutes == form.frequencyMinutes
    ensures p.listPath.Some? <==> Trim(form.listPath) != ""
    ensures p.listPath.Some? ==> p.listPath.value == Trim(form.listPath) && IsTrimmed(p.listPath.value)
    ensures p.selectors.Some? <==> form.providerType == Html
    ensures p.selectors.Some? ==> p.selectors.value == Collect(Lines(form.selectorsText))
    ensures p.apiConfig.Some? <==> form.providerType == Api
    ensures p.apiConfig.Some? ==>
      && (p.apiConfig.value.endpoint.Some? <==> form.apiEndpoint != "")
      && (p.apiConfig.value.endpoint.Some? ==> p.apiConfig.value.endpoint.value == form.apiEndpoint)
      && (p.apiConfig.value.apiKeyEnvVar.Some? <==> form.apiKeyEnvVar != "")
      && (p.apiConfig.value.apiKeyEnvVar.Some? ==> p.apiConfig.value.apiKeyEnvVar.value == form.apiKeyEnvVar)
      && p.apiConfig.value.extraParams == extraParams
  {
    var trimmed := Trim(form.listPath);
    CreatePayload(
      form.name, form.baseUrl, form.providerType, form.enabled, form.frequencyMinutes,
      if trimmed != "" then Some(trimmed) else None,
      if form.providerType == Html then Some(Collect(Lines(form.selectorsText))) else None,
      if form.providerType == Api then Some(ApiConfigPayload(Truthy(Some(form.apiEndpoint)), Truthy(Some(form.apiKeyEnvVar)), extraParams))
      else None)
  }

  // ---- handleToggleEnabled ----

  /** `prev.map(s => s._id === source._id ? { ...s, enabled: !source.enabled } : s)`. */
  function Toggled(prev: seq<ScrapeSource>, source: ScrapeSource): (r: seq<ScrapeSource>)
    ensures |r| == |prev|
    ensures forall k :: 0 <= k < |r| && prev[k].id != source.id ==> r[k] == prev[k]
    ensures forall k :: 0 <= k < |r| && prev[k].id == source.id ==> r[k] == prev[k].(enabled := !source.enabled)
  {
    seq(|prev|, k requires 0 <= k < |prev| => if prev[k].id == source.id then prev[k].(enabled := !source.enabled) else prev[k])
  }

  /** The list after `handleToggleEnabled(source)`: updated only when the PUT succeeded. */
  function AfterToggle(prev: seq<ScrapeSource>, source: ScrapeSource, putSucceeded: bool): seq<ScrapeSource> {
    if putSucceeded then Toggled(prev, source) else prev
  }

  /** Toggling a source and then toggling the updated source restores the list. */
  lemma ToggleTwice(prev: seq<ScrapeSource>, source: ScrapeSource)
    requires forall k :: 0 <= k < |prev| && prev[k].id == source.id ==> prev[k].enabled == source.enabled
    ensures Toggled(Toggled(prev, source), source.(enabled := !source.enabled)) == prev
  {
    var once := Toggled(prev, source);
    var twice := Toggled(once, source.(enabled := !source.enabled));
    assert forall k :: 0 <= k < |prev| ==> twice[k] == prev[k];
  }

  /** A failed PUT leaves the list alone; a successful one keeps every source, changing only the clicked one's flag. */
  lemma ToggleScoped(prev: seq<ScrapeSource>, source: ScrapeSource, putSucceeded: bool)
    ensures !putSucceeded ==> AfterToggle(prev, source, putSucceeded) == prev
    ensures var r := AfterToggle(prev, source, putSucceeded);
            && |r| == |prev|
            && forall k :: 0 <= k < |r| ==> r[k].id == prev[k].id && r[k].(enabled := prev[k].enabled) == prev[k]
  {
  }
}
