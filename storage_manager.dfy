/** The extension's storage manager: the saved summaries (newest first, at most ten) and the
    settings record, both kept in `chrome.storage.local`, which is the one field of the class.
    Storage errors are swallowed by the source, so every operation here is total. */
module Storage {
  import opened Options
  import opened Text

  datatype Summary = Summary(
    id: string,
    url: string,
    title: string,
    points: seq<string>,
    timestamp: int,
    wordCount: nat)

  datatype SummaryFormat = Bullets | Paragraph

  datatype ExtensionSettings = ExtensionSettings(
    enabled: bool,
    autoDetect: bool,
    disabledSites: seq<string>,
    summaryFormat: SummaryFormat)

  /** A `Partial<ExtensionSettings>`: an absent field is `None`. */
  datatype PartialSettings = PartialSettings(
    enabled: Option<bool>,
    autoDetect: Option<bool>,
    disabledSites: Option<seq<string>>,
    summaryFormat: Option<SummaryFormat>)

  /** What a storage key holds. */
  datatype StoredValue = SummaryList(list: seq<Summary>) | SettingsObject(fields: PartialSettings)

  const MaxSummaries: nat := 10
  const SummariesKey: string := "clarityai_summaries"
  const SettingsKey: string := "clarityai_settings"

  function DefaultSettings(): ExtensionSettings
  {
    ExtensionSettings(true, true, [], Bullets)
  }

  const NoFields: PartialSettings := PartialSettings(None, None, None, None)

  /** A whole settings record, as an object with every field present. */
  function AllFields(s: ExtensionSettings): PartialSettings
  {
    PartialSettings(Some(s.enabled), Some(s.autoDetect), Some(s.disabledSites), Some(s.summaryFormat))
  }

  /** `{ ...base, ...p }`: a field present in `p` wins, every other field is `base`'s. */
  function Merge(base: ExtensionSettings, p: PartialSettings): ExtensionSettings
  {
    ExtensionSettings(
      p.enabled.GetOr(base.enabled),
      p.autoDetect.GetOr(base.autoDetect),
      p.disabledSites.GetOr(base.disabledSites),
      p.summaryFormat.GetOr(base.summaryFormat))
  }

  /** `{ ...p, ...q }` on two partial objects. */
  function Overlay(p: PartialSettings, q: PartialSettings): PartialSettings
  {
    PartialSettings(
      if q.enabled.Some? then q.enabled else p.enabled,
      if q.autoDetect.Some? then q.autoDetect else p.autoDetect,
      if q.disabledSites.Some? then q.disabledSites else p.disabledSites,
      if q.summaryFormat.Some? then q.summaryFormat else p.summaryFormat)
  }

  /** Spreading a whole record replaces everything; spreading an empty one changes nothing;
      spreading twice is spreading the overlay once; and each field is taken from the update
      exactly when the update gives it. */
  lemma {:induction false} MergeLaws(base: ExtensionSettings, s: ExtensionSettings, p: PartialSettings, q: PartialSettings)
    ensures Merge(base, AllFields(s)) == s
    ensures Merge(base, NoFields) == base
    ensures Merge(Merge(base, p), q) == Merge(base, Overlay(p, q))
    ensures p.enabled.None? ==> Merge(base, p).enabled == base.enabled
    ensures p.autoDetect.None? ==> Merge(base, p).autoDetect == base.autoDetect
    ensures p.disabledSites.None? ==> Merge(base, p).disabledSites == base.disabledSites
    ensures p.summaryFormat.None? ==> Merge(base, p).summaryFormat == base.summaryFormat
  {
  }

  // ---------------------------------------------------------------------------------------
  // list operations

  /** `summaries.unshift(summary)` followed by `slice(0, MAX_SUMMARIES)`. */
  function Prepended(summary: Summary, summaries: seq<Summary>): (r: seq<Summary>)
    ensures |r| == if |summaries| + 1 < MaxSummaries then |summaries| + 1 else MaxSummaries
    ensures r[0] == summary && r[1..] <= summaries
  {
    var all := [summary] + summaries;
    all[..if |all| < MaxSummaries then |all| else MaxSummaries]
  }

  /** The list without the summaries carrying `id`. */
  function WithoutId(summaries: seq<Summary>, id: string): (r: seq<Summary>)
  {
    Filter(summaries, (s: Summary) => s.id != id)
  }

  /** Deleting removes exactly the summaries with that id and keeps the order of the rest; a
      missing id leaves the list as it was. */
  lemma {:induction false} WithoutIdSpec(summaries: seq<Summary>, id: string)
    ensures forall s :: s in WithoutId(summaries, id) <==> s in summaries && s.id != id
    ensures IsSubsequence(WithoutId(summaries, id), summaries)
    ensures (forall k :: 0 <= k < |summaries| ==> summaries[k].id != id) ==>
              WithoutId(summaries, id) == summaries
  {
    FilterKeepsOrder(summaries, (s: Summary) => s.id != id);
    if forall k :: 0 <= k < |summaries| ==> summaries[k].id != id {
      FilterKeepsAll(summaries, (s: Summary) => s.id != id);
    }
  }

  /** `disabledSites.filter((site) => site !== host)`. */
  function WithoutHost(sites: seq<string>, host: string): (r: seq<string>)
    ensures host !in r
    ensures forall x :: x != host ==> (x in r <==> x in sites)
  {
    Filter(sites, (site: string) => site != host)
  }

  /** The disabled sites after `toggleSite`: an entry for the host is removed, every time it
      occurs, or else the host is appended. */
  function Toggled(sites: seq<string>, host: string): (r: seq<string>)
    ensures host in r <==> host !in sites
    ensures forall x :: x != host ==> (x in r <==> x in sites)
  {
    if host in sites then WithoutHost(sites, host) else sites + [host]
  }

  /** The disabled sites after `disableSite`: the host is appended unless it is there already. */
  function Disabled(sites: seq<string>, host: string): (r: seq<string>)
    ensures host in r
    ensures forall x :: x != host ==> (x in r <==> x in sites)
    ensures multiset(r)[host] == if host in sites then multiset(sites)[host] else 1
  {
    if host in sites then sites else sites + [host]
  }

  /** Disabling twice is disabling once; enabling twice is enabling once; toggling a host that
      was absent twice restores the list; toggling a present host and toggling it back
      leaves one entry for it at the end. */
  lemma {:induction false} SiteListLaws(sites: seq<string>, host: string)
    ensures Disabled(Disabled(sites, host), host) == Disabled(sites, host)
    ensures WithoutHost(WithoutHost(sites, host), host) == WithoutHost(sites, host)
    ensures host !in sites ==> Toggled(Toggled(sites, host), host) == sites
    ensures host in sites ==> Toggled(Toggled(sites, host), host) == WithoutHost(sites, host) + [host]
  {
    var w := WithoutHost(sites, host);
    FilterKeepsAll(w, (site: string) => site != host);
    if host !in sites {
      var t := sites + [host];
      assert t[..|sites|] == sites;
      FilterKeepsAll(sites, (site: string) => site != host);
      FilterAppendOne(sites, host, (site: string) => site != host);
    }
  }

  // ---------------------------------------------------------------------------------------
  // exports

  /** `points.map((point, i) => `${i + 1}. ${point}`)`. */
  function Numbered(points: seq<string>): (r: seq<string>)
    ensures |r| == |points|
    ensures forall k :: 0 <= k < |r| ==> r[k] == NatToString(k + 1) + ". " + points[k]
  {
    seq(|points|, k requires 0 <= k < |points| => NatToString(k + 1) + ". " + points[k])
  }

  /** `points.map((point) => `- ${point}`)`. */
  function Bulleted(points: seq<string>): (r: seq<string>)
    ensures |r| == |points|
    ensures forall k :: 0 <= k < |r| ==> r[k] == "- " + points[k]
  {
    seq(|points|, k requires 0 <= k < |points| => "- " + points[k])
  }

  /** `exportSummaryAsText`, with `toLocaleDateString` passed in as `date`. */
  function ExportText(s: Summary, date: int -> string): string
  {
    s.title + "\n" + s.url + "\nSummarized on " + date(s.timestamp) + "\n\n"
    + Join(Numbered(s.points), "\n")
  }

  /** `exportSummaryAsMarkdown`. */
  function ExportMarkdown(s: Summary, date: int -> string): string
  {
    "# " + s.title + "\n" + "\n" + "**URL:** " + s.url + "  " + "\n"
    + "**Date:** " + date(s.timestamp) + "  " + "\n"
    + "**Word Count:** " + NatToString(s.wordCount) + "\n" + "\n" + "## Summary" + "\n" + "\n"
    + Join(Bulleted(s.points), "\n")
  }

  predicate NoLineFeed(s: string)
  {
    forall i :: 0 <= i < |s| ==> s[i] != '\n'
  }

  /** What follows the header: one line per point, or one empty line when there are none. */
  function PointLines(lines: seq<string>): (r: seq<string>)
    ensures |r| >= 1
  {
    if lines == [] then [""] else lines
  }

  lemma {:induction false} NumberedHasNoLineFeed(points: seq<string>)
    requires forall k :: 0 <= k < |points| ==> NoLineFeed(points[k])
    ensures forall k :: 0 <= k < |Numbered(points)| ==> NoLineFeed(Numbered(points)[k])
  {
    forall k | 0 <= k < |points| ensures NoLineFeed(Numbered(points)[k]) {
      var n := NatToString(k + 1);
      assert Numbered(points)[k] == n + ". " + points[k];
      assert forall i :: 0 <= i < |n| ==> n[i] != '\n';
    }
  }

  lemma {:induction false} JoinFront(x: string, rest: seq<string>, sep: string)
    requires |rest| >= 1
    ensures Join([x] + rest, sep) == x + sep + Join(rest, sep)
  {
    assert ([x] + rest)[1..] == rest;
  }

  /** The lines of the text export. */
  function TextLines(s: Summary, date: int -> string): seq<string>
  {
    [s.title, s.url, "Summarized on " + date(s.timestamp), ""] + PointLines(Numbered(s.points))
  }

  /** Four lines in front of other lines, joined. */
  lemma {:induction false} JoinFour(h0: string, h1: string, h2: string, h3: string, tail: seq<string>, sep: string)
    requires |tail| >= 1
    ensures Join([h0, h1, h2, h3] + tail, sep)
            == h0 + (sep + (h1 + (sep + (h2 + (sep + (h3 + (sep + Join(tail, sep))))))))
  {
    var t3 := [h3] + tail;
    var t2 := [h2] + t3;
    var t1 := [h1] + t2;
    JoinFront(h3, tail, sep);
    JoinFront(h2, t3, sep);
    JoinFront(h1, t2, sep);
    JoinFront(h0, t1, sep);
    assert [h0] + t1 == [h0, h1, h2, h3] + tail;
  }

  /** The text template's pieces regrouped line by line. */
  lemma {:induction false} TextRegroup(t: string, u: string, d: string, j: string)
    ensures t + "\n" + u + "\nSummarized on " + d + "\n\n" + j
            == t + ("\n" + (u + ("\n" + (("Summarized on " + d) + ("\n" + ("" + ("\n" + j)))))))
  {
    assert "\nSummarized on " == "\n" + "Summarized on ";
    assert "\n\n" == "\n" + "\n";
  }

  lemma {:induction false} ExportTextIsJoin(s: Summary, date: int -> string)
    ensures ExportText(s, date) == Join(TextLines(s, date), "\n")
  {
    var tail := PointLines(Numbered(s.points));
    assert Join(tail, "\n") == Join(Numbered(s.points), "\n");
    JoinFour(s.title, s.url, "Summarized on " + date(s.timestamp), "", tail, "\n");
    TextRegroup(s.title, s.url, date(s.timestamp), Join(Numbered(s.points), "\n"));
  }

  lemma {:induction false} TextLinesHaveNoLineFeed(s: Summary, date: int -> string)
    requires NoLineFeed(s.title) && NoLineFeed(s.url) && NoLineFeed(date(s.timestamp))
    requires forall k :: 0 <= k < |s.points| ==> NoLineFeed(s.points[k])
    ensures forall k :: 0 <= k < |TextLines(s, date)| ==> NoLineFeed(TextLines(s, date)[k])
  {
    var lines := TextLines(s, date);
    var tail := PointLines(Numbered(s.points));
    NumberedHasNoLineFeed(s.points);
    var d := "Summarized on " + date(s.timestamp);
    assert NoLineFeed(d) by {
      assert forall i :: 0 <= i < |d| ==> d[i] == ("Summarized on " + date(s.timestamp))[i];
    }
    forall k | 0 <= k < |lines| ensures NoLineFeed(lines[k]) {
      if k >= 4 {
        assert lines[k] == tail[k - 4];
      }
    }
  }

  /** The text export is the title, the URL, the date line, an empty line and then line `k + 5`
      numbered `k + 1`: when no part holds a line feed of its own, splitting on line feeds gives
      back exactly these lines. */
  lemma {:induction false} ExportTextLines(s: Summary, date: int -> string)
    requires NoLineFeed(s.title) && NoLineFeed(s.url) && NoLineFeed(date(s.timestamp))
    requires forall k :: 0 <= k < |s.points| ==> NoLineFeed(s.points[k])
    ensures SplitOn(ExportText(s, date), '\n') == TextLines(s, date)
    ensures forall k :: 0 <= k < |s.points| ==>
              TextLines(s, date)[k + 4] == NatToString(k + 1) + ". " + s.points[k]
  {
    ExportTextIsJoin(s, date);
    TextLinesHaveNoLineFeed(s, date);
    SplitJoinRoundTrip(TextLines(s, date), '\n');
  }

  /** The lines of the markdown export. */
  function MarkdownLines(s: Summary, date: int -> string): seq<string>
  {
    [ "# " + s.title, "", "**URL:** " + s.url + "  ", "**Date:** " + date(s.timestamp) + "  ",
      "**Word Count:** " + NatToString(s.wordCount), "", "## Summary", "" ]
    + PointLines(Bulleted(s.points))
  }

  /** Eight header lines in front of other lines, joined. */
  lemma {:induction false} JoinEight(h0: string, h1: string, h2: string, h3: string, h4: string, h5: string,
                  h6: string, h7: string, tail: seq<string>, sep: string)
    requires |tail| >= 1
    ensures Join([h0, h1, h2, h3, h4, h5, h6, h7] + tail, sep)
            == h0 + (sep + (h1 + (sep + (h2 + (sep + (h3 + (sep + (h4 + (sep + (h5 + (sep
               + (h6 + (sep + (h7 + (sep + Join(tail, sep))))))))))))))))
  {
    var rest := [h4, h5, h6, h7] + tail;
    JoinFour(h4, h5, h6, h7, tail, sep);
    JoinFour(h0, h1, h2, h3, rest, sep);
    assert [h0, h1, h2, h3] + rest == [h0, h1, h2, h3, h4, h5, h6, h7] + tail;
  }

  /** The template's pieces regrouped line by line. */
  lemma {:induction false} MarkdownRegroup(t: string, u: string, d: string, w: string, j: string)
    ensures "# " + t + "\n" + "\n" + "**URL:** " + u + "  " + "\n" + "**Date:** " + d + "  " + "\n"
            + "**Word Count:** " + w + "\n" + "\n" + "## Summary" + "\n" + "\n" + j
            == ("# " + t) + ("\n" + ("" + ("\n" + (("**URL:** " + u + "  ") + ("\n"
               + (("**Date:** " + d + "  ") + ("\n" + (("**Word Count:** " + w) + ("\n" + (""
               + ("\n" + ("## Summary" + ("\n" + ("" + ("\n" + j)))))))))))))))
  {
    Regroup("# ", t, "\n", "**URL:** ", u, "  ", "**Date:** ", d, "**Word Count:** ", w,
            "## Summary", j);
  }

  /** The same regrouping with every piece abstract. */
  lemma {:induction false} Regroup(h: string, t: string, nl: string, up: string, u: string, sp: string,
                                   dp: string, d: string, wp: string, w: string, sum: string, j: string)
    ensures h + t + nl + nl + up + u + sp + nl + dp + d + sp + nl + wp + w + nl + nl + sum + nl + nl + j
            == (h + t) + (nl + ("" + (nl + ((up + u + sp) + (nl + ((dp + d + sp) + (nl + ((wp + w)
               + (nl + ("" + (nl + (sum + (nl + ("" + (nl + j)))))))))))))))
  {
  }

  lemma {:induction false} ExportMarkdownIsJoin(s: Summary, date: int -> string)
    ensures ExportMarkdown(s, date) == Join(MarkdownLines(s, date), "\n")
  {
    var tail := PointLines(Bulleted(s.points));
    assert Join(tail, "\n") == Join(Bulleted(s.points), "\n");
    JoinEight("# " + s.title, "", "**URL:** " + s.url + "  ", "**Date:** " + date(s.timestamp) + "  ",
              "**Word Count:** " + NatToString(s.wordCount), "", "## Summary", "", tail, "\n");
    MarkdownRegroup(s.title, s.url, date(s.timestamp), NatToString(s.wordCount),
                    Join(Bulleted(s.points), "\n"));
  }

  lemma {:induction false} ConcatNoLineFeed(a: string, b: string)
    requires NoLineFeed(a) && NoLineFeed(b)
    ensures NoLineFeed(a + b)
  {
    forall i | 0 <= i < |a + b| ensures (a + b)[i] != '\n' {
      if i >= |a| {
        assert (a + b)[i] == b[i - |a|];
      }
    }
  }

  lemma {:induction false} MarkdownLinesHaveNoLineFeed(s: Summary, date: int -> string)
    requires NoLineFeed(s.title) && NoLineFeed(s.url) && NoLineFeed(date(s.timestamp))
    requires forall k :: 0 <= k < |s.points| ==> NoLineFeed(s.points[k])
    ensures forall k :: 0 <= k < |MarkdownLines(s, date)| ==> NoLineFeed(MarkdownLines(s, date)[k])
  {
    var lines := MarkdownLines(s, date);
    var tail := PointLines(Bulleted(s.points));
    var n := NatToString(s.wordCount);
    assert NoLineFeed(n) by {
      assert forall i :: 0 <= i < |n| ==> n[i] != '\n';
    }
    ConcatNoLineFeed("# ", s.title);
    ConcatNoLineFeed("**URL:** ", s.url);
    ConcatNoLineFeed("**URL:** " + s.url, "  ");
    ConcatNoLineFeed("**Date:** ", date(s.timestamp));
    ConcatNoLineFeed("**Date:** " + date(s.timestamp), "  ");
    ConcatNoLineFeed("**Word Count:** ", n);
    forall k | 8 <= k < |lines| ensures NoLineFeed(lines[k]) {
      assert lines[k] == tail[k - 8];
      if s.points != [] {
        ConcatNoLineFeed("- ", s.points[k - 8]);
      }
    }
  }

  /** The markdown export is a heading, the URL, date and word-count lines, a `## Summary`
      heading and then one line per point starting with `- `: when no part holds a line feed of
      its own, splitting on line feeds gives back exactly these lines. */
  lemma {:induction false} ExportMarkdownLines(s: Summary, date: int -> string)
    requires NoLineFeed(s.title) && NoLineFeed(s.url) && NoLineFeed(date(s.timestamp))
    requires forall k :: 0 <= k < |s.points| ==> NoLineFeed(s.points[k])
    ensures SplitOn(ExportMarkdown(s, date), '\n') == MarkdownLines(s, date)
    ensures forall k :: 0 <= k < |s.points| ==> MarkdownLines(s, date)[k + 8] == "- " + s.points[k]
  {
    ExportMarkdownIsJoin(s, date);
    MarkdownLinesHaveNoLineFeed(s, date);
    SplitJoinRoundTrip(MarkdownLines(s, date), '\n');
  }

  // ---------------------------------------------------------------------------------------
  // the manager

  /** `chrome.storage.local`, with the static methods of the source as methods on it. */
  class StorageManager {
    var local: map<string, StoredValue>

    constructor(initial: map<string, StoredValue>)
      ensures local == initial
    {
      local := initial;
    }

    /** `result[SUMMARIES_KEY] || []`. */
    function Summaries(): seq<Summary>
      reads this
    {
      if SummariesKey in local && local[SummariesKey].SummaryList? then local[SummariesKey].list
      else []
    }

    /** The stored settings object, or no fields when the key is absent. */
    function StoredSettings(): PartialSettings
      reads this
    {
      if SettingsKey in local && local[SettingsKey].SettingsObject? then local[SettingsKey].fields
      else NoFields
    }

    /** `{ ...getDefaultSettings(), ...result[SETTINGS_KEY] }`. */
    function Settings(): ExtensionSettings
      reads this
    {
      Merge(DefaultSettings(), StoredSettings())
    }

    method GetSummaries() returns (r: seq<Summary>)
      ensures r == Summaries()
      ensures SummariesKey !in local ==> r == []
    {
      r := if SummariesKey in local && local[SummariesKey].SummaryList? then local[SummariesKey].list
           else [];
    }

    /** Settings read back: each field the stored object has, else the default. */
    method GetSettings() returns (r: ExtensionSettings)
      ensures r == Settings()
      ensures StoredSettings().enabled.None? ==> r.enabled
      ensures StoredSettings().autoDetect.None? ==> r.autoDetect
      ensures StoredSettings().disabledSites.None? ==> r.disabledSites == []
      ensures StoredSettings().summaryFormat.None? ==> r.summaryFormat == Bullets
      ensures StoredSettings().enabled.Some? ==> r.enabled == StoredSettings().enabled.value
    {
      var stored := StoredSettings();
      r := Merge(DefaultSettings(), stored);
    }

    method SaveSummary(summary: Summary)
      modifies this
      ensures local == old(local)[SummariesKey := SummaryList(Prepended(summary, old(Summaries())))]
      ensures |Summaries()| <= MaxSummaries && Summaries()[0] == summary
      ensures Summaries()[1..] <= old(Summaries())
    {
      var summaries := GetSummaries();
      var limited := Prepended(summary, summaries);
      local := local[SummariesKey := SummaryList(limited)];
    }

    method DeleteSummary(summaryId: string)
      modifies this
      ensures local == old(local)[SummariesKey := SummaryList(WithoutId(old(Summaries()), summaryId))]
      ensures forall s :: s in Summaries() <==> s in old(Summaries()) && s.id != summaryId
    {
      var summaries := GetSummaries();
      local := local[SummariesKey := SummaryList(WithoutId(summaries, summaryId))];
      WithoutIdSpec(summaries, summaryId);
    }

    method ClearSummaries()
      modifies this
      ensures local == old(local) - {SummariesKey}
      ensures Summaries() == [] && Settings() == old(Settings())
    {
      local := local - {SummariesKey};
    }

    method SaveSettings(settings: ExtensionSettings)
      modifies this
      ensures local == old(local)[SettingsKey := SettingsObject(AllFields(settings))]
      ensures Settings() == settings && Summaries() == old(Summaries())
    {
      local := local[SettingsKey := SettingsObject(AllFields(settings))];
    }

    /** `updateSettings`: the fields given replace the current ones, the others stay. */
    method UpdateSettings(updates: PartialSettings)
      modifies this
      ensures Settings() == Merge(old(Settings()), updates)
      ensures local == old(local)[SettingsKey := SettingsObject(AllFields(Settings()))]
    {
      var current := GetSettings();
      SaveSettings(Merge(current, updates));
    }

    /** `isEnabledForSite`; `hostOf` is `new URL(url).hostname`, `None` where it throws. */
    method IsEnabledForSite(url: string, hostOf: string -> Option<string>) returns (b: bool)
      ensures b <==> Settings().enabled
                     && (hostOf(url).None? || hostOf(url).value !in Settings().disabledSites)
    {
      var settings := GetSettings();
      if !settings.enabled {
        return false;
      }
      match hostOf(url)
      case None => b := true;
      case Some(hostname) => b := hostname !in settings.disabledSites;
    }

    /** `toggleSite`. A URL without a hostname throws before anything is saved. */
    method ToggleSite(url: string, hostOf: string -> Option<string>)
      modifies this
      ensures hostOf(url).None? ==> local == old(local)
      ensures hostOf(url).Some? ==>
                Settings() == old(Settings()).(disabledSites :=
                  Toggled(old(Settings()).disabledSites, hostOf(url).value))
      ensures hostOf(url).Some? ==>
                local == old(local)[SettingsKey := SettingsObject(AllFields(Settings()))]
                && Summaries() == old(Summaries())
    {
      var settings := GetSettings();
      if hostOf(url).None? {
        return;
      }
      var hostname := hostOf(url).value;
      settings := settings.(disabledSites := Toggled(settings.disabledSites, hostname));
      SaveSettings(settings);
    }

    method EnableSite(url: string, hostOf: string -> Option<string>)
      modifies this
      ensures hostOf(url).None? ==> local == old(local)
      ensures hostOf(url).Some? ==>
                Settings() == old(Settings()).(disabledSites :=
                  WithoutHost(old(Settings()).disabledSites, hostOf(url).value))
      ensures hostOf(url).Some? ==>
                local == old(local)[SettingsKey := SettingsObject(AllFields(Settings()))]
                && Summaries() == old(Summaries())
    {
      var settings := GetSettings();
      if hostOf(url).None? {
        return;
      }
      var hostname := hostOf(url).value;
      settings := settings.(disabledSites := WithoutHost(settings.disabledSites, hostname));
      SaveSettings(settings);
    }

    method DisableSite(url: string, hostOf: string -> Option<string>)
      modifies this
      ensures hostOf(url).None? ==> local == old(local)
      ensures hostOf(url).Some? ==>
                Settings() == old(Settings()).(disabledSites :=
                  Disabled(old(Settings()).disabledSites, hostOf(url).value))
      ensures hostOf(url).Some? ==>
                local == old(local)[SettingsKey := SettingsObject(AllFields(Settings()))]
                && Summaries() == old(Summaries())
    {
      var settings := GetSettings();
      if hostOf(url).None? {
        return;
      }
      var hostname := hostOf(url).value;
      settings := settings.(disabledSites := Disabled(settings.disabledSites, hostname));
      SaveSettings(settings);
    }
  }
}
