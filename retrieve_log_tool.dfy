/** The `retrieve_logs` tool (src/tools/retrieve_log_tool.py): the entries the
    Cloud Logging client yields are parsed, capped at `max_entries`, sorted by
    timestamp and summarised as a period, a total, a count per severity, a
    count per resource and the payloads joined by newlines. The client, the
    timestamp formatting and the duration formatting are parameters. */
module RetrieveLogTool {
  import opened PyStr
  import opened PosixPath
  import opened Workspace
  import opened AgentState

  // ---------------------------------------------------------------------------
  // Entries

  /** An entry as the client yields it. `payload` is the text of a truthy
      payload and None for a falsy one; `resource` is the resource's
      `json.dumps(..., sort_keys=True)` text; `Malformed` is an entry whose
      attributes cannot be read. */
  datatype RawEntry =
    | Raw(timestamp: int, logName: string, severity: string, payload: Option<string>, resource: string)
    | Malformed

  /** `LogEntry`, with the timestamp as a count of time units. */
  datatype LogEntry = LogEntry(timestamp: int, logName: string, severity: string, textPayload: string, resource: string)

  /** `_parse_log_entry`: None when reading an attribute raises; a falsy
      payload becomes "". */
  function ParseLogEntry(raw: RawEntry): Option<LogEntry> {
    match raw
    case Malformed => None
    case Raw(timestamp, logName, severity, payload, resource) =>
      Some(LogEntry(timestamp, logName, severity, if payload.Some? then payload.value else "", resource))
  }

  /** The parses that succeed, in the client's order. */
  function Parsed(raws: seq<RawEntry>): (r: seq<LogEntry>)
    ensures |r| <= |raws|
  {
    if raws == [] then []
    else (match ParseLogEntry(raws[0]) case Some(e) => [e] case None => []) + Parsed(raws[1..])
  }

  lemma {:induction false} ParsedAppend(a: seq<RawEntry>, b: seq<RawEntry>)
    ensures Parsed(a + b) == Parsed(a) + Parsed(b)
    decreases |a|
  {
    if a == [] {
      assert a + b == b;
    } else {
      var head: seq<LogEntry> := match ParseLogEntry(a[0]) case Some(e) => [e] case None => [];
      assert (a + b)[0] == a[0] && (a + b)[1..] == a[1..] + b;
      ParsedAppend(a[1..], b);
      AppendAssoc(head, Parsed(a[1..]), Parsed(b));
    }
  }

  function Min(a: int, b: int): int {
    if a <= b then a else b
  }

  /** What the collection loop keeps: the first `maxEntries` successful
      parses, or, when `maxEntries` is not positive, the parse of the first
      entry alone (the cap is tested only after an entry is taken). */
  function Collected(raws: seq<RawEntry>, maxEntries: int): seq<LogEntry> {
    if maxEntries >= 1 then Parsed(raws)[..Min(|Parsed(raws)|, maxEntries)]
    else if raws == [] then []
    else Parsed(raws[..1])
  }

  /** The loop over the client's entries: a successful parse is appended, and
      the loop stops as soon as the count reaches `maxEntries`. */
  method CollectEntries(raws: seq<RawEntry>, maxEntries: int) returns (entries: seq<LogEntry>)
    ensures entries == Collected(raws, maxEntries)
  {
    entries := [];
    var i := 0;
    while i < |raws|
      invariant 0 <= i <= |raws|
      invariant entries == Parsed(raws[..i])
      invariant i > 0 ==> |entries| < maxEntries
    {
      var parsed := ParseLogEntry(raws[i]);
      ParsedSnoc(raws, i);
      if parsed.Some? {
        entries := entries + [parsed.value];
      }
      i := i + 1;
      if |entries| >= maxEntries {
        CollectStop(raws, i, maxEntries);
        return;
      }
    }
    CollectDone(raws, maxEntries);
  }

  lemma ParsedSnoc(raws: seq<RawEntry>, i: nat)
    requires i < |raws|
    ensures Parsed(raws[..i + 1]) == Parsed(raws[..i]) + match ParseLogEntry(raws[i]) case Some(e) => [e] case None => []
  {
    assert raws[..i + 1] == raws[..i] + [raws[i]];
    ParsedAppend(raws[..i], [raws[i]]);
  }

  /** The loop stops after the `i`-th entry once the count reaches the cap. */
  lemma CollectStop(raws: seq<RawEntry>, i: nat, maxEntries: int)
    requires 1 <= i <= |raws| && |Parsed(raws[..i])| >= maxEntries
    requires i > 1 ==> |Parsed(raws[..i - 1])| < maxEntries
    ensures Parsed(raws[..i]) == Collected(raws, maxEntries)
  {
    var taken := Parsed(raws[..i]);
    assert raws[..i] + raws[i..] == raws;
    ParsedAppend(raws[..i], raws[i..]);
    if maxEntries >= 1 {
      ParsedSnoc(raws, i - 1);
      assert raws[..i - 1][..i - 1] == raws[..i - 1];
      assert |taken| == maxEntries;
      assert Parsed(raws)[..|taken|] == taken;
    }
  }

  /** The loop runs out of entries below the cap. */
  lemma CollectDone(raws: seq<RawEntry>, maxEntries: int)
    requires |raws| > 0 ==> |Parsed(raws[..|raws|])| < maxEntries
    ensures Parsed(raws[..|raws|]) == Collected(raws, maxEntries)
  {
    assert raws[..|raws|] == raws;
  }

  /** The collection keeps at most `maxEntries` entries when that is
      positive, and at most one otherwise; it keeps every successful parse
      when there are no more than `maxEntries` of them. */
  lemma CollectedBound(raws: seq<RawEntry>, maxEntries: int)
    ensures maxEntries >= 1 ==> |Collected(raws, maxEntries)| <= maxEntries
    ensures maxEntries < 1 ==> |Collected(raws, maxEntries)| <= 1
    ensures |Parsed(raws)| <= maxEntries ==> Collected(raws, maxEntries) == Parsed(raws)
  {
    if maxEntries < 1 && raws != [] {
      assert |raws[..1]| == 1;
    }
  }

  // ---------------------------------------------------------------------------
  // Sorting by timestamp

  predicate SortedByTime(s: seq<LogEntry>) {
    forall i, j :: 0 <= i < j < |s| ==> s[i].timestamp <= s[j].timestamp
  }

  /** `e` placed after every entry that is not later than it. */
  function InsertByTime(e: LogEntry, s: seq<LogEntry>): (r: seq<LogEntry>)
    ensures multiset(r) == multiset(s) + multiset{e}
  {
    if s == [] || e.timestamp < s[0].timestamp then [e] + s
    else
      var rest := InsertByTime(e, s[1..]);
      assert s == [s[0]] + s[1..];
      [s[0]] + rest
  }

  /** `entries.sort(key=lambda x: x.timestamp)`: Python's sort is stable, so
      entries with equal timestamps keep their order. */
  function SortByTime(s: seq<LogEntry>): seq<LogEntry> {
    if s == [] then [] else InsertByTime(s[|s| - 1], SortByTime(s[..|s| - 1]))
  }

  /** The entries stamped `t`, in order. */
  function AtTime(s: seq<LogEntry>, t: int): seq<LogEntry> {
    if s == [] then []
    else (if s[0].timestamp == t then [s[0]] else []) + AtTime(s[1..], t)
  }

  lemma {:induction false} AtTimeAppend(a: seq<LogEntry>, b: seq<LogEntry>, t: int)
    ensures AtTime(a + b, t) == AtTime(a, t) + AtTime(b, t)
    decreases |a|
  {
    if a == [] {
      assert a + b == b;
    } else {
      var head: seq<LogEntry> := if a[0].timestamp == t then [a[0]] else [];
      assert (a + b)[0] == a[0] && (a + b)[1..] == a[1..] + b;
      AtTimeAppend(a[1..], b, t);
      AppendAssoc(head, AtTime(a[1..], t), AtTime(b, t));
    }
  }

  lemma {:induction false} AtTimeNone(s: seq<LogEntry>, t: int)
    requires forall i :: 0 <= i < |s| ==> s[i].timestamp > t
    ensures AtTime(s, t) == []
    decreases |s|
  {
    if s != [] {
      AtTimeNone(s[1..], t);
    }
  }

  lemma {:induction false} InsertSorted(e: LogEntry, s: seq<LogEntry>)
    requires SortedByTime(s)
    ensures SortedByTime(InsertByTime(e, s))
    decreases |s|
  {
    if s != [] && e.timestamp >= s[0].timestamp {
      InsertSorted(e, s[1..]);
      var rest := InsertByTime(e, s[1..]);
      var r := [s[0]] + rest;
      forall i, j | 0 <= i < j < |r| ensures r[i].timestamp <= r[j].timestamp {
        if i == 0 {
          assert r[j] in multiset(rest);
          assert r[j] in multiset(s[1..]) + multiset{e};
          if r[j] in multiset(s[1..]) {
            var k :| 0 <= k < |s[1..]| && s[1..][k] == r[j];
            assert s[k + 1] == r[j];
          }
        } else {
          assert r[i] == rest[i - 1] && r[j] == rest[j - 1];
        }
      }
    }
  }

  /** Inserting into a sorted sequence puts `e` after the entries stamped
      like it and leaves the others in their order. */
  lemma {:induction false} InsertAtTime(e: LogEntry, s: seq<LogEntry>, t: int)
    requires SortedByTime(s)
    ensures AtTime(InsertByTime(e, s), t) == AtTime(s, t) + (if e.timestamp == t then [e] else [])
    decreases |s|
  {
    if s == [] {
      assert [e] + s == [e];
      assert AtTime([e], t) == (if e.timestamp == t then [e] else []) + AtTime([], t);
    } else if e.timestamp < s[0].timestamp {
      var r := [e] + s;
      assert r[0] == e && r[1..] == s;
      if e.timestamp == t {
        AtTimeNone(s, t);
      }
    } else {
      var rest := InsertByTime(e, s[1..]);
      var r := [s[0]] + rest;
      assert r[0] == s[0] && r[1..] == rest;
      InsertAtTime(e, s[1..], t);
      var head: seq<LogEntry> := if s[0].timestamp == t then [s[0]] else [];
      AppendAssoc(head, AtTime(s[1..], t), if e.timestamp == t then [e] else []);
    }
  }

  /** The sort orders the entries by timestamp. */
  lemma {:induction false} SortSorted(s: seq<LogEntry>)
    ensures SortedByTime(SortByTime(s))
    decreases |s|
  {
    if s != [] {
      SortSorted(s[..|s| - 1]);
      InsertSorted(s[|s| - 1], SortByTime(s[..|s| - 1]));
    }
  }

  /** The sort is a permutation of its input. */
  lemma {:induction false} SortPermutes(s: seq<LogEntry>)
    ensures multiset(SortByTime(s)) == multiset(s)
    decreases |s|
  {
    if s != [] {
      SortPermutes(s[..|s| - 1]);
      assert s == s[..|s| - 1] + [s[|s| - 1]];
    }
  }

  /** The sort is stable: for every timestamp, the entries stamped with it
      come out in the order they went in. */
  lemma {:induction false} SortStable(s: seq<LogEntry>, t: int)
    ensures AtTime(SortByTime(s), t) == AtTime(s, t)
    decreases |s|
  {
    if s != [] {
      var init, last := s[..|s| - 1], s[|s| - 1];
      SortStable(init, t);
      SortSorted(init);
      InsertAtTime(last, SortByTime(init), t);
      AtTimeSnoc(s, t);
    }
  }

  lemma AtTimeSnoc(s: seq<LogEntry>, t: int)
    requires s != []
    ensures AtTime(s, t) == AtTime(s[..|s| - 1], t) + (if s[|s| - 1].timestamp == t then [s[|s| - 1]] else [])
  {
    var init, last := s[..|s| - 1], s[|s| - 1];
    assert s == init + [last];
    AtTimeAppend(init, [last], t);
    assert AtTime([last], t) == (if last.timestamp == t then [last] else []) + AtTime([], t);
  }

  // ---------------------------------------------------------------------------
  // Distributions

  /** A dictionary from key to count, in insertion order. */
  type Tally = seq<(string, nat)>

  function KeysOf(d: Tally): (r: seq<string>)
    ensures |r| == |d|
  {
    if d == [] then [] else [d[0].0] + KeysOf(d[1..])
  }

  /** `d.get(k, 0)` */
  function Get(d: Tally, k: string): nat {
    if d == [] then 0 else if d[0].0 == k then d[0].1 else Get(d[1..], k)
  }

  /** `d[k] = d.get(k, 0) + 1`: the count of `k` goes up in place, or `k` is
      added at the end with count 1. */
  function Bump(d: Tally, k: string): Tally {
    if d == [] then [(k, 1)]
    else if d[0].0 == k then [(k, d[0].1 + 1)] + d[1..]
    else [d[0]] + Bump(d[1..], k)
  }

  /** The sum of the counts. */
  function Total(d: Tally): nat {
    if d == [] then 0 else d[0].1 + Total(d[1..])
  }

  /** The dictionary the counting loop builds from `ks`. */
  function Tallied(ks: seq<string>): Tally {
    if ks == [] then [] else Bump(Tallied(ks[..|ks| - 1]), ks[|ks| - 1])
  }

  predicate Distinct(xs: seq<string>) {
    forall i, j :: 0 <= i < j < |xs| ==> xs[i] != xs[j]
  }

  lemma {:induction false} BumpGet(d: Tally, k: string, j: string)
    ensures Get(Bump(d, k), j) == Get(d, j) + (if j == k then 1 else 0)
    decreases |d|
  {
    if d != [] && d[0].0 != k {
      BumpGet(d[1..], k, j);
    }
  }

  lemma {:induction false} BumpTotal(d: Tally, k: string)
    ensures Total(Bump(d, k)) == Total(d) + 1
    decreases |d|
  {
    if d != [] && d[0].0 != k {
      BumpTotal(d[1..], k);
    }
  }

  lemma {:induction false} BumpKeys(d: Tally, k: string)
    ensures KeysOf(Bump(d, k)) == if k in KeysOf(d) then KeysOf(d) else KeysOf(d) + [k]
    decreases |d|
  {
    if d != [] && d[0].0 != k {
      BumpKeys(d[1..], k);
      assert KeysOf(d) == [d[0].0] + KeysOf(d[1..]);
      assert k in KeysOf(d) <==> k in KeysOf(d[1..]);
      if k !in KeysOf(d) {
        AppendAssoc([d[0].0], KeysOf(d[1..]), [k]);
      }
    }
  }

  /** The count of a key is the number of times it occurs. */
  lemma {:induction false} TalliedGet(ks: seq<string>, k: string)
    ensures Get(Tallied(ks), k) == multiset(ks)[k]
    decreases |ks|
  {
    if ks != [] {
      var init, last := ks[..|ks| - 1], ks[|ks| - 1];
      TalliedGet(init, k);
      BumpGet(Tallied(init), last, k);
      assert ks == init + [last];
    }
  }

  /** The counts add up to the number of keys counted. */
  lemma {:induction false} TalliedTotal(ks: seq<string>)
    ensures Total(Tallied(ks)) == |ks|
    decreases |ks|
  {
    if ks != [] {
      TalliedTotal(ks[..|ks| - 1]);
      BumpTotal(Tallied(ks[..|ks| - 1]), ks[|ks| - 1]);
    }
  }

  /** There is one key per distinct value counted, each once. */
  lemma {:induction false} TalliedKeys(ks: seq<string>)
    ensures Distinct(KeysOf(Tallied(ks)))
    ensures forall k :: k in KeysOf(Tallied(ks)) <==> k in ks
    decreases |ks|
  {
    if ks != [] {
      var init, last := ks[..|ks| - 1], ks[|ks| - 1];
      TalliedKeys(init);
      BumpKeys(Tallied(init), last);
      assert ks == init + [last];
      forall k ensures k in KeysOf(Tallied(ks)) <==> k in ks {
        assert k in ks <==> k in init || k == last;
      }
    }
  }

  function Severities(entries: seq<LogEntry>): (r: seq<string>)
    ensures |r| == |entries| && forall i :: 0 <= i < |entries| ==> r[i] == entries[i].severity
  {
    seq(|entries|, i requires 0 <= i < |entries| => entries[i].severity)
  }

  function Resources(entries: seq<LogEntry>): (r: seq<string>)
    ensures |r| == |entries| && forall i :: 0 <= i < |entries| ==> r[i] == entries[i].resource
  {
    seq(|entries|, i requires 0 <= i < |entries| => entries[i].resource)
  }

  /** `_analyze_severity_distribution`: one count per severity, keys in the
      order the severities first occur. */
  method AnalyzeSeverityDistribution(entries: seq<LogEntry>) returns (distribution: Tally)
    ensures distribution == Tallied(Severities(entries))
  {
    distribution := [];
    for i := 0 to |entries|
      invariant distribution == Tallied(Severities(entries[..i]))
    {
      assert Severities(entries[..i + 1])[..i] == Severities(entries[..i]);
      distribution := Bump(distribution, entries[i].severity);
    }
    assert entries[..|entries|] == entries;
  }

  /** `_analyze_resources_distribution`, with counts in place of the rounded
      percentages: empty for no entries, otherwise one count per distinct
      resource. */
  method AnalyzeResourcesDistribution(entries: seq<LogEntry>) returns (resources: Tally)
    ensures resources == Tallied(Resources(entries))
  {
    resources := [];
    if |entries| == 0 {
      return [];
    }
    for i := 0 to |entries|
      invariant resources == Tallied(Resources(entries[..i]))
    {
      assert Resources(entries[..i + 1])[..i] == Resources(entries[..i]);
      resources := Bump(resources, entries[i].resource);
    }
    assert entries[..|entries|] == entries;
  }

  /** The severity counts: each severity once, counted as often as it
      occurs, the counts summing to the number of entries. */
  lemma SeverityDistribution(entries: seq<LogEntry>)
    ensures var d := Tallied(Severities(entries));
      && Total(d) == |entries|
      && Distinct(KeysOf(d))
      && (forall s :: s in KeysOf(d) <==> exists i :: 0 <= i < |entries| && entries[i].severity == s)
      && (forall s :: Get(d, s) == multiset(Severities(entries))[s])
  {
    var ks := Severities(entries);
    TalliedTotal(ks);
    TalliedKeys(ks);
    forall s ensures Get(Tallied(ks), s) == multiset(ks)[s] {
      TalliedGet(ks, s);
    }
    forall s ensures s in ks <==> exists i :: 0 <= i < |entries| && entries[i].severity == s {
      if s in ks {
        var i :| 0 <= i < |ks| && ks[i] == s;
        assert entries[i].severity == s;
      }
    }
  }

  /** The resource counts: empty exactly when there are no entries; each
      resource once, the counts summing to the number of entries. */
  lemma ResourcesDistribution(entries: seq<LogEntry>)
    ensures var d := Tallied(Resources(entries));
      && (d == [] <==> entries == [])
      && Total(d) == |entries|
      && Distinct(KeysOf(d))
      && (forall r :: r in KeysOf(d) <==> exists i :: 0 <= i < |entries| && entries[i].resource == r)
  {
    var ks := Resources(entries);
    TalliedTotal(ks);
    TalliedKeys(ks);
    forall r ensures r in ks <==> exists i :: 0 <= i < |entries| && entries[i].resource == r {
      if r in ks {
        var i :| 0 <= i < |ks| && ks[i] == r;
        assert entries[i].resource == r;
      }
    }
  }

  // ---------------------------------------------------------------------------
  // Period and raw logs

  /** `_get_period_description` before formatting: none, one instant, or the
      first and last timestamps. */
  datatype Period = NoLogs | SingleAt(at: int) | Between(first: int, last: int)

  function PeriodOf(entries: seq<LogEntry>): Period {
    if entries == [] then NoLogs
    else if |entries| == 1 then SingleAt(entries[0].timestamp)
    else Between(entries[0].timestamp, entries[|entries| - 1].timestamp)
  }

  /** The period text; `stamp` stands for `strftime('%Y-%m-%d %H:%M:%S UTC')`
      and `span` for the text of a `timedelta`. */
  function PeriodText(p: Period, stamp: int -> string, span: int -> string): string {
    match p
    case NoLogs => "No logs found for the specified period"
    case SingleAt(t) => "Single log entry at " + stamp(t)
    case Between(a, b) => "Logs from " + stamp(a) + " to " + stamp(b) + " (duration: " + span(b - a) + ")"
  }

  /** On sorted entries the period runs from the earliest timestamp to the
      latest, and its duration is never negative. */
  lemma PeriodSpans(entries: seq<LogEntry>)
    requires SortedByTime(entries)
    ensures PeriodOf(entries).NoLogs? <==> entries == []
    ensures PeriodOf(entries).SingleAt? <==> |entries| == 1
    ensures PeriodOf(entries).Between? ==>
      var p := PeriodOf(entries);
      && p.first <= p.last
      && (forall i :: 0 <= i < |entries| ==> p.first <= entries[i].timestamp <= p.last)
      && (exists i :: 0 <= i < |entries| && entries[i].timestamp == p.first)
      && (exists i :: 0 <= i < |entries| && entries[i].timestamp == p.last)
  {
    if |entries| >= 2 {
      var p := PeriodOf(entries);
      assert entries[0].timestamp == p.first;
      assert entries[|entries| - 1].timestamp == p.last;
    }
  }

  function Payloads(entries: seq<LogEntry>): (r: seq<string>)
    ensures |r| == |entries| && forall i :: 0 <= i < |entries| ==> r[i] == entries[i].textPayload
  {
    seq(|entries|, i requires 0 <= i < |entries| => entries[i].textPayload)
  }

  /** `"\n".join(entry.text_payload for entry in entries)` */
  function RawLogs(entries: seq<LogEntry>): string {
    Join("\n", Payloads(entries))
  }

  /** Splitting the raw logs at newlines gives the payloads back when none of
      them holds a newline. */
  lemma RawLogsSplit(entries: seq<LogEntry>)
    requires entries != []
    requires forall i :: 0 <= i < |entries| ==> '\n' !in entries[i].textPayload
    ensures SplitChar(RawLogs(entries), '\n') == Payloads(entries)
  {
    assert "\n" == ['\n'];
    SplitCharJoin(Payloads(entries), '\n');
  }

  // ---------------------------------------------------------------------------
  // Retrieval and the tool

  /** `LogAnalysis`. */
  datatype LogAnalysis = LogAnalysis(period: string, totalEntries: nat, severityDistribution: Tally,
                                     resourcesDistribution: Tally, rawLogs: string)

  /** The analysis of the sorted entries. */
  function Analysis(entries: seq<LogEntry>, stamp: int -> string, span: int -> string): LogAnalysis {
    LogAnalysis(PeriodText(PeriodOf(entries), stamp, span), |entries|, Tallied(Severities(entries)),
                Tallied(Resources(entries)), RawLogs(entries))
  }

  /** The exceptions `retrieve_logs` tells apart; the others carry `str(e)`. */
  datatype ClientError = PermissionDenied | InvalidArgument(detail: string) | OtherError(detail: string)

  /** What listing the entries gives: the entries, or an exception raised
      while listing or iterating. */
  datatype Listing = Listed(raws: seq<RawEntry>) | ListFailed(error: ClientError)

  const PermissionMessage := "Insufficient permissions to access GCP logs. Check service account permissions."

  /** The message of the exception `retrieve_logs` raises in its place. */
  function ErrorMessage(e: ClientError): string {
    match e
    case PermissionDenied => PermissionMessage
    case InvalidArgument(d) => "Invalid log filter: " + d
    case OtherError(d) => "Failed to retrieve logs: " + d
  }

  /** `GCPLogRetriever.retrieve_logs` on what the client lists. */
  method RetrieveLogs(listing: Listing, maxEntries: int, stamp: int -> string, span: int -> string)
    returns (r: Result<LogAnalysis, string>)
    ensures listing.ListFailed? ==> r == Failure(ErrorMessage(listing.error))
    ensures listing.Listed? ==> r == Success(Analysis(SortByTime(Collected(listing.raws, maxEntries)), stamp, span))
  {
    match listing
    case ListFailed(e) =>
      return Failure(ErrorMessage(e));
    case Listed(raws) =>
      var entries := CollectEntries(raws, maxEntries);
      entries := SortByTime(entries);
      var severityDist := AnalyzeSeverityDistribution(entries);
      var resourcesDist := AnalyzeResourcesDistribution(entries);
      var rawLogs := Join("\n", Payloads(entries));
      return Success(LogAnalysis(PeriodText(PeriodOf(entries), stamp, span), |entries|, severityDist,
                                 resourcesDist, rawLogs));
  }

  /** The dictionary the tool returns: `error` is present only on failure. */
  datatype ToolOutput = ToolOutput(error: Option<string>, period: string, totalEntries: nat,
                                   severityDistribution: Tally, resourcesDistribution: Tally, rawLogs: string)

  function ErrorOutput(message: string): ToolOutput {
    ToolOutput(Some(message), "Error occurred", 0, [], [], "")
  }

  /** `asdict(analysis)` */
  function AsDict(a: LogAnalysis): ToolOutput {
    ToolOutput(None, a.period, a.totalEntries, a.severityDistribution, a.resourcesDistribution, a.rawLogs)
  }

  /** The client request: the key file's text, the filter, the order and the
      page size. */
  datatype ClientCall = ClientCall(key: string, filter: string, orderBy: string, pageSize: int)

  /** What building the client gives: a failure of `json.load` or of the
      credentials, with its message, or the listing. */
  datatype Connection = SetupFailed(message: string) | Connected(listing: Listing)

  const EmptyFilter := "Filter string cannot be empty"

  /** The `retrieve_logs` tool: every exception becomes the error dictionary. */
  method RetrieveLogsTool(fs: FileSystem, toolsDir: string, sessionId: string, filterString: string,
                          maxEntries: int, client: ClientCall -> Connection,
                          stamp: int -> string, span: int -> string) returns (out: ToolOutput)
    requires IsAbs(toolsDir)
    ensures Strip(filterString) == [] ==> out == ErrorOutput(EmptyFilter)
    ensures Strip(filterString) != [] ==>
      var path := SaKeyPath(toolsDir, sessionId);
      out == if path !in fs.files then ErrorOutput(NoSuchFile(path))
             else match client(ClientCall(fs.files[path], filterString, "timestamp desc", Min(maxEntries, 1000)))
               case SetupFailed(m) => ErrorOutput(m)
               case Connected(ListFailed(e)) => ErrorOutput(ErrorMessage(e))
               case Connected(Listed(raws)) =>
                 AsDict(Analysis(SortByTime(Collected(raws, maxEntries)), stamp, span))
  {
    if filterString == [] || Strip(filterString) == [] {
      return ErrorOutput(EmptyFilter);
    }
    var path := SaKeyPath(toolsDir, sessionId);
    if path !in fs.files {
      return ErrorOutput(NoSuchFile(path));
    }
    var connection := client(ClientCall(fs.files[path], filterString, "timestamp desc", Min(maxEntries, 1000)));
    match connection
    case SetupFailed(m) =>
      return ErrorOutput(m);
    case Connected(listing) =>
      var analysis := RetrieveLogs(listing, maxEntries, stamp, span);
      match analysis
      case Failure(m) =>
        return ErrorOutput(m);
      case Success(a) =>
        return AsDict(a);
  }

  /** The tool's dictionary, whichever way it ends: `total_entries` counts
      the sorted entries, the severity counts add up to it, the resource
      counts are empty exactly when it is 0, and an error leaves everything
      else empty. */
  lemma OutputFacts(raws: seq<RawEntry>, maxEntries: int, stamp: int -> string, span: int -> string, message: string)
    ensures var entries := SortByTime(Collected(raws, maxEntries));
      var out := AsDict(Analysis(entries, stamp, span));
      && out.error == None
      && out.totalEntries == |Collected(raws, maxEntries)|
      && Total(out.severityDistribution) == out.totalEntries
      && (out.resourcesDistribution == [] <==> out.totalEntries == 0)
      && SortedByTime(entries)
    ensures var e := ErrorOutput(message);
      && e.error == Some(message) && e.totalEntries == 0
      && e.severityDistribution == [] && e.resourcesDistribution == [] && e.rawLogs == ""
  {
    var entries := SortByTime(Collected(raws, maxEntries));
    SortPermutes(Collected(raws, maxEntries));
    assert |entries| == |multiset(entries)|;
    SortSorted(Collected(raws, maxEntries));
    SeverityDistribution(entries);
    ResourcesDistribution(entries);
  }
}
