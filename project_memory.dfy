/** `ProjectMemory`: per-category session logs and summaries kept beside a
    project, and the "recent context" text built from the summaries. */
module Memory {
  import opened Wrappers
  import opened Strings
  import opened Json
  import ProjectSummary

  /** One entry of a summary's `sessions` list. */
  datatype Session = Session(timestamp: string, highlights: Json, progress: Json)

  /** A `<category>_summary.json` file, as `update_category_summary` writes it. */
  datatype CategoryRecord = CategoryRecord(
    category: string,
    sessions: seq<Session>,
    keyMilestones: seq<Json>,
    challenges: seq<Json>,
    todo: seq<Json>)

  const NoProgress := "No specific progress noted"
  const SummarySuffix := "_summary.json"
  const ContextHeader := "Recent Project Context:\n"

  function SummaryFile(category: string): string
  {
    category + SummarySuffix
  }

  /** Distinct categories never share a summary file. */
  lemma SummaryFileInjective(a: string, b: string)
    ensures SummaryFile(a) == SummaryFile(b) ==> a == b
  {
    if SummaryFile(a) == SummaryFile(b) {
      assert |a| == |b|;
      assert a == SummaryFile(a)[..|a|] == SummaryFile(b)[..|b|] == b;
    }
  }

  /** Writing one category's summary file leaves what every other category reads. */
  lemma OtherSummariesKept(summaries: map<string, CategoryRecord>, category: string, s: CategoryRecord, other: string)
    requires other != category
    ensures var after := summaries[SummaryFile(category) := s];
      && (SummaryFile(other) in after <==> SummaryFile(other) in summaries)
      && (SummaryFile(other) in summaries ==> after[SummaryFile(other)] == summaries[SummaryFile(other)])
  {
    SummaryFileInjective(other, category);
  }

  function LogFile(timestamp: string, category: string): string
  {
    timestamp + "_" + category + "_log.json"
  }

  /** The details `log_session` writes: the caller's, with `timestamp` and
      `category` overwritten. */
  function Stamped(details: Dict, timestamp: string, category: string): (r: Dict)
    ensures r.Keys == details.Keys + {"timestamp", "category"}
    ensures r["timestamp"] == JStr(timestamp) && r["category"] == JStr(category)
    ensures forall k :: k in details && k != "timestamp" && k != "category" ==> r[k] == details[k]
  {
    details["timestamp" := JStr(timestamp)]["category" := JStr(category)]
  }

  /** A timestamp the caller supplies is text, as `log_session` always makes it. */
  predicate TimestampIsText(details: Dict)
  {
    "timestamp" in details ==> details["timestamp"].JStr?
  }

  /** The session entry recorded for `details`; `now` stands in for a
      missing timestamp. */
  function Entry(details: Dict, now: string): Session
    requires TimestampIsText(details)
  {
    Session(
      if "timestamp" in details then details["timestamp"].s else now,
      Get(details, "highlights", JArr([])),
      Get(details, "progress", JStr(NoProgress)))
  }

  /** The summary of a category nobody has logged yet. */
  function Fresh(category: string): CategoryRecord
  {
    CategoryRecord(category, [], [], [], [])
  }

  /** `list.extend(details[key])` is possible: the key is absent, or its value iterates. */
  predicate Extendable(details: Dict, key: string)
  {
    key !in details || Iterated(details[key]).Some?
  }

  /** What `details[key]` adds to its list: nothing when the key is absent. */
  function Added(details: Dict, key: string): seq<Json>
  {
    if key in details && Iterated(details[key]).Some? then Iterated(details[key]).value else []
  }

  /** `update_category_summary` on the summary found on disk (if any): one
      session appended, then the milestone, challenge and todo lists extended
      in that order; the first value that cannot be iterated raises. */
  function Updated(existing: Option<CategoryRecord>, category: string, details: Dict, now: string)
    : (r: Result<CategoryRecord, Failure>)
    requires TimestampIsText(details)
    ensures r.Ok? <==>
      Extendable(details, "milestones") && Extendable(details, "challenges") && Extendable(details, "todo")
    ensures r.Err? ==> r.error == NotIterable(
      if !Extendable(details, "milestones") then "milestones"
      else if !Extendable(details, "challenges") then "challenges" else "todo")
    ensures r.Ok? ==>
      var base := if existing.Some? then existing.value else Fresh(category);
      && r.value.category == base.category
      && r.value.sessions == base.sessions + [Entry(details, now)]
      && r.value.keyMilestones == base.keyMilestones + Added(details, "milestones")
      && r.value.challenges == base.challenges + Added(details, "challenges")
      && r.value.todo == base.todo + Added(details, "todo")
  {
    var base := if existing.Some? then existing.value else Fresh(category);
    var logged := base.(sessions := base.sessions + [Entry(details, now)]);
    if !Extendable(details, "milestones") then Err(NotIterable("milestones"))
    else if !Extendable(details, "challenges") then Err(NotIterable("challenges"))
    else if !Extendable(details, "todo") then Err(NotIterable("todo"))
    else Ok(logged.(keyMilestones := logged.keyMilestones + Added(details, "milestones"),
                    challenges := logged.challenges + Added(details, "challenges"),
                    todo := logged.todo + Added(details, "todo")))
  }

  /** A key the session does not carry leaves its list as it was. */
  lemma AbsentKeyLeavesList(existing: CategoryRecord, category: string, details: Dict, now: string)
    requires TimestampIsText(details)
    requires "milestones" !in details && "challenges" !in details && "todo" !in details
    ensures Updated(Some(existing), category, details, now)
         == Ok(existing.(sessions := existing.sessions + [Entry(details, now)]))
  {
    assert existing.keyMilestones + [] == existing.keyMilestones;
    assert existing.challenges + [] == existing.challenges;
    assert existing.todo + [] == existing.todo;
  }

  // ---------------------------------------------------------------------
  // Selecting recent sessions

  /** Every summary file `os.listdir` named and the loop opens exists. */
  predicate Readable(summaries: map<string, CategoryRecord>, names: seq<string>)
  {
    forall i :: 0 <= i < |names| && EndsWith(names[i], SummarySuffix) ==> names[i] in summaries
  }

  /** The sessions of every summary file in `names`, in listing order. */
  function Merged(summaries: map<string, CategoryRecord>, names: seq<string>): seq<Session>
    requires Readable(summaries, names)
  {
    if names == [] then []
    else
      var last := names[|names| - 1];
      Merged(summaries, names[..|names| - 1])
      + (if EndsWith(last, SummarySuffix) then summaries[last].sessions else [])
  }

  /** Scanning one more directory entry appends its sessions when it names a summary file. */
  lemma MergedStep(summaries: map<string, CategoryRecord>, names: seq<string>, i: int)
    requires Readable(summaries, names)
    requires 0 <= i < |names|
    ensures Readable(summaries, names[..i]) && Readable(summaries, names[..i + 1])
    ensures Merged(summaries, names[..i + 1])
         == Merged(summaries, names[..i]) + (if EndsWith(names[i], SummarySuffix) then summaries[names[i]].sessions else [])
  {
    assert names[..i + 1][..i] == names[..i];
  }

  lemma {:induction false} MergedSound(summaries: map<string, CategoryRecord>, names: seq<string>, x: Session)
    requires Readable(summaries, names)
    requires x in Merged(summaries, names)
    ensures exists n :: n in names && EndsWith(n, SummarySuffix) && x in summaries[n].sessions
  {
    var last := names[|names| - 1];
    var front := names[..|names| - 1];
    if x in Merged(summaries, front) {
      MergedSound(summaries, front, x);
      var n :| n in front && EndsWith(n, SummarySuffix) && x in summaries[n].sessions;
      assert n in names;
    } else {
      assert last in names;
    }
  }

  lemma {:induction false} MergedComplete(summaries: map<string, CategoryRecord>, names: seq<string>,
                                          n: string, x: Session)
    requires Readable(summaries, names)
    requires n in names && EndsWith(n, SummarySuffix) && x in summaries[n].sessions
    ensures x in Merged(summaries, names)
  {
    var front := names[..|names| - 1];
    if n != names[|names| - 1] {
      assert n in front;
      MergedComplete(summaries, front, n, x);
    }
  }

  /** The sessions `get_recent_context` chooses from: one category's when a
      non-empty category is given, otherwise every summary's. */
  function Pool(summaries: map<string, CategoryRecord>, names: seq<string>, category: Option<string>)
    : seq<Session>
    requires Readable(summaries, names)
  {
    if category.Some? && category.value != "" then
      (if SummaryFile(category.value) in summaries then summaries[SummaryFile(category.value)].sessions else [])
    else Merged(summaries, names)
  }

  /** Newest first by timestamp text. */
  predicate NewestFirst(ss: seq<Session>)
  {
    forall i :: 0 < i < |ss| ==> AtLeast(ss[i - 1].timestamp, ss[i].timestamp)
  }

  /** Places `x` before the first session it is at least as new as. */
  function Insert(x: Session, ss: seq<Session>): seq<Session>
  {
    if ss == [] || AtLeast(x.timestamp, ss[0].timestamp) then [x] + ss
    else [ss[0]] + Insert(x, ss[1..])
  }

  /** `sorted(sessions, key=timestamp, reverse=True)`: an insertion sort
      that, like Python's, keeps equal timestamps in their original order. */
  function SortNewestFirst(ss: seq<Session>): seq<Session>
  {
    if ss == [] then [] else Insert(ss[0], SortNewestFirst(ss[1..]))
  }

  lemma {:induction false} InsertShape(x: Session, ss: seq<Session>)
    ensures multiset(Insert(x, ss)) == multiset(ss) + multiset{x}
    ensures Insert(x, ss)[0] == x || (ss != [] && Insert(x, ss)[0] == ss[0])
    ensures NewestFirst(ss) ==> NewestFirst(Insert(x, ss))
  {
    if ss == [] || AtLeast(x.timestamp, ss[0].timestamp) {
    } else {
      var rest := Insert(x, ss[1..]);
      InsertShape(x, ss[1..]);
      assert ss == [ss[0]] + ss[1..];
      BelowAsymmetric(x.timestamp, ss[0].timestamp);
      if NewestFirst(ss) {
        assert NewestFirst(ss[1..]) by {
          forall i | 0 < i < |ss[1..]|
            ensures AtLeast(ss[1..][i - 1].timestamp, ss[1..][i].timestamp)
          {
            assert ss[1..][i - 1] == ss[i] && ss[1..][i] == ss[i + 1];
          }
        }
        assert AtLeast(ss[0].timestamp, rest[0].timestamp);
        forall i | 0 < i < |[ss[0]] + rest|
          ensures AtLeast(([ss[0]] + rest)[i - 1].timestamp, ([ss[0]] + rest)[i].timestamp)
        {
          if i > 1 {
            assert ([ss[0]] + rest)[i - 1] == rest[i - 2] && ([ss[0]] + rest)[i] == rest[i - 1];
          }
        }
      }
    }
  }

  lemma {:induction false} SortShape(ss: seq<Session>)
    ensures multiset(SortNewestFirst(ss)) == multiset(ss)
    ensures NewestFirst(SortNewestFirst(ss))
  {
    if ss != [] {
      assert ss == [ss[0]] + ss[1..];
      var rest := SortNewestFirst(ss[1..]);
      assert SortNewestFirst(ss) == Insert(ss[0], rest);
      SortShape(ss[1..]);
      InsertShape(ss[0], rest);
    }
  }

  /** In a newest-first list every session is at least as new as any later one. */
  lemma {:induction false} NewestFirstPairwise(ss: seq<Session>, i: int, j: int)
    requires NewestFirst(ss) && 0 <= i <= j < |ss|
    ensures AtLeast(ss[i].timestamp, ss[j].timestamp)
    decreases j - i
  {
    if i == j {
      BelowIrreflexive(ss[i].timestamp);
    } else {
      NewestFirstPairwise(ss, i + 1, j);
      AtLeastTransitive(ss[i].timestamp, ss[i + 1].timestamp, ss[j].timestamp);
    }
  }

  /** `ss[:n]`: a negative `n` drops `-n` items from the end. */
  function Take(ss: seq<Session>, n: int): (r: seq<Session>)
    ensures |r| == if n >= 0 then (if n < |ss| then n else |ss|) else (if |ss| + n > 0 then |ss| + n else 0)
    ensures r == ss[..|r|]
  {
    if n >= |ss| then ss
    else if n >= 0 then ss[..n]
    else if |ss| + n > 0 then ss[..|ss| + n]
    else []
  }

  /** The sessions `get_recent_context` reports, newest first. */
  function Recent(pool: seq<Session>, n: int): seq<Session>
  {
    Take(SortNewestFirst(pool), n)
  }

  /** The report holds at most `n` sessions (all of them when there are
      fewer), newest first, each taken from the pool. */
  lemma RecentShape(pool: seq<Session>, n: int)
    ensures n >= 0 ==> |Recent(pool, n)| == if n < |pool| then n else |pool|
    ensures NewestFirst(Recent(pool, n))
    ensures multiset(Recent(pool, n)) <= multiset(pool)
  {
    var sorted := SortNewestFirst(pool);
    SortShape(pool);
    var r := Recent(pool, n);
    assert sorted == r + sorted[|r|..];
    assert multiset(sorted) == multiset(r) + multiset(sorted[|r|..]);
    assert |multiset(sorted)| == |multiset(pool)|;
  }

  /** No session left out of the report is newer than one in it. */
  lemma RecentKeepsNewest(pool: seq<Session>, n: int, x: Session, i: int)
    requires x in multiset(pool) - multiset(Recent(pool, n))
    requires 0 <= i < |Recent(pool, n)|
    ensures AtLeast(Recent(pool, n)[i].timestamp, x.timestamp)
  {
    var sorted := SortNewestFirst(pool);
    SortShape(pool);
    var r := Recent(pool, n);
    assert sorted == r + sorted[|r|..];
    assert multiset(sorted) == multiset(r) + multiset(sorted[|r|..]);
    assert x in multiset(sorted[|r|..]);
    var j :| |r| <= j < |sorted| && sorted[j] == x by {
      assert x in sorted[|r|..];
      var k :| 0 <= k < |sorted[|r|..]| && sorted[|r|..][k] == x;
      assert sorted[|r| + k] == x;
    }
    NewestFirstPairwise(sorted, i, j);
  }

  // ---------------------------------------------------------------------
  // Rendering

  /** One report line: the session's timestamp and its progress note. */
  function Line(s: Session, repr: Json -> string): string
  {
    Bullet(s.timestamp, Text(s.progress, repr))
  }

  function Lines(recent: seq<Session>, repr: Json -> string): (r: seq<string>)
    ensures |r| == |recent|
    ensures forall i :: 0 <= i < |r| ==> r[i] == Line(recent[i], repr)
  {
    seq(|recent|, i requires 0 <= i < |recent| => Line(recent[i], repr))
  }

  /** The report: the heading, then exactly one line per reported session, in order. */
  function ReportText(recent: seq<Session>, repr: Json -> string): string
  {
    ContextHeader + Concat(Lines(recent, repr))
  }

  /** The report opens with its heading, and each added session adds its own line after the rest. */
  lemma ReportTextShape(recent: seq<Session>, s: Session, repr: Json -> string)
    ensures ReportText([], repr) == ContextHeader
    ensures StartsWith(ReportText(recent, repr), ContextHeader)
    ensures ReportText(recent + [s], repr) == ReportText(recent, repr) + Line(s, repr)
  {
    StartsWithConcat(ContextHeader, Concat(Lines(recent, repr)));
    assert Lines(recent + [s], repr) == Lines(recent, repr) + [Line(s, repr)];
    ConcatSnoc(Lines(recent, repr), Line(s, repr));
  }

  /** Reporting one more session of `recent` adds that session's line. */
  lemma ReportTextStep(recent: seq<Session>, j: int, repr: Json -> string)
    requires 0 <= j < |recent|
    ensures ReportText(recent[..j + 1], repr) == ReportText(recent[..j], repr) + Line(recent[j], repr)
  {
    assert recent[..j + 1] == recent[..j] + [recent[j]];
    ReportTextShape(recent[..j], recent[j], repr);
  }

  /** The loop that renders the report: the heading, then one line per session. */
  method RenderRecent(recent: seq<Session>, repr: Json -> string) returns (text: string)
    ensures text == ReportText(recent, repr)
  {
    text := ContextHeader;
    for j := 0 to |recent|
      invariant text == ReportText(recent[..j], repr)
    {
      ReportTextStep(recent, j, repr);
      text := text + Line(recent[j], repr);
    }
    assert recent[..|recent|] == recent;
  }

  /** Session logs and category summaries, as the two directories under
      `.project_memory`: file name to the dictionary it holds. */
  class ProjectMemory {
    var logs: map<string, Dict>
    var summaries: map<string, CategoryRecord>

    /** The directories are created when absent and otherwise kept as they are. */
    constructor (logs: map<string, Dict>, summaries: map<string, CategoryRecord>)
      ensures this.logs == logs && this.summaries == summaries
    {
      this.logs := logs;
      this.summaries := summaries;
    }

    /** `get_category_summary`: the stored summary, or nothing (`{}`) when the
        category has none. */
    function GetCategorySummary(category: string): (r: Option<CategoryRecord>)
      reads this`summaries
      ensures r.Some? <==> SummaryFile(category) in summaries
      ensures r.Some? ==> r.value == summaries[SummaryFile(category)] && r.value in summaries.Values
    {
      if SummaryFile(category) in summaries then Some(summaries[SummaryFile(category)]) else None
    }

    /** `update_category_summary`: read the category's summary (or start a
        fresh one), extend it and write it back; when an extension raises,
        nothing is written. */
    method UpdateCategorySummary(category: string, details: Dict, now: string)
      returns (outcome: Outcome<Failure>)
      requires TimestampIsText(details)
      modifies this
      ensures logs == old(logs)
      ensures match Updated(old(GetCategorySummary(category)), category, details, now)
        case Ok(s) => summaries == old(summaries)[SummaryFile(category) := s] && outcome == Done
        case Err(f) => summaries == old(summaries) && outcome == Raised(f)
      ensures outcome == Done ==>
        GetCategorySummary(category) == Some(Updated(old(GetCategorySummary(category)), category, details, now).value)
      ensures forall c :: c != category ==> GetCategorySummary(c) == old(GetCategorySummary(c))
    {
      var path := SummaryFile(category);
      var summary := if path in summaries then summaries[path] else Fresh(category);
      ghost var base := summary;
      summary := summary.(sessions := summary.sessions + [Entry(details, now)]);
      if "milestones" in details {
        var more := Iterated(details["milestones"]);
        if more.None? {
          return Raised(NotIterable("milestones"));
        }
        summary := summary.(keyMilestones := summary.keyMilestones + more.value);
      }
      if "challenges" in details {
        var more := Iterated(details["challenges"]);
        if more.None? {
          return Raised(NotIterable("challenges"));
        }
        summary := summary.(challenges := summary.challenges + more.value);
      }
      if "todo" in details {
        var more := Iterated(details["todo"]);
        if more.None? {
          return Raised(NotIterable("todo"));
        }
        summary := summary.(todo := summary.todo + more.value);
      }
      assert summary.keyMilestones == base.keyMilestones + Added(details, "milestones");
      assert summary.challenges == base.challenges + Added(details, "challenges");
      assert summary.todo == base.todo + Added(details, "todo");
      forall c | c != category {
        OtherSummariesKept(summaries, category, summary, c);
      }
      summaries := summaries[path := summary];
      outcome := Done;
    }

    /** `log_session`: stamp the details, write them to their own log file,
        then fold them into the category summary. The stamped details are
        returned, where the source updates the caller's dictionary. */
    method LogSession(category: string, details: Dict, timestamp: string)
      returns (written: Dict, outcome: Outcome<Failure>)
      modifies this
      ensures written == Stamped(details, timestamp, category)
      ensures logs == old(logs)[LogFile(timestamp, category) := written]
      ensures match Updated(old(GetCategorySummary(category)), category, written, timestamp)
        case Ok(s) => summaries == old(summaries)[SummaryFile(category) := s] && outcome == Done
        case Err(f) => summaries == old(summaries) && outcome == Raised(f)
      ensures outcome == Done ==>
        GetCategorySummary(category) == Some(Updated(old(GetCategorySummary(category)), category, written, timestamp).value)
      ensures forall c :: c != category ==> GetCategorySummary(c) == old(GetCategorySummary(c))
    {
      written := details["timestamp" := JStr(timestamp)]["category" := JStr(category)];
      logs := logs[LogFile(timestamp, category) := written];
      outcome := UpdateCategorySummary(category, written, timestamp);
    }

    /** `get_recent_context`: gather the candidate sessions, pick the
        `numSessions` newest and render one line each. `names` is the
        summaries directory as `os.listdir` enumerated it. */
    method GetRecentContext(category: Option<string>, names: seq<string>, repr: Json -> string,
                            numSessions: int := 3)
      returns (text: string)
      requires ProjectSummary.IsListing(names, summaries)
      ensures Readable(summaries, names)
      ensures text == ReportText(Recent(Pool(summaries, names, category), numSessions), repr)
    {
      assert Readable(summaries, names) by {
        forall i | 0 <= i < |names| ensures names[i] in summaries {
          assert names[i] in names;
        }
      }
      var pool: seq<Session> := [];
      if category.Some? && category.value != "" {
        var found := GetCategorySummary(category.value);
        if found.Some? {
          pool := found.value.sessions;
        }
      } else {
        pool := MergeSummaries(names);
      }
      text := RenderRecent(Recent(pool, numSessions), repr);
    }

    /** The loop over the summaries directory: the sessions of every
        `_summary.json` file, in listing order. */
    method MergeSummaries(names: seq<string>) returns (pool: seq<Session>)
      requires Readable(summaries, names)
      ensures pool == Merged(summaries, names)
    {
      pool := [];
      var i := 0;
      while i < |names|
        invariant 0 <= i <= |names|
        invariant pool == Merged(summaries, names[..i])
      {
        MergedStep(summaries, names, i);
        if EndsWith(names[i], SummarySuffix) {
          pool := pool + summaries[names[i]].sessions;
        }
        i := i + 1;
      }
      assert names[..|names|] == names;
    }
  }

  /** A session just logged under a category is among that category's
      candidates afterwards. */
  lemma LoggedSessionIsCandidate(summaries: map<string, CategoryRecord>, names: seq<string>,
                                 category: string, details: Dict, now: string)
    requires TimestampIsText(details)
    requires category != ""
    requires Readable(summaries, names)
    requires Updated(if SummaryFile(category) in summaries then Some(summaries[SummaryFile(category)]) else None,
                     category, details, now).Ok?
    ensures
      var s := Updated(if SummaryFile(category) in summaries then Some(summaries[SummaryFile(category)]) else None,
                       category, details, now).value;
      Readable(summaries[SummaryFile(category) := s], names)
      && Entry(details, now) in Pool(summaries[SummaryFile(category) := s], names, Some(category))
  {
  }
}
