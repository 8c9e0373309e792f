/** What `generate_project_summary`, `get_recent_context` and
    `get_category_summary` compute, as functions of the record directories. */
module ProjectSummary {
  import opened Wrappers
  import opened Strings
  import opened Json
  import opened Subsequence
  import opened ProjectRecords

  /** A directory: file name to file content. */
  type Dir = map<string, Doc>

  /** `names` is what `os.listdir` returned for `dir`: every file exactly
      once, in an order nobody promises. */
  ghost predicate IsListing<V>(names: seq<string>, dir: map<string, V>)
  {
    && (forall n :: n in names <==> n in dir)
    && (forall i, j :: 0 <= i < j < |names| ==> names[i] != names[j])
  }

  /** The order in which `os.listdir` enumerated each of the three record directories. */
  datatype Listing = Listing(meetings: seq<string>, requirements: seq<string>, logs: seq<string>)

  /** Meetings and requirement changes are read from every `.json` file;
      milestones only from `.json` files whose name starts with `milestone_`. */
  predicate Selected(name: string, milestonesOnly: bool)
  {
    EndsWith(name, ".json") && (!milestonesOnly || StartsWith(name, "milestone_"))
  }

  /** `json.load` the file, then `datetime.fromisoformat(record['date'])`. */
  function Load(name: string, doc: Doc): (r: Result<(Dict, int), Failure>)
    ensures r.Ok? <==> doc.Parsed? && doc.value.JObj? && "date" in doc.value.fields && doc.value.fields["date"].JNum?
    ensures r.Ok? ==> r.value == (doc.value.fields, doc.value.fields["date"].n)
  {
    match doc
    case Malformed => Err(BadJson(name))
    case Parsed(j) =>
      if !j.JObj? then Err(NotADict(name))
      else if "date" !in j.fields then Err(MissingKey("date"))
      else if !j.fields["date"].JNum? then Err(BadIsoDate(name))
      else Ok((j.fields, j.fields["date"].n))
  }

  /** The instant `now - timedelta(days=days)`. Building the delta raises
      `OverflowError` beyond 999999999 days, and so does a difference that
      falls outside `datetime.min`..`datetime.max`. */
  function Cutoff(now: int, days: int): (r: Result<int, Failure>)
    ensures r.Ok? <==> -MaxDeltaDays <= days <= MaxDeltaDays && 0 <= now - days * TicksPerDay <= MaxInstant
    ensures r.Ok? ==> r.value + days * TicksPerDay == now
    ensures 0 <= now <= MaxInstant && 0 <= days && days * TicksPerDay <= now ==> r.Ok? && r.value <= now
  {
    if days < -MaxDeltaDays || MaxDeltaDays < days then Err(DaysTooLarge(days))
    else
      var cutoff := now - days * TicksPerDay;
      if cutoff < 0 || MaxInstant < cutoff then Err(DateOutOfRange) else Ok(cutoff)
  }

  /** One directory scan: the records of the selected files, in listing order,
      whose date is strictly after the cutoff. The first file that cannot be
      loaded aborts the scan with its exception. */
  function Collect(dir: Dir, names: seq<string>, milestonesOnly: bool, cutoff: int): Result<seq<Dict>, Failure>
    requires forall n :: n in names ==> n in dir
  {
    if names == [] then Ok([])
    else
      var n := names[|names| - 1];
      match Collect(dir, names[..|names| - 1], milestonesOnly, cutoff)
      case Err(f) => Err(f)
      case Ok(kept) =>
        if !Selected(n, milestonesOnly) then Ok(kept)
        else match Load(n, dir[n])
          case Err(f) => Err(f)
          case Ok(loaded) => Ok(if loaded.1 > cutoff then kept + [loaded.0] else kept)
  }

  /** A scan fails exactly when some selected file cannot be loaded; the
      window plays no part. */
  lemma {:induction false} CollectFailsIff(dir: Dir, names: seq<string>, milestonesOnly: bool, cutoff: int)
    requires forall n :: n in names ==> n in dir
    ensures Collect(dir, names, milestonesOnly, cutoff).Err? <==>
      exists i :: 0 <= i < |names| && Selected(names[i], milestonesOnly) && Load(names[i], dir[names[i]]).Err?
  {
    if names != [] {
      var init := names[..|names| - 1];
      CollectFailsIff(dir, init, milestonesOnly, cutoff);
      assert forall i :: 0 <= i < |init| ==> init[i] == names[i];
    }
  }

  /** Every collected record comes from a selected, listed file and is dated
      strictly after the cutoff: a record dated exactly at the cutoff is left out. */
  lemma {:induction false} CollectSound(dir: Dir, names: seq<string>, milestonesOnly: bool, cutoff: int, rec: Dict)
    requires forall n :: n in names ==> n in dir
    requires Collect(dir, names, milestonesOnly, cutoff).Ok?
    requires rec in Collect(dir, names, milestonesOnly, cutoff).value
    ensures exists n :: n in names && Selected(n, milestonesOnly) && dir[n] == Parsed(JObj(rec))
    ensures "date" in rec && rec["date"].JNum? && rec["date"].n > cutoff
  {
    var init := names[..|names| - 1];
    var n := names[|names| - 1];
    var kept := Collect(dir, init, milestonesOnly, cutoff).value;
    if rec in kept {
      CollectSound(dir, init, milestonesOnly, cutoff, rec);
      var m :| m in init && Selected(m, milestonesOnly) && dir[m] == Parsed(JObj(rec));
      assert m in names;
    } else {
      assert n in names;
    }
  }

  /** Every selected, listed record dated strictly after the cutoff is collected. */
  lemma {:induction false} CollectComplete(dir: Dir, names: seq<string>, milestonesOnly: bool, cutoff: int, n: string, rec: Dict)
    requires forall m :: m in names ==> m in dir
    requires Collect(dir, names, milestonesOnly, cutoff).Ok?
    requires n in names && Selected(n, milestonesOnly) && dir[n] == Parsed(JObj(rec))
    requires "date" in rec && rec["date"].JNum? && rec["date"].n > cutoff
    ensures rec in Collect(dir, names, milestonesOnly, cutoff).value
  {
    var init := names[..|names| - 1];
    if n != names[|names| - 1] {
      assert n in init;
      CollectComplete(dir, init, milestonesOnly, cutoff, n, rec);
    }
  }

  /** Widening the window (an earlier cutoff) fails alike and keeps every
      record of the narrower window, in the same order. */
  lemma {:induction false} CollectMonotone(dir: Dir, names: seq<string>, milestonesOnly: bool, narrow: int, wide: int)
    requires forall n :: n in names ==> n in dir
    requires wide <= narrow
    ensures Collect(dir, names, milestonesOnly, narrow).Ok? <==> Collect(dir, names, milestonesOnly, wide).Ok?
    ensures Collect(dir, names, milestonesOnly, narrow).Ok? ==>
      IsSubseq(Collect(dir, names, milestonesOnly, narrow).value, Collect(dir, names, milestonesOnly, wide).value)
  {
    if names == [] {
    } else {
      var init := names[..|names| - 1];
      var n := names[|names| - 1];
      CollectMonotone(dir, init, milestonesOnly, narrow, wide);
      if Collect(dir, init, milestonesOnly, narrow).Ok? && Selected(n, milestonesOnly) && Load(n, dir[n]).Ok? {
        var a := Collect(dir, init, milestonesOnly, narrow).value;
        var b := Collect(dir, init, milestonesOnly, wide).value;
        var loaded := Load(n, dir[n]).value;
        if loaded.1 > narrow {
          SubseqExtendBoth(a, b, loaded.0);
        } else if loaded.1 > wide {
          SubseqExtendRight(a, b, loaded.0);
        }
      }
    }
  }

  /** The summary `generate_project_summary` returns. */
  datatype Summary = Summary(
    projectName: string,
    period: string,
    meetings: seq<Dict>,
    requirementChanges: seq<Dict>,
    milestones: seq<Dict>)

  /** Meetings, then requirement changes, then milestones: the first scan that
      fails decides the exception. */
  function SummaryOf(projectName: string, meetings: Dir, requirements: Dir, logs: Dir,
                     listing: Listing, days: int, now: int): Result<Summary, Failure>
    requires forall n :: n in listing.meetings ==> n in meetings
    requires forall n :: n in listing.requirements ==> n in requirements
    requires forall n :: n in listing.logs ==> n in logs
  {
    match Cutoff(now, days)
    case Err(f) => Err(f)
    case Ok(cutoff) =>
      match Collect(meetings, listing.meetings, false, cutoff)
      case Err(f) => Err(f)
      case Ok(ms) =>
        match Collect(requirements, listing.requirements, false, cutoff)
        case Err(f) => Err(f)
        case Ok(rs) =>
          match Collect(logs, listing.logs, true, cutoff)
          case Err(f) => Err(f)
          case Ok(ls) => Ok(Summary(projectName, "Last " + IntToString(days) + " days", ms, rs, ls))
  }

  /** A longer window yields a summary that keeps every record of a shorter
      one, as long as both cutoffs are instants `datetime` can represent; a
      window of no more days than the clock's own distance from `datetime.min`
      always is, and a shorter non-negative window fits whenever a longer one does. */
  lemma WindowMonotone(projectName: string, meetings: Dir, requirements: Dir, logs: Dir,
                       listing: Listing, shorter: int, longer: int, now: int)
    requires forall n :: n in listing.meetings ==> n in meetings
    requires forall n :: n in listing.requirements ==> n in requirements
    requires forall n :: n in listing.logs ==> n in logs
    requires shorter <= longer
    ensures 0 <= shorter && now <= MaxInstant && Cutoff(now, longer).Ok? ==> Cutoff(now, shorter).Ok?
    ensures Cutoff(now, shorter).Ok? && Cutoff(now, longer).Ok? ==>
      var a := SummaryOf(projectName, meetings, requirements, logs, listing, shorter, now);
      var b := SummaryOf(projectName, meetings, requirements, logs, listing, longer, now);
      && (a.Ok? <==> b.Ok?)
      && (a.Ok? ==>
           && IsSubseq(a.value.meetings, b.value.meetings)
           && IsSubseq(a.value.requirementChanges, b.value.requirementChanges)
           && IsSubseq(a.value.milestones, b.value.milestones))
  {
    assert shorter * TicksPerDay <= longer * TicksPerDay;
    if Cutoff(now, shorter).Ok? && Cutoff(now, longer).Ok? {
      var narrow, wide := Cutoff(now, shorter).value, Cutoff(now, longer).value;
      CollectMonotone(meetings, listing.meetings, false, narrow, wide);
      CollectMonotone(requirements, listing.requirements, false, narrow, wide);
      CollectMonotone(logs, listing.logs, true, narrow, wide);
    }
  }

  /** A milestone logged after the cutoff shows up in the scan of the logs
      directory: its file name passes the milestone filter and its date is read back. */
  lemma LoggedMilestoneIsCollected(details: Dict, s: Stamp, logs: Dir, names: seq<string>, cutoff: int)
    requires WellFormed(s)
    requires IsListing(names, logs)
    requires FileName(RecordId(MilestonePrefix, s)) in logs
    requires logs[FileName(RecordId(MilestonePrefix, s))] == Parsed(JObj(MilestoneRecord(details, s)))
    requires s.date > cutoff
    requires Collect(logs, names, true, cutoff).Ok?
    ensures MilestoneRecord(details, s) in Collect(logs, names, true, cutoff).value
  {
    RecordIdShape(MilestonePrefix, s);
    CollectComplete(logs, names, true, cutoff, FileName(RecordId(MilestonePrefix, s)), MilestoneRecord(details, s));
  }

  /** A meeting logged after the cutoff shows up in the scan of the meetings directory. */
  lemma LoggedMeetingIsCollected(details: Dict, s: Stamp, meetings: Dir, names: seq<string>, cutoff: int)
    requires WellFormed(s)
    requires IsListing(names, meetings)
    requires FileName(RecordId(MeetingPrefix, s)) in meetings
    requires meetings[FileName(RecordId(MeetingPrefix, s))] == Parsed(JObj(MeetingRecord(details, s)))
    requires s.date > cutoff
    requires Collect(meetings, names, false, cutoff).Ok?
    ensures MeetingRecord(details, s) in Collect(meetings, names, false, cutoff).value
  {
    RecordIdShape(MeetingPrefix, s);
    CollectComplete(meetings, names, false, cutoff, FileName(RecordId(MeetingPrefix, s)), MeetingRecord(details, s));
  }
}
