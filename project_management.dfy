/** `ProjectManager`: a project's records on disk, as three directories and a
    metadata file, and the operations that write and read them. */
module ProjectManagement {
  import opened Wrappers
  import opened Strings
  import opened Json
  import opened ProjectRecords
  import opened ProjectSummary
  import opened ProjectContext

  /** The metadata file after the read-modify-write that enters `id` in
      `section`, and what the update raised: on failure the file is left as it was. */
  predicate Logged(before: Option<Doc>, section: string, id: string, touched: int,
                   after: Option<Doc>, outcome: Outcome<Failure>)
    requires section != "last_updated"
  {
    match Touched(before, section, id, touched)
    case Ok(m) => after == Some(Parsed(JObj(m))) && outcome == Done
    case Err(f) => after == before && outcome == Raised(f)
  }

  /** What seeding a new project leaves behind once the seed meeting is
      written: each later record is written only when every metadata update
      before it succeeded, and the metadata holds every update that did. */
  predicate Seeded(before: Option<Doc>, seeds: Seeds, requirements: Dir, logs: Dir, after: Option<Doc>)
  {
    var t1 := Touched(before, "meetings", RecordId(MeetingPrefix, seeds.meeting), seeds.meeting.touched);
    var m1 := if t1.Ok? then Some(Parsed(JObj(t1.value))) else before;
    var t2 := Touched(m1, "requirements", RecordId(RequirementPrefix, seeds.requirement), seeds.requirement.touched);
    var m2 := if t2.Ok? then Some(Parsed(JObj(t2.value))) else m1;
    var t3 := Touched(m2, "milestones", RecordId(MilestonePrefix, seeds.milestone), seeds.milestone.touched);
    && requirements == (if t1.Err? then map[] else
         map[FileName(RecordId(RequirementPrefix, seeds.requirement)) :=
               Parsed(JObj(RequirementRecord(SeedRequirement, seeds.requirement)))])
    && logs == (if t1.Err? || t2.Err? then map[] else
         map[FileName(RecordId(MilestonePrefix, seeds.milestone)) :=
               Parsed(JObj(MilestoneRecord(SeedMilestone, seeds.milestone)))])
    && after == (if t1.Err? then before else if t2.Err? then m1
                 else if t3.Ok? then Some(Parsed(JObj(t3.value))) else m2)
  }

  /** The stamps of the three seed records. */
  datatype Seeds = Seeds(meeting: Stamp, requirement: Stamp, milestone: Stamp)

  const SeedMeeting: Dict := map[
    "participants" := Strs(["Project Lead", "AI Assistant"]),
    "key_discussions" := Strs(["Confidant Project Memory Storage Architecture",
                               "Privacy and Security Mechanisms"]),
    "action_items" := Strs(["Design local encryption strategy",
                            "Create security access control specification"]),
    "decisions" := Strs(["Use end-to-end local encryption",
                         "Implement multi-tier access control"])]

  const SeedRequirement: Dict := map[
    "category" := JStr("Technical Requirements"),
    "changes" := Strs(["Added offline functionality specification",
                       "Enhanced local data privacy requirements"]),
    "rationale" := JStr("Ensure complete user data protection and system independence"),
    "impact" := Strs(["Requires additional local processing capabilities",
                      "Increases system security"])]

  const SeedMilestone: Dict := map[
    "name" := JStr("Initial Architecture Design"),
    "description" := JStr("Complete high-level system design for Confidant project"),
    "status" := JStr("Completed"),
    "key_achievements" := Strs(["Defined memory storage approach",
                                "Outlined security mechanisms",
                                "Created initial system architecture concept"])]

  /** One pass of the `generate_project_summary` loop over a directory listing. */
  method ScanDirectory(dir: Dir, names: seq<string>, milestonesOnly: bool, cutoff: int)
    returns (r: Result<seq<Dict>, Failure>)
    requires forall n :: n in names ==> n in dir
    ensures r == Collect(dir, names, milestonesOnly, cutoff)
  {
    var kept: seq<Dict> := [];
    var i := 0;
    while i < |names|
      invariant 0 <= i <= |names|
      invariant Collect(dir, names[..i], milestonesOnly, cutoff) == Ok(kept)
    {
      var n := names[i];
      assert names[..i + 1][..i] == names[..i];
      if Selected(n, milestonesOnly) {
        var loaded := Load(n, dir[n]);
        if loaded.Err? {
          CollectErrorStops(dir, names, milestonesOnly, cutoff, i + 1);
          return Err(loaded.error);
        }
        if loaded.value.1 > cutoff {
          kept := kept + [loaded.value.0];
        }
      }
      i := i + 1;
    }
    assert names[..|names|] == names;
    r := Ok(kept);
  }

  /** Once a prefix of the listing fails, the whole scan fails the same way. */
  lemma {:induction false} CollectErrorStops(dir: Dir, names: seq<string>, milestonesOnly: bool, cutoff: int, k: nat)
    requires forall n :: n in names ==> n in dir
    requires k <= |names|
    requires Collect(dir, names[..k], milestonesOnly, cutoff).Err?
    ensures Collect(dir, names, milestonesOnly, cutoff) == Collect(dir, names[..k], milestonesOnly, cutoff)
  {
    if k < |names| {
      assert names[..|names| - 1][..k] == names[..k];
      CollectErrorStops(dir, names[..|names| - 1], milestonesOnly, cutoff, k);
    } else {
      assert names[..k] == names;
    }
  }

  /** Once a prefix of the records fails to render, the whole section fails the same way. */
  lemma {:induction false} DatedLinesErrorStops(recs: seq<Dict>, key: string, repr: Json -> string, k: nat)
    requires k <= |recs|
    requires DatedLines(recs[..k], key, repr).Err?
    ensures DatedLines(recs, key, repr) == DatedLines(recs[..k], key, repr)
  {
    if k < |recs| {
      assert recs[..|recs| - 1][..k] == recs[..k];
      DatedLinesErrorStops(recs[..|recs| - 1], key, repr, k);
    } else {
      assert recs[..k] == recs;
    }
  }

  /** Appends one line per record to `text`, as the `context +=` loops do. */
  method AppendDatedLines(text: string, recs: seq<Dict>, key: string, repr: Json -> string)
    returns (r: Result<string, Failure>)
    ensures r == match DatedLines(recs, key, repr)
                 case Err(f) => Err(f)
                 case Ok(ls) => Ok(text + Concat(ls))
  {
    var acc := text;
    ghost var ls: seq<string> := [];
    var i := 0;
    while i < |recs|
      invariant 0 <= i <= |recs|
      invariant DatedLines(recs[..i], key, repr) == Ok(ls)
      invariant acc == text + Concat(ls)
    {
      var line := DatedLine(recs[i], key, repr);
      if line.Err? {
        assert recs[..i + 1][..i] == recs[..i];
        DatedLinesErrorStops(recs, key, repr, i + 1);
        return Err(line.error);
      }
      DatedStep(text, recs, key, i, ls, line.value, repr);
      acc := acc + line.value;
      ls := ls + [line.value];
      i := i + 1;
    }
    assert recs[..|recs|] == recs;
    r := Ok(acc);
  }

  /** One more record whose line can be built extends the lines and the text by that line. */
  lemma DatedStep(text: string, recs: seq<Dict>, key: string, i: int, ls: seq<string>, line: string,
                  repr: Json -> string)
    requires 0 <= i < |recs|
    requires DatedLines(recs[..i], key, repr) == Ok(ls)
    requires DatedLine(recs[i], key, repr) == Ok(line)
    ensures DatedLines(recs[..i + 1], key, repr) == Ok(ls + [line])
    ensures text + Concat(ls + [line]) == text + Concat(ls) + line
  {
    assert recs[..i + 1][..i] == recs[..i];
    AppendLine(text, ls, line);
  }

  /** Appends one line per milestone to `text`, as the last `context +=` loop does. */
  method AppendMilestoneLines(text: string, recs: seq<Dict>, repr: Json -> string) returns (r: string)
    ensures r == text + Concat(MilestoneLines(recs, repr))
  {
    r := text;
    var i := 0;
    while i < |recs|
      invariant 0 <= i <= |recs|
      invariant r == text + Concat(MilestoneLines(recs[..i], repr))
    {
      MilestoneStep(text, recs, i, repr);
      r := r + MilestoneLine(recs[i], repr);
      i := i + 1;
    }
    assert recs[..|recs|] == recs;
  }

  /** One more milestone appends its line after the others. */
  lemma MilestoneStep(text: string, recs: seq<Dict>, i: int, repr: Json -> string)
    requires 0 <= i < |recs|
    ensures text + Concat(MilestoneLines(recs[..i + 1], repr))
         == text + Concat(MilestoneLines(recs[..i], repr)) + MilestoneLine(recs[i], repr)
  {
    assert recs[..i + 1][..i] == recs[..i];
    var sl := MilestoneLines(recs[..i], repr);
    var line := MilestoneLine(recs[i], repr);
    assert MilestoneLines(recs[..i + 1], repr) == sl + [line];
    AppendLine(text, sl, line);
  }

  lemma SectionsAssociate(lead: string, ml: seq<string>, rl: seq<string>, sl: seq<string>)
    ensures lead + Concat(ml) + RequirementsLabel + Concat(rl) + MilestonesLabel + Concat(sl)
         == lead + Sections(ml, rl, sl)
  {
    Associate(lead, Concat(ml), RequirementsLabel, Concat(rl), MilestonesLabel, Concat(sl));
  }

  /** Regrouping six strings, stated over plain variables so that the
      labels' text stays out of the step. */
  lemma Associate(a: string, b: string, c: string, d: string, e: string, f: string)
    ensures a + b + c + d + e + f == a + (b + c + d + e + f)
  {
  }

  class ProjectManager {
    const projectName: string
    /** `project_metadata.json`: absent, or its content. */
    var metadataFile: Option<Doc>
    var meetings: Dir
    var requirements: Dir
    /** The `logs` directory, where milestones are written. */
    var logs: Dir

    /** Opens the project over what is already on disk, writes the initial
        metadata if there is none, and seeds the records of a new project. */
    constructor (projectName: string, metadataFile: Option<Doc>, meetings: Dir, requirements: Dir, logs: Dir,
                 now: int, seeds: Seeds)
      ensures this.projectName == projectName
      ensures this.metadataFile.Some?
      ensures var m0 := if metadataFile.None? then Some(Parsed(JObj(InitialMetadata(projectName, now)))) else metadataFile;
        if meetings != map[] || requirements != map[] || logs != map[] then
          && this.metadataFile == m0
          && this.meetings == meetings && this.requirements == requirements && this.logs == logs
        else
          && this.meetings == map[FileName(RecordId(MeetingPrefix, seeds.meeting)) :=
                                Parsed(JObj(MeetingRecord(SeedMeeting, seeds.meeting)))]
          && Seeded(m0, seeds, this.requirements, this.logs, this.metadataFile)
    {
      this.projectName := projectName;
      this.metadataFile := metadataFile;
      this.meetings := meetings;
      this.requirements := requirements;
      this.logs := logs;
      new;
      InitializeProjectMetadata(now);
      InitializeProjectContext(seeds);
    }

    /** Writes the initial metadata only when no metadata file exists. */
    method InitializeProjectMetadata(now: int)
      modifies this
      ensures metadataFile == if old(metadataFile).None? then Some(Parsed(JObj(InitialMetadata(projectName, now))))
                              else old(metadataFile)
      ensures meetings == old(meetings) && requirements == old(requirements) && logs == old(logs)
    {
      if metadataFile.None? {
        metadataFile := Some(Parsed(JObj(InitialMetadata(projectName, now))));
      }
    }

    /** The read-modify-write of the metadata file: the section is created as
        an empty list when absent, `item` is appended to it and `last_updated`
        refreshed; every other key is kept. */
    method UpdateProjectMetadata(section: string, item: string, touched: int) returns (outcome: Outcome<Failure>)
      requires section != "last_updated"
      modifies this
      ensures Logged(old(metadataFile), section, item, touched, metadataFile, outcome)
      ensures meetings == old(meetings) && requirements == old(requirements) && logs == old(logs)
    {
      if metadataFile.None? {
        return Raised(NoSuchFile("project_metadata.json"));
      }
      if metadataFile.value.Malformed? {
        return Raised(BadJson("project_metadata.json"));
      }
      if !metadataFile.value.value.JObj? {
        return Raised(NotADict("project_metadata.json"));
      }
      var metadata := metadataFile.value.value.fields;
      if section !in metadata {
        metadata := metadata[section := JArr([])];
      }
      if !metadata[section].JArr? {
        return Raised(NotAList(section));
      }
      metadata := metadata[section := JArr(metadata[section].items + [JStr(item)])];
      metadata := metadata["last_updated" := JNum(touched)];
      metadataFile := Some(Parsed(JObj(metadata)));
      outcome := Done;
    }

    /** Writes the meeting's file, then enters it in the metadata. */
    method LogMeeting(details: Dict, s: Stamp) returns (outcome: Outcome<Failure>)
      modifies this
      ensures meetings == old(meetings)[FileName(RecordId(MeetingPrefix, s)) := Parsed(JObj(MeetingRecord(details, s)))]
      ensures requirements == old(requirements) && logs == old(logs)
      ensures Logged(old(metadataFile), "meetings", RecordId(MeetingPrefix, s), s.touched, metadataFile, outcome)
    {
      var id := RecordId(MeetingPrefix, s);
      meetings := meetings[FileName(id) := Parsed(JObj(MeetingRecord(details, s)))];
      outcome := UpdateProjectMetadata("meetings", id, s.touched);
    }

    /** Writes the requirement change's file, then enters it in the metadata. */
    method LogRequirementChange(details: Dict, s: Stamp) returns (outcome: Outcome<Failure>)
      modifies this
      ensures requirements == old(requirements)[FileName(RecordId(RequirementPrefix, s)) := Parsed(JObj(RequirementRecord(details, s)))]
      ensures meetings == old(meetings) && logs == old(logs)
      ensures Logged(old(metadataFile), "requirements", RecordId(RequirementPrefix, s), s.touched, metadataFile, outcome)
    {
      var id := RecordId(RequirementPrefix, s);
      requirements := requirements[FileName(id) := Parsed(JObj(RequirementRecord(details, s)))];
      outcome := UpdateProjectMetadata("requirements", id, s.touched);
    }

    /** Writes the milestone's file into the logs directory, then enters it in the metadata. */
    method LogMilestone(details: Dict, s: Stamp) returns (outcome: Outcome<Failure>)
      modifies this
      ensures logs == old(logs)[FileName(RecordId(MilestonePrefix, s)) := Parsed(JObj(MilestoneRecord(details, s)))]
      ensures meetings == old(meetings) && requirements == old(requirements)
      ensures Logged(old(metadataFile), "milestones", RecordId(MilestonePrefix, s), s.touched, metadataFile, outcome)
    {
      var id := RecordId(MilestonePrefix, s);
      logs := logs[FileName(id) := Parsed(JObj(MilestoneRecord(details, s)))];
      outcome := UpdateProjectMetadata("milestones", id, s.touched);
    }

    /** Scans the three directories in the order `os.listdir` gave. */
    method GenerateProjectSummary(listing: Listing, days: int, now: int) returns (r: Result<Summary, Failure>)
      requires IsListing(listing.meetings, meetings)
      requires IsListing(listing.requirements, requirements)
      requires IsListing(listing.logs, logs)
      ensures r == SummaryOf(projectName, meetings, requirements, logs, listing, days, now)
    {
      var window := Cutoff(now, days);
      if window.Err? {
        return Err(window.error);
      }
      var cutoff := window.value;
      var ms := ScanDirectory(meetings, listing.meetings, false, cutoff);
      if ms.Err? {
        return Err(ms.error);
      }
      var rs := ScanDirectory(requirements, listing.requirements, false, cutoff);
      if rs.Err? {
        return Err(rs.error);
      }
      var ls := ScanDirectory(logs, listing.logs, true, cutoff);
      if ls.Err? {
        return Err(ls.error);
      }
      r := Ok(Summary(projectName, "Last " + IntToString(days) + " days", ms.value, rs.value, ls.value));
    }

    /** The context text over the last `days` days; anything raised becomes
        the error text. The category argument is accepted and not used. */
    method GetRecentContext(category: Option<string>, listing: Listing, days: int, now: int, repr: Json -> string)
      returns (text: string)
      requires IsListing(listing.meetings, meetings)
      requires IsListing(listing.requirements, requirements)
      requires IsListing(listing.logs, logs)
      ensures text == ContextText(SummaryOf(projectName, meetings, requirements, logs, listing, days, now), days, repr)
    {
      var summary := GenerateProjectSummary(listing, days, now);
      if summary.Err? {
        return ErrorText(summary.error);
      }
      var s := summary.value;
      var lead := Header(days) + MeetingsLabel;
      var withMeetings := AppendDatedLines(lead, s.meetings, "key_discussions", repr);
      if withMeetings.Err? {
        return ErrorText(withMeetings.error);
      }
      var withRequirements := AppendDatedLines(withMeetings.value + RequirementsLabel, s.requirementChanges, "changes", repr);
      if withRequirements.Err? {
        return ErrorText(withRequirements.error);
      }
      text := AppendMilestoneLines(withRequirements.value + MilestonesLabel, s.milestones, repr);
      ghost var ml := DatedLines(s.meetings, "key_discussions", repr).value;
      ghost var rl := DatedLines(s.requirementChanges, "changes", repr).value;
      SectionsAssociate(lead, ml, rl, MilestoneLines(s.milestones, repr));
    }

    /** Last 30 days' records filtered by category, or None (`{}`) when the scan raised. */
    method GetCategorySummary(category: string, listing: Listing, now: int, repr: Json -> string)
      returns (r: Option<CategorySummary>)
      requires IsListing(listing.meetings, meetings)
      requires IsListing(listing.requirements, requirements)
      requires IsListing(listing.logs, logs)
      ensures r == CategorySummaryOf(SummaryOf(projectName, meetings, requirements, logs, listing, 30, now), category, repr)
    {
      var summary := GenerateProjectSummary(listing, 30, now);
      if summary.Err? {
        return None;
      }
      var s := summary.value;
      r := Some(CategorySummary(
        FilterByCategory(s.meetings, category, repr),
        FilterByCategory(s.requirementChanges, category, repr),
        FilterByCategory(s.milestones, category, repr)));
    }

    /** Seeds one meeting, one requirement change and one milestone when all
        three record directories are empty, stopping silently at the first
        log that raises; otherwise changes nothing. */
    method InitializeProjectContext(seeds: Seeds)
      modifies this
      ensures old(meetings) != map[] || old(requirements) != map[] || old(logs) != map[] ==>
        && meetings == old(meetings) && requirements == old(requirements) && logs == old(logs)
        && metadataFile == old(metadataFile)
      ensures old(meetings) == map[] && old(requirements) == map[] && old(logs) == map[] ==>
        && meetings == map[FileName(RecordId(MeetingPrefix, seeds.meeting)) :=
                         Parsed(JObj(MeetingRecord(SeedMeeting, seeds.meeting)))]
        && Seeded(old(metadataFile), seeds, requirements, logs, metadataFile)
      ensures old(metadataFile).Some? ==> metadataFile.Some?
    {
      if meetings == map[] && requirements == map[] && logs == map[] {
        var outcome := LogMeeting(SeedMeeting, seeds.meeting);
        if outcome.Raised? {
          return;
        }
        outcome := LogRequirementChange(SeedRequirement, seeds.requirement);
        if outcome.Raised? {
          return;
        }
        outcome := LogMilestone(SeedMilestone, seeds.milestone);
      }
    }
  }
}
