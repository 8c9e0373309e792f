/** The records the project manager writes: their identifiers, file names,
    fields with their defaults, and the metadata index they are entered in. */
module ProjectRecords {
  import opened Wrappers
  import opened Strings
  import opened Json

  /** Ticks per day: instants are counted in microseconds, the resolution of
      `datetime.isoformat()`, from `datetime.min` (0001-01-01T00:00:00). */
  const TicksPerDay: int := 86_400_000_000

  /** `datetime.max`, 9999-12-31T23:59:59.999999: the last microsecond of
      day 3652059. */
  const MaxInstant: int := 3_652_059 * TicksPerDay - 1

  /** The largest magnitude `timedelta` accepts for its days. */
  const MaxDeltaDays: int := 999_999_999

  /** What one log call takes from the clock and from `uuid4`: the
      `strftime("%Y%m%d_%H%M%S")` text, the instant `datetime.now()` that
      becomes the record's `date`, the instant the metadata's `last_updated`
      is refreshed to, and the first eight hex digits of a random UUID. */
  datatype Stamp = Stamp(time: string, date: int, touched: int, hex: string)

  predicate IsHexDigit(c: char)
  {
    '0' <= c <= '9' || 'a' <= c <= 'f'
  }

  /** `uuid4().hex[:8]` is always eight lower-case hex digits. */
  predicate WellFormed(s: Stamp)
  {
    |s.hex| == 8 && forall i :: 0 <= i < 8 ==> IsHexDigit(s.hex[i])
  }

  const MeetingPrefix := "meeting_"
  const RequirementPrefix := "requirement_"
  const MilestonePrefix := "milestone_"

  /** `f"{kind}_{timestamp}_{uuid4().hex[:8]}"` */
  function RecordId(prefix: string, s: Stamp): string
  {
    prefix + s.time + "_" + s.hex
  }

  /** A record is stored in a file named after its identifier. */
  function FileName(id: string): string
  {
    id + ".json"
  }

  lemma RecordIdShape(prefix: string, s: Stamp)
    requires WellFormed(s)
    ensures var id := RecordId(prefix, s);
      && StartsWith(id, prefix)
      && EndsWith(id, "_" + s.hex)
      && |id| == |prefix| + |s.time| + 9
      && StartsWith(FileName(id), prefix)
      && EndsWith(FileName(id), ".json")
  {
    var id := RecordId(prefix, s);
    assert id[..|prefix|] == prefix;
    assert id[|id| - 9..] == "_" + s.hex;
    assert FileName(id)[..|prefix|] == prefix;
    assert FileName(id)[|FileName(id)| - 5..] == ".json";
  }

  /** Two identifiers of one kind coincide only when both the second-precision
      time and the random suffix coincide. */
  lemma RecordIdInjective(prefix: string, s1: Stamp, s2: Stamp)
    requires WellFormed(s1) && WellFormed(s2)
    requires RecordId(prefix, s1) == RecordId(prefix, s2)
    ensures s1.time == s2.time && s1.hex == s2.hex
  {
    var id := RecordId(prefix, s1);
    assert |s1.time| == |s2.time|;
    assert s1.hex == id[|id| - 8..] == s2.hex;
    assert s1.time == id[|prefix|..|id| - 9] == s2.time;
  }

  /** Identifiers of different kinds never coincide. */
  lemma RecordIdKindsDiffer(s1: Stamp, s2: Stamp)
    ensures RecordId(MeetingPrefix, s1) != RecordId(RequirementPrefix, s2)
    ensures RecordId(MeetingPrefix, s1) != RecordId(MilestonePrefix, s2)
    ensures RecordId(RequirementPrefix, s1) != RecordId(MilestonePrefix, s2)
  {
    assert RecordId(MeetingPrefix, s1)[0] == 'm' && RecordId(RequirementPrefix, s2)[0] == 'r';
    assert RecordId(MeetingPrefix, s1)[1] == 'e' && RecordId(MilestonePrefix, s2)[1] == 'i';
    assert RecordId(RequirementPrefix, s1)[0] == 'r' && RecordId(MilestonePrefix, s2)[0] == 'm';
  }

  /** The keys every record carries, set from the stamp and never from the caller. */
  function RecordHeader(prefix: string, s: Stamp): Dict
  {
    map["id" := JStr(RecordId(prefix, s)), "timestamp" := JStr(s.time), "date" := JNum(s.date)]
  }

  /** The kind's fields, each the caller's value when given and the kind's
      default otherwise; the caller's other keys are dropped. */
  function WithDefaults(details: Dict, defaults: Dict): Dict
  {
    map k | k in defaults :: Get(details, k, defaults[k])
  }

  /** A record: the header, then the kind's fields. */
  function Record(prefix: string, defaults: Dict, details: Dict, s: Stamp): (r: Dict)
    requires defaults.Keys !! {"id", "timestamp", "date"}
    ensures r.Keys == {"id", "timestamp", "date"} + defaults.Keys
    ensures r["id"] == JStr(RecordId(prefix, s))
    ensures r["timestamp"] == JStr(s.time)
    ensures r["date"] == JNum(s.date)
    ensures forall k :: k in defaults ==> r[k] == if k in details then details[k] else defaults[k]
  {
    RecordHeader(prefix, s) + WithDefaults(details, defaults)
  }

  const MeetingDefaults: Dict := map[
    "participants" := JArr([]),
    "key_discussions" := JArr([]),
    "action_items" := JArr([]),
    "decisions" := JArr([]),
    "next_steps" := JArr([])]

  const RequirementDefaults: Dict := map[
    "category" := JStr("General"),
    "changes" := JArr([]),
    "rationale" := JStr(""),
    "impact" := JArr([]),
    "proposed_by" := JStr("Unknown")]

  /** `details.get('completion_date')` defaults to None. */
  const MilestoneDefaults: Dict := map[
    "name" := JStr("Unnamed Milestone"),
    "description" := JStr(""),
    "status" := JStr("Pending"),
    "completion_date" := JNull,
    "key_achievements" := JArr([])]

  function MeetingRecord(details: Dict, s: Stamp): Dict
  {
    Record(MeetingPrefix, MeetingDefaults, details, s)
  }

  function RequirementRecord(details: Dict, s: Stamp): Dict
  {
    Record(RequirementPrefix, RequirementDefaults, details, s)
  }

  function MilestoneRecord(details: Dict, s: Stamp): Dict
  {
    Record(MilestonePrefix, MilestoneDefaults, details, s)
  }

  /** A meeting logged with no details has five empty lists. */
  lemma MeetingWithoutDetails(s: Stamp)
    ensures var r := MeetingRecord(map[], s);
      && r.Keys == {"id", "timestamp", "date", "participants", "key_discussions",
                    "action_items", "decisions", "next_steps"}
      && r["participants"] == r["key_discussions"] == r["action_items"]
         == r["decisions"] == r["next_steps"] == JArr([])
  {
    assert MeetingDefaults.Keys == {"participants", "key_discussions", "action_items", "decisions", "next_steps"};
  }

  /** A requirement change keeps the caller's values and fills in the rest:
      category "General", rationale "", proposed_by "Unknown", empty lists. */
  lemma RequirementFields(details: Dict, s: Stamp)
    ensures var r := RequirementRecord(details, s);
      && r["category"] == Get(details, "category", JStr("General"))
      && r["changes"] == Get(details, "changes", JArr([]))
      && r["rationale"] == Get(details, "rationale", JStr(""))
      && r["impact"] == Get(details, "impact", JArr([]))
      && r["proposed_by"] == Get(details, "proposed_by", JStr("Unknown"))
      && r["id"] == JStr(RecordId(RequirementPrefix, s))
  {
    assert RequirementDefaults.Keys == {"category", "changes", "rationale", "impact", "proposed_by"};
  }

  /** A milestone keeps the caller's values and fills in the rest: name
      "Unnamed Milestone", status "Pending", no completion date. */
  lemma MilestoneFields(details: Dict, s: Stamp)
    ensures var r := MilestoneRecord(details, s);
      && r["name"] == Get(details, "name", JStr("Unnamed Milestone"))
      && r["description"] == Get(details, "description", JStr(""))
      && r["status"] == Get(details, "status", JStr("Pending"))
      && r["completion_date"] == Get(details, "completion_date", JNull)
      && r["key_achievements"] == Get(details, "key_achievements", JArr([]))
      && r["id"] == JStr(RecordId(MilestonePrefix, s))
  {
    assert MilestoneDefaults.Keys == {"name", "description", "status", "completion_date", "key_achievements"};
  }

  /** The metadata a project starts with: no milestones, no objectives, no
      meeting or requirement sections yet. */
  function InitialMetadata(projectName: string, now: int): (m: Dict)
    ensures m.Keys == {"project_name", "created_at", "last_updated", "status", "milestones", "key_objectives"}
    ensures m["status"] == JStr("Active")
    ensures m["milestones"] == JArr([]) && m["key_objectives"] == JArr([])
    ensures "meetings" !in m && "requirements" !in m
  {
    map[
      "project_name" := JStr(projectName),
      "created_at" := JNum(now),
      "last_updated" := JNum(now),
      "status" := JStr("Active"),
      "milestones" := JArr([]),
      "key_objectives" := JArr([])]
  }

  /** The read-modify-write of the metadata file: the section is created
      empty when absent, the identifier appended to it, `last_updated` set.
      Fails when the file is absent or undecodable, when it does not hold a
      dict, or when the section is not a list. */
  function Touched(file: Option<Doc>, section: string, id: string, touched: int): (r: Result<Dict, Failure>)
    requires section != "last_updated"
    ensures r.Ok? <==>
      && file.Some? && file.value.Parsed? && file.value.value.JObj?
      && (section in file.value.value.fields ==> file.value.value.fields[section].JArr?)
    ensures r.Ok? ==>
      var old_ := file.value.value.fields;
      var before := if section in old_ then old_[section].items else [];
      && r.value.Keys == old_.Keys + {section, "last_updated"}
      && r.value[section] == JArr(before + [JStr(id)])
      && r.value["last_updated"] == JNum(touched)
      && (forall k :: k in old_ && k != section && k != "last_updated" ==> r.value[k] == old_[k])
  {
    if file.None? then Err(NoSuchFile("project_metadata.json"))
    else if file.value.Malformed? then Err(BadJson("project_metadata.json"))
    else if !file.value.value.JObj? then Err(NotADict("project_metadata.json"))
    else
      var m := file.value.value.fields;
      var m1 := if section in m then m else m[section := JArr([])];
      if !m1[section].JArr? then Err(NotAList(section))
      else Ok(m1[section := JArr(m1[section].items + [JStr(id)])]["last_updated" := JNum(touched)])
  }
}
