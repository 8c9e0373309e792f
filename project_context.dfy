/** The text `get_recent_context` renders from a summary, and the
    case-insensitive filter of `get_category_summary`. */
module ProjectContext {
  import opened Wrappers
  import opened Strings
  import opened Json
  import opened Subsequence
  import opened ProjectSummary

  function Header(days: int): string
  {
    "Recent Project Context (Last " + IntToString(days) + " days):\n\n"
  }

  const MeetingsLabel := "Meetings:\n"
  const RequirementsLabel := "\nRequirement Changes:\n"
  const MilestonesLabel := "\nMilestones:\n"
  const UnknownDate := "Unknown Date"
  const UnnamedMilestone := "Unnamed Milestone"
  const NoStatus := "No status"

  /** What the caller of `get_recent_context` receives when anything raised. */
  function ErrorText(f: Failure): string
  {
    "Unable to generate project context. Error: " + Describe(f)
  }

  /** One meeting or requirement-change line: the record's date, then the
      list under `key` joined with ", ". Raises when that list cannot be joined. */
  function DatedLine(rec: Dict, key: string, repr: Json -> string): Result<string, Failure>
  {
    match JoinText(Get(rec, key, JArr([])))
    case Err(f) => Err(f)
    case Ok(joined) => Ok(Bullet(Text(Get(rec, "date", JStr(UnknownDate)), repr), joined))
  }

  function DatedLines(recs: seq<Dict>, key: string, repr: Json -> string): Result<seq<string>, Failure>
  {
    if recs == [] then Ok([])
    else match DatedLines(recs[..|recs| - 1], key, repr)
      case Err(f) => Err(f)
      case Ok(ls) =>
        match DatedLine(recs[|recs| - 1], key, repr)
        case Err(f) => Err(f)
        case Ok(l) => Ok(ls + [l])
  }

  /** One milestone line: its name and its status. */
  function MilestoneLine(rec: Dict, repr: Json -> string): string
  {
    Bullet(Text(Get(rec, "name", JStr(UnnamedMilestone)), repr), Text(Get(rec, "status", JStr(NoStatus)), repr))
  }

  function MilestoneLines(recs: seq<Dict>, repr: Json -> string): seq<string>
  {
    if recs == [] then [] else MilestoneLines(recs[..|recs| - 1], repr) + [MilestoneLine(recs[|recs| - 1], repr)]
  }

  /** The context text for a summary: the header, then the three labelled
      sections in a fixed order. */
  function Render(s: Summary, days: int, repr: Json -> string): Result<string, Failure>
  {
    match DatedLines(s.meetings, "key_discussions", repr)
    case Err(f) => Err(f)
    case Ok(ml) =>
      match DatedLines(s.requirementChanges, "changes", repr)
      case Err(f) => Err(f)
      case Ok(rl) =>
        Ok(Header(days) + MeetingsLabel + Sections(ml, rl, MilestoneLines(s.milestones, repr)))
  }

  /** The three sections' lines with the labels between them. */
  function Sections(ml: seq<string>, rl: seq<string>, sl: seq<string>): string
  {
    Concat(ml) + RequirementsLabel + Concat(rl) + MilestonesLabel + Concat(sl)
  }

  /** What `get_recent_context` returns: the rendered summary, or the error
      text when the scan or the rendering raised. */
  function ContextText(r: Result<Summary, Failure>, days: int, repr: Json -> string): string
  {
    match r
    case Err(f) => ErrorText(f)
    case Ok(s) =>
      match Render(s, days, repr)
      case Err(f) => ErrorText(f)
      case Ok(t) => t
  }

  /** One line per record, in record order, each a bullet opening with the
      record's date; the lines fail exactly when some record's list cannot be joined. */
  lemma {:induction false} DatedLinesShape(recs: seq<Dict>, key: string, repr: Json -> string)
    ensures DatedLines(recs, key, repr).Err? <==>
      exists i :: 0 <= i < |recs| && JoinText(Get(recs[i], key, JArr([]))).Err?
    ensures DatedLines(recs, key, repr).Ok? ==>
      var ls := DatedLines(recs, key, repr).value;
      && |ls| == |recs|
      && forall i :: 0 <= i < |recs| ==>
           && IsBullet(ls[i])
           && StartsWith(ls[i], BulletMark + Text(Get(recs[i], "date", JStr(UnknownDate)), repr) + LabelMark)
           && JoinText(Get(recs[i], key, JArr([]))).Ok?
           && ls[i] == Bullet(Text(Get(recs[i], "date", JStr(UnknownDate)), repr), JoinText(Get(recs[i], key, JArr([]))).value)
  {
    if recs != [] {
      var init := recs[..|recs| - 1];
      var last := recs[|recs| - 1];
      assert init + [last] == recs;
      DatedLinesShape(init, key, repr);
      if DatedLines(recs, key, repr).Ok? {
        var joined := JoinText(Get(last, key, JArr([]))).value;
        BulletShape(Text(Get(last, "date", JStr(UnknownDate)), repr), joined);
      }
    }
  }

  /** A milestone line is a bullet. */
  lemma MilestoneLineIsBullet(rec: Dict, repr: Json -> string)
    ensures IsBullet(MilestoneLine(rec, repr))
  {
    BulletShape(Text(Get(rec, "name", JStr(UnnamedMilestone)), repr), Text(Get(rec, "status", JStr(NoStatus)), repr));
  }

  /** One milestone line per milestone, in milestone order. */
  lemma {:induction false} MilestoneLinesIndexed(recs: seq<Dict>, repr: Json -> string)
    ensures |MilestoneLines(recs, repr)| == |recs|
    ensures forall i :: 0 <= i < |recs| ==> MilestoneLines(recs, repr)[i] == MilestoneLine(recs[i], repr)
  {
    if recs != [] {
      var init := recs[..|recs| - 1];
      var last := recs[|recs| - 1];
      assert init + [last] == recs;
      MilestoneLinesIndexed(init, repr);
      MilestoneLinesSnoc(init, last, MilestoneLines(recs, repr), MilestoneLines(init, repr), MilestoneLine(last, repr), repr);
    }
  }

  /** The induction step of `MilestoneLinesIndexed`, over plain sequences. */
  lemma MilestoneLinesSnoc(init: seq<Dict>, last: Dict, ls: seq<string>, prev: seq<string>, line: string,
                           repr: Json -> string)
    requires ls == prev + [line] && line == MilestoneLine(last, repr)
    requires |prev| == |init|
    requires forall i :: 0 <= i < |init| ==> prev[i] == MilestoneLine(init[i], repr)
    ensures |ls| == |init + [last]|
    ensures forall i :: 0 <= i < |init + [last]| ==> ls[i] == MilestoneLine((init + [last])[i], repr)
  {
  }

  /** The milestone section never fails and has one bullet line per milestone. */
  lemma MilestoneLinesShape(recs: seq<Dict>, repr: Json -> string)
    ensures |MilestoneLines(recs, repr)| == |recs|
    ensures forall i :: 0 <= i < |recs| ==> MilestoneLines(recs, repr)[i] == MilestoneLine(recs[i], repr)
    ensures forall i :: 0 <= i < |recs| ==> IsBullet(MilestoneLines(recs, repr)[i])
  {
    MilestoneLinesIndexed(recs, repr);
    forall i | 0 <= i < |recs|
      ensures IsBullet(MilestoneLines(recs, repr)[i])
    {
      MilestoneLineIsBullet(recs[i], repr);
    }
  }

  /** Rendering fails exactly when a meeting's discussions or a requirement
      change's changes cannot be joined. */
  lemma RenderFailsIff(s: Summary, days: int, repr: Json -> string)
    ensures Render(s, days, repr).Err? <==>
      || (exists i :: 0 <= i < |s.meetings| && JoinText(Get(s.meetings[i], "key_discussions", JArr([]))).Err?)
      || (exists i :: 0 <= i < |s.requirementChanges| && JoinText(Get(s.requirementChanges[i], "changes", JArr([]))).Err?)
  {
    DatedLinesShape(s.meetings, "key_discussions", repr);
    DatedLinesShape(s.requirementChanges, "changes", repr);
  }

  /** A rendered context opens with the header and the meetings label. */
  lemma RenderStartsWithHeader(s: Summary, days: int, repr: Json -> string)
    requires Render(s, days, repr).Ok?
    ensures StartsWith(Render(s, days, repr).value, Header(days) + MeetingsLabel)
  {
    var ml := DatedLines(s.meetings, "key_discussions", repr).value;
    var rl := DatedLines(s.requirementChanges, "changes", repr).value;
    var lead := Header(days) + MeetingsLabel;
    StartsWithConcat(lead, Sections(ml, rl, MilestoneLines(s.milestones, repr)));
  }

  /** An empty summary renders the three labels with nothing under them. */
  lemma RenderEmpty(name: string, period: string, days: int, repr: Json -> string)
    ensures Render(Summary(name, period, [], [], []), days, repr)
         == Ok(Header(days) + MeetingsLabel + RequirementsLabel + MilestonesLabel)
  {
    var ml := DatedLines([], "key_discussions", repr);
    var rl := DatedLines([], "changes", repr);
    assert ml == Ok([]) && rl == Ok([]);
    assert MilestoneLines([], repr) == [];
    assert Concat([]) == "";
    assert Sections([], [], []) == RequirementsLabel + MilestonesLabel;
    var lead := Header(days) + MeetingsLabel;
    assert lead + (RequirementsLabel + MilestonesLabel) == lead + RequirementsLabel + MilestonesLabel;
  }

  /** `category.lower() in str(record).lower()` */
  predicate Mentions(rec: Dict, category: string, repr: Json -> string)
  {
    Contains(Lower(repr(JObj(rec))), Lower(category))
  }

  /** The records whose printed form mentions the category, case-insensitively,
      in their original order. */
  function FilterByCategory(recs: seq<Dict>, category: string, repr: Json -> string): (r: seq<Dict>)
    ensures IsSubseq(r, recs)
    ensures forall x :: x in r ==> Mentions(x, category, repr)
    ensures forall i :: 0 <= i < |recs| && Mentions(recs[i], category, repr) ==> recs[i] in r
    ensures forall x :: multiset(r)[x] == if Mentions(x, category, repr) then multiset(recs)[x] else 0
  {
    if recs == [] then []
    else
      var init := recs[..|recs| - 1];
      var last := recs[|recs| - 1];
      var kept := FilterByCategory(init, category, repr);
      assert init + [last] == recs;
      FilterStep(kept, init, last, category, repr);
      if Mentions(last, category, repr) then kept + [last] else kept
  }

  /** One more record: it is kept exactly when it mentions the category. */
  lemma FilterStep(kept: seq<Dict>, init: seq<Dict>, last: Dict, category: string, repr: Json -> string)
    requires IsSubseq(kept, init)
    requires forall x :: x in kept ==> Mentions(x, category, repr)
    requires forall i :: 0 <= i < |init| && Mentions(init[i], category, repr) ==> init[i] in kept
    requires forall x :: multiset(kept)[x] == if Mentions(x, category, repr) then multiset(init)[x] else 0
    ensures var r := if Mentions(last, category, repr) then kept + [last] else kept;
      forall x :: multiset(r)[x] == if Mentions(x, category, repr) then multiset(init + [last])[x] else 0
    ensures var r := if Mentions(last, category, repr) then kept + [last] else kept;
      && IsSubseq(r, init + [last])
      && (forall x :: x in r ==> Mentions(x, category, repr))
      && (forall i :: 0 <= i < |init + [last]| && Mentions((init + [last])[i], category, repr) ==> (init + [last])[i] in r)
  {
    if Mentions(last, category, repr) {
      SubseqExtendBoth(kept, init, last);
    } else {
      SubseqExtendRight(kept, init, last);
    }
    forall i | 0 <= i < |init|
      ensures (init + [last])[i] == init[i]
    {
    }
  }

  /** The empty category matches every record. */
  lemma {:induction false} EmptyCategoryKeepsAll(recs: seq<Dict>, repr: Json -> string)
    ensures FilterByCategory(recs, "", repr) == recs
  {
    if recs != [] {
      var init := recs[..|recs| - 1];
      var last := recs[|recs| - 1];
      assert init + [last] == recs;
      EmptyCategoryKeepsAll(init, repr);
      ContainsEmpty(Lower(repr(JObj(last))));
      assert Mentions(last, "", repr);
    }
  }

  /** The filter ignores the case of the category. */
  lemma CategoryCaseInsensitive(recs: seq<Dict>, category: string, repr: Json -> string)
    ensures FilterByCategory(recs, Lower(category), repr) == FilterByCategory(recs, category, repr)
  {
    LowerIdempotent(category);
  }

  /** What `get_category_summary` returns: the three filtered lists. */
  datatype CategorySummary = CategorySummary(meetings: seq<Dict>, requirementChanges: seq<Dict>, milestones: seq<Dict>)

  /** The filtered summary, or `{}` (None) when the scan raised. */
  function CategorySummaryOf(r: Result<Summary, Failure>, category: string, repr: Json -> string): Option<CategorySummary>
  {
    match r
    case Err(_) => None
    case Ok(s) =>
      Some(CategorySummary(
        FilterByCategory(s.meetings, category, repr),
        FilterByCategory(s.requirementChanges, category, repr),
        FilterByCategory(s.milestones, category, repr)))
  }
}
