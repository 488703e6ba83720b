/**
 * The billable-percentage flow: pick the projects with time recorded since
 * the start of the week, fetch their billable and non-billable entries, drop
 * the projects with none, and report the share of billable hours.
 */
module BillablePercentage {

  import opened Wrappers
  import opened Seqs
  import opened Calendar
  import opened Js
  import opened Harvest

  // ---------------------------------------------------------------------
  // Option validation and the project-entries request

  /**
   * `_isUndefined(obj, k1, .., kn)`: walks the keys from the last to the
   * first and answers true at the first one that is not an own property.
   */
  method IsUndefined(obj: Object, keys: seq<string>) returns (r: bool)
    ensures r <==> exists i :: 0 <= i < |keys| && keys[i] !in obj
  {
    // `arguments[i]` is keys[i - 1]: argument 0 is the object itself.
    var i := |keys|;
    while i >= 1
      invariant 0 <= i <= |keys|
      invariant forall j :: i <= j < |keys| ==> keys[j] in obj
    {
      if keys[i - 1] !in obj {
        return true;
      }
      i := i - 1;
    }
    return false;
  }

  /** The whitespace a backslash-continued string literal picks up from the next source line. */
  const Indent := "                            "

  const MissingOptionsMessage :=
    "getting time entries by project requires an id " + Indent +
    "for the project. It also requires UTC dates (e.g. YYYYMMDD) " + Indent +
    "for both the from date and the to date"

  /** What the project-entries report does: fail with an error, or issue a GET for a URL. */
  datatype Request = Failed(message: string) | Get(url: string)

  /** The report URL; the billable flag is the last field and can be read back from it. */
  function EntriesUrl(projectId: string, from: string, to: string, billable: bool): (url: string)
    ensures "/projects/" + projectId + "/entries?from=" <= url
    ensures |url| >= 3 && (url[|url| - 3..] == "yes" <==> billable)
  {
    var head := "/projects/" + projectId + "/entries?from=" + from + "&to=" + to + "&billable=";
    var flag := if billable then "yes" else "no";
    var url := head + flag;
    assert url[|head|..] == flag && url[|head| - 1] == '=';
    assert !billable ==> url[|url| - 3] == '=';
    url
  }

  /**
   * The project-entries report call: with any of `project_id`, `from` or `to`
   * missing it fails and requests nothing; otherwise it requests the report
   * URL, billable `yes` exactly when the `billable` option is truthy.
   */
  method EntriesByProject(options: Object) returns (req: Request)
    ensures req.Failed? <==> "project_id" !in options || "from" !in options || "to" !in options
    ensures req.Failed? ==> req.message == MissingOptionsMessage
    ensures req.Get? ==> req.url == EntriesUrl(ToString(options["project_id"]), ToString(options["from"]),
                                                ToString(options["to"]), Truthy(Property(options, "billable")))
  {
    var required := ["project_id", "from", "to"];
    assert required[0] == "project_id" && required[1] == "from" && required[2] == "to";
    var missing := IsUndefined(options, required);
    if missing {
      return Failed(MissingOptionsMessage);
    }
    var billable := Truthy(Property(options, "billable"));
    req := Get(EntriesUrl(ToString(options["project_id"]), ToString(options["from"]), ToString(options["to"]), billable));
  }

  // ---------------------------------------------------------------------
  // The reporting window and the projects in it

  /**
   * The window start. The source reads the clock twice: the weekday comes
   * from the first reading `today`, and the second reading `now` is moved
   * back by `day() - MONDAY + 1` days, that is by `today`'s weekday. Read
   * on one day, this is the same time of day on the most recent Sunday
   * (today when today is a Sunday); a midnight between the two readings
   * moves the start onto a Monday.
   */
  function WindowStart(today: int, now: int): (past: int)
    ensures 0 <= now - past <= 6 * SecondsPerDay && (now - past) % SecondsPerDay == 0
    ensures Weekday(DayOf(past)) == (DayOf(now) - DayOf(today)) % 7
    ensures DayOf(today) == DayOf(now) ==>
              Weekday(DayOf(past)) == Sunday && DayOf(past) <= DayOf(now) < DayOf(past) + 7 &&
              (Weekday(DayOf(now)) == Sunday ==> past == now)
    ensures DayOf(now) == DayOf(today) + 1 ==> Weekday(DayOf(past)) == Monday
  {
    var day := Weekday(DayOf(today));
    var dayDelta := day - Monday + 1;
    ShiftDays(now, dayDelta);
    var q := (DayOf(today) + 4) / 7;
    assert day == DayOf(today) + 4 - 7 * q;
    assert DayOf(now) - dayDelta + 4 == (DayOf(now) - DayOf(today)) + 7 * q;
    now - dayDelta * SecondsPerDay
  }

  lemma ShiftDays(t: int, k: int)
    ensures DayOf(t - k * SecondsPerDay) == DayOf(t) - k
  {
    var q, m := t / SecondsPerDay, t % SecondsPerDay;
    assert t - k * SecondsPerDay == (q - k) * SecondsPerDay + m;
  }

  /** A project's latest record is not before `past`; an unreadable timestamp never is. */
  function UpdatedSince(past: int): Project -> bool
  {
    (p: Project) => !(p.hintLatestRecordAt.Some? && p.hintLatestRecordAt.value < past)
  }

  /**
   * The projects with time recorded since `past`: exactly those whose latest
   * record is not before it, or unknown, in their original order.
   */
  function RecentProjects(projects: seq<Project>, past: int): (r: seq<Project>)
    ensures forall p :: p in r <==>
              p in projects && (p.hintLatestRecordAt.None? || p.hintLatestRecordAt.value >= past)
    ensures IsSubsequence(r, projects)
    ensures |r| == CountWhere(UpdatedSince(past), projects)
  {
    Filter(UpdatedSince(past), projects)
  }

  /** A project with the entries fetched for it: billable and non-billable ones. */
  datatype ProjectResult = ProjectResult(project: Project, billable: seq<DayEntry>, nonBillable: seq<DayEntry>)

  predicate HasEntries(r: ProjectResult)
  {
    |r.billable| > 0 || |r.nonBillable| > 0
  }

  /** Drops the projects with no entries either way and keeps the others in order. */
  function NonEmptyResults(results: seq<ProjectResult>): (r: seq<ProjectResult>)
    ensures forall x :: x in r <==> x in results && (x.billable != [] || x.nonBillable != [])
    ensures IsSubsequence(r, results)
    ensures |r| == CountWhere(HasEntries, results)
  {
    Filter(HasEntries, results)
  }

  // ---------------------------------------------------------------------
  // The accumulator

  function Tasks(r: ProjectResult, billable: bool): seq<DayEntry>
  {
    if billable then r.billable else r.nonBillable
  }

  /** The billable (or non-billable) entries of all results, concatenated in order. */
  function AllTasks(results: seq<ProjectResult>, billable: bool): seq<DayEntry>
  {
    if results == [] then []
    else AllTasks(results[..|results| - 1], billable) + Tasks(results[|results| - 1], billable)
  }

  /** The hours of a list of entries, added up from the first. */
  function SumHours(tasks: seq<DayEntry>): real
  {
    if tasks == [] then 0.0 else SumHours(tasks[..|tasks| - 1]) + tasks[|tasks| - 1].hours
  }

  datatype Metrics = Metrics(results: seq<ProjectResult>, totalHours: real, billableHours: real,
                             nonBillableHours: real, billablePercentage: Number,
                             billablePercentageRounded: Number)

  /** What the accumulator reports for `results`. */
  function Summary(results: seq<ProjectResult>): Metrics
  {
    var billableHours := SumHours(AllTasks(results, true));
    var nonBillableHours := SumHours(AllTasks(results, false));
    var totalHours := nonBillableHours + billableHours;
    var billablePercentage := Divide(billableHours, totalHours);
    Metrics(results, totalHours, billableHours, nonBillableHours, billablePercentage, CeilPercent(billablePercentage))
  }

  /**
   * `accumulator(results)`: concatenates the entry lists, then adds up the
   * hours of each list in a loop, and derives the total and the percentages.
   */
  method Accumulate(results: seq<ProjectResult>) returns (m: Metrics)
    ensures m == Summary(results)
  {
    var tasksNonBillable: seq<DayEntry> := [];
    var tasksBillable: seq<DayEntry> := [];
    var i := 0;
    while i < |results|
      invariant 0 <= i <= |results|
      invariant tasksBillable == AllTasks(results[..i], true)
      invariant tasksNonBillable == AllTasks(results[..i], false)
    {
      assert results[..i + 1][..i] == results[..i];
      tasksBillable := tasksBillable + results[i].billable;
      tasksNonBillable := tasksNonBillable + results[i].nonBillable;
      i := i + 1;
    }
    assert results[..i] == results;

    var billableHours := 0.0;
    var j := 0;
    while j < |tasksBillable|
      invariant 0 <= j <= |tasksBillable|
      invariant billableHours == SumHours(tasksBillable[..j])
    {
      assert tasksBillable[..j + 1][..j] == tasksBillable[..j];
      billableHours := billableHours + tasksBillable[j].hours;
      j := j + 1;
    }
    assert tasksBillable[..j] == tasksBillable;

    var nonBillableHours := 0.0;
    j := 0;
    while j < |tasksNonBillable|
      invariant 0 <= j <= |tasksNonBillable|
      invariant nonBillableHours == SumHours(tasksNonBillable[..j])
    {
      assert tasksNonBillable[..j + 1][..j] == tasksNonBillable[..j];
      nonBillableHours := nonBillableHours + tasksNonBillable[j].hours;
      j := j + 1;
    }
    assert tasksNonBillable[..j] == tasksNonBillable;

    var totalHours := nonBillableHours + billableHours;
    var billablePercentage := Divide(billableHours, totalHours);
    m := Metrics(results, totalHours, billableHours, nonBillableHours, billablePercentage,
                 CeilPercent(billablePercentage));
  }

  lemma {:induction false} SumHoursAppend(a: seq<DayEntry>, b: seq<DayEntry>)
    ensures SumHours(a + b) == SumHours(a) + SumHours(b)
  {
    if b == [] {
      assert a + b == a;
    } else {
      SumHoursAppend(a, b[..|b| - 1]);
      assert (a + b)[..|a + b| - 1] == a + b[..|b| - 1];
    }
  }

  lemma {:induction false} AllTasksAppend(a: seq<ProjectResult>, b: seq<ProjectResult>, billable: bool)
    ensures AllTasks(a + b, billable) == AllTasks(a, billable) + AllTasks(b, billable)
  {
    if b == [] {
      assert a + b == a;
    } else {
      AllTasksAppend(a, b[..|b| - 1], billable);
      assert (a + b)[..|a + b| - 1] == a + b[..|b| - 1];
    }
  }

  /** The hours of all results are the hours of the last one plus those of the others. */
  lemma SumWithout(s: seq<ProjectResult>, i: nat, billable: bool)
    requires i < |s|
    ensures SumHours(AllTasks(s, billable)) ==
            SumHours(AllTasks(s[..i] + s[i + 1..], billable)) + SumHours(Tasks(s[i], billable))
  {
    assert s == s[..i] + [s[i]] + s[i + 1..];
    AllTasksAppend(s[..i] + [s[i]], s[i + 1..], billable);
    AllTasksAppend(s[..i], [s[i]], billable);
    AllTasksAppend(s[..i], s[i + 1..], billable);
    assert AllTasks([s[i]], billable) == Tasks(s[i], billable) by {
      assert [s[i]][..0] == [];
    }
    SumHoursAppend(AllTasks(s[..i], billable) + Tasks(s[i], billable), AllTasks(s[i + 1..], billable));
    SumHoursAppend(AllTasks(s[..i], billable), Tasks(s[i], billable));
    SumHoursAppend(AllTasks(s[..i], billable), AllTasks(s[i + 1..], billable));
  }

  lemma MultisetWithout(s: seq<ProjectResult>, k: nat)
    requires k < |s|
    ensures multiset(s[..k] + s[k + 1..]) == multiset(s) - multiset{s[k]}
  {
    assert s == s[..k] + [s[k]] + s[k + 1..];
  }

  lemma {:induction false} SumHoursPermutation(a: seq<ProjectResult>, b: seq<ProjectResult>, billable: bool)
    requires multiset(a) == multiset(b)
    ensures SumHours(AllTasks(a, billable)) == SumHours(AllTasks(b, billable))
    decreases |a|
  {
    if a != [] {
      var n := |a| - 1;
      assert a[n] in multiset(b);
      var i :| 0 <= i < |b| && b[i] == a[n];
      MultisetWithout(a, n);
      MultisetWithout(b, i);
      SumHoursPermutation(a[..n] + a[n + 1..], b[..i] + b[i + 1..], billable);
      SumWithout(a, n, billable);
      SumWithout(b, i, billable);
    }
  }

  /**
   * The accumulator does not depend on the order of the results: the hour
   * totals and both percentages are the same for any permutation.
   */
  lemma AccumulatorIgnoresOrder(a: seq<ProjectResult>, b: seq<ProjectResult>)
    requires multiset(a) == multiset(b)
    ensures Summary(a).billableHours == Summary(b).billableHours
    ensures Summary(a).nonBillableHours == Summary(b).nonBillableHours
    ensures Summary(a).totalHours == Summary(b).totalHours
    ensures Summary(a).billablePercentage == Summary(b).billablePercentage
    ensures Summary(a).billablePercentageRounded == Summary(b).billablePercentageRounded
  {
    SumHoursPermutation(a, b, true);
    SumHoursPermutation(a, b, false);
  }

  predicate HoursNonNegative(tasks: seq<DayEntry>)
  {
    forall i :: 0 <= i < |tasks| ==> tasks[i].hours >= 0.0
  }

  predicate AllHoursNonNegative(results: seq<ProjectResult>)
  {
    forall i :: 0 <= i < |results| ==> HoursNonNegative(results[i].billable) && HoursNonNegative(results[i].nonBillable)
  }

  lemma {:induction false} SumHoursNonNegative(tasks: seq<DayEntry>)
    requires HoursNonNegative(tasks)
    ensures SumHours(tasks) >= 0.0
  {
    if tasks != [] {
      SumHoursNonNegative(tasks[..|tasks| - 1]);
    }
  }

  lemma {:induction false} AllTasksNonNegative(results: seq<ProjectResult>, billable: bool)
    requires AllHoursNonNegative(results)
    ensures HoursNonNegative(AllTasks(results, billable))
  {
    if results != [] {
      AllTasksNonNegative(results[..|results| - 1], billable);
    }
  }

  /**
   * With non-negative hours and some time logged, the billable share lies
   * in [0, 1] and its rounded percent is a whole number in 0..100, the
   * least one not below the exact percentage.
   */
  lemma PercentageInRange(results: seq<ProjectResult>)
    requires AllHoursNonNegative(results)
    requires Summary(results).totalHours > 0.0
    ensures var m := Summary(results);
      m.billablePercentage.Finite? && 0.0 <= m.billablePercentage.value <= 1.0 &&
      m.billablePercentageRounded.Finite? && 0.0 <= m.billablePercentageRounded.value <= 100.0 &&
      m.billablePercentageRounded.value - 1.0 < m.billablePercentage.value * 100.0 <= m.billablePercentageRounded.value
  {
    AllTasksNonNegative(results, true);
    AllTasksNonNegative(results, false);
    SumHoursNonNegative(AllTasks(results, true));
    SumHoursNonNegative(AllTasks(results, false));
    var m := Summary(results);
    ShareBounds(m.billableHours, m.totalHours);
  }

  lemma ShareBounds(part: real, whole: real)
    requires 0.0 <= part <= whole && whole > 0.0
    ensures 0.0 <= part / whole <= 1.0
    ensures 0 <= Ceil(part / whole * 100.0) <= 100
  {
    var p := part / whole;
    assert p * whole == part;
  }

  /** Four billable hours and six non-billable ones report 40 percent. */
  lemma FourOfTenHoursIsFortyPercent(p: Project)
    ensures var m := Summary([ProjectResult(p, [DayEntry(4.0)], [DayEntry(6.0)])]);
      m.totalHours == 10.0 && m.billablePercentage == Finite(0.4) && m.billablePercentageRounded == Finite(40.0)
  {
    var rs := [ProjectResult(p, [DayEntry(4.0)], [DayEntry(6.0)])];
    assert rs[..0] == [];
    assert AllTasks(rs, true) == [DayEntry(4.0)];
    assert AllTasks(rs, false) == [DayEntry(6.0)];
    assert [DayEntry(4.0)][..0] == [] && [DayEntry(6.0)][..0] == [];
    assert SumHours([DayEntry(4.0)]) == 4.0 && SumHours([DayEntry(6.0)]) == 6.0;
    assert 4.0 / 10.0 == 0.4;
    assert Ceil(0.4 * 100.0) == 40;
  }

  // ---------------------------------------------------------------------
  // The message

  const PercentagePrefix := "The billable percentage for this week is "

  /** The announcement of a whole (or non-finite) percent. */
  function PercentageMessage(percent: Number): (message: string)
    requires percent.Finite? ==> percent.value == percent.value.Floor as real
    ensures PercentagePrefix <= message && |message| >= |PercentagePrefix| + 2
    ensures message[|message| - 2..] == "%."
    ensures percent.Finite? && percent.value >= 0.0 ==>
              var digits := message[|PercentagePrefix|..|message| - 2];
              (forall i :: 0 <= i < |digits| ==> IsDigit(digits[i])) && ParseDigits(digits) == percent.value.Floor
  {
    var text := NumberToString(percent);
    NatToStringRoundTrip(if percent.Finite? && percent.value >= 0.0 then percent.value.Floor else 0);
    var message := PercentagePrefix + text + "%.";
    assert message[|PercentagePrefix|..|message| - 2] == text;
    message
  }

  // ---------------------------------------------------------------------
  // The whole report

  /** A project with its entries over the window: `get` answers a report URL with its entries. */
  function FetchProject(project: Project, from: string, to: string, get: string -> seq<DayEntry>): ProjectResult
  {
    ProjectResult(project, get(EntriesUrl(IntToString(project.id), from, to, true)),
                  get(EntriesUrl(IntToString(project.id), from, to, false)))
  }

  /** The fetch stage's result: one result per project, in the projects' order (what `Map` promises). */
  function FetchResults(projects: seq<Project>, from: string, to: string, get: string -> seq<DayEntry>)
    : (r: seq<ProjectResult>)
    ensures |r| == |projects|
    ensures forall i :: 0 <= i < |projects| ==> r[i] == FetchProject(projects[i], from, to, get)
  {
    Map((p: Project) => FetchProject(p, from, to, get), projects)
  }

  /** The options of one project-entries report call over a window. */
  function ProjectOptions(projectId: int, from: string, to: string, billable: bool): (options: Object)
    ensures "project_id" in options && "from" in options && "to" in options
    ensures ToString(options["project_id"]) == IntToString(projectId)
    ensures ToString(options["from"]) == from && ToString(options["to"]) == to
    ensures Truthy(Property(options, "billable")) == billable
  {
    map["project_id" := Num(projectId), "from" := Str(from), "to" := Str(to), "billable" := Bool(billable)]
  }

  /** The two report calls for one project over the window, billable first. */
  method FetchProjectEntries(project: Project, pastUTC: string, todayUTC: string, get: string -> seq<DayEntry>)
    returns (result: ProjectResult)
    ensures result == FetchProject(project, pastUTC, todayUTC, get)
  {
    var billableRequest := EntriesByProject(ProjectOptions(project.id, pastUTC, todayUTC, true));
    var nonBillableRequest := EntriesByProject(ProjectOptions(project.id, pastUTC, todayUTC, false));
    result := ProjectResult(project, get(billableRequest.url), get(nonBillableRequest.url));
  }

  /** The fetch stage: every project in turn, in order. */
  method FetchAll(recent: seq<Project>, pastUTC: string, todayUTC: string, get: string -> seq<DayEntry>)
    returns (results: seq<ProjectResult>)
    ensures results == FetchResults(recent, pastUTC, todayUTC, get)
  {
    results := [];
    var i := 0;
    while i < |recent|
      invariant 0 <= i <= |recent|
      invariant results == FetchResults(recent[..i], pastUTC, todayUTC, get)
    {
      var result := FetchProjectEntries(recent[i], pastUTC, todayUTC, get);
      assert recent[..i + 1][..i] == recent[..i];
      results := results + [result];
      i := i + 1;
    }
    assert recent[..i] == recent;
  }

  /**
   * One run of the billable report, with the clock read twice (`today`,
   * then `now`; see `WindowStart`): the projects recent
   * since the window start are fetched over the window, the empty ones
   * dropped, the rest accumulated and the rounded percent announced.
   * `formatDate` renders a timestamp as `YYYYMMDD`.
   */
  method GetPercentage(today: int, now: int, projects: seq<Project>, formatDate: int -> string, get: string -> seq<DayEntry>)
    returns (allHours: Metrics, message: string)
    ensures var past := WindowStart(today, now);
      allHours == Summary(NonEmptyResults(FetchResults(RecentProjects(projects, past), formatDate(past),
                                                         formatDate(today), get)))
    ensures message == PercentageMessage(allHours.billablePercentageRounded)
  {
    var past := WindowStart(today, now);
    var recent := RecentProjects(projects, past);
    var results := FetchAll(recent, formatDate(past), formatDate(today), get);
    results := NonEmptyResults(results);
    allHours := Accumulate(results);
    message := PercentageMessage(allHours.billablePercentageRounded);
  }
}
