/**
 * The timesheet-nag flow: work out which day's timesheets are due, skip
 * weekends and public holidays, join chat members to time-tracking users by
 * email, and pick out the users with no time entries for that day.
 */
module Timesheets {

  import opened Wrappers
  import opened Seqs
  import opened Calendar
  import opened Harvest

  /** Timesheets for a day are due by 19:00. */
  const TimesheetDeadline := 19

  // ---------------------------------------------------------------------
  // Weekends and public holidays

  /**
   * A day is a holiday when it is a Saturday or a Sunday, whatever the
   * holiday list holds, or when a listed holiday falls on the same day.
   */
  function IsHoliday(today: int, publicHolidays: seq<int>): (r: bool)
    ensures r <==> IsWeekend(today) || today in publicHolidays
  {
    var weekend := [Sunday, Saturday];
    if IndexOf(weekend, Weekday(today)) > -1 then true
    else Find((date: int) => date == today, publicHolidays).Some?
  }

  // ---------------------------------------------------------------------
  // The day of interest

  /*
   * The source reads the clock twice: `now` is the first reading (the
   * moment that becomes the result), `later` the second, which is moved to
   * 19 o'clock and compared against. `hour(19)` keeps the minutes, seconds
   * and milliseconds of the second reading.
   */

  /** `currentTime.isBefore(todayAt6pm)`: whether the run rolls back to an earlier day. */
  predicate RollsBack(now: Instant, later: Instant)
  {
    IsBefore(now, Instant(later.day, TimesheetDeadline, later.ms))
  }

  /**
   * The day whose timesheets are checked: the first reading itself unless it
   * is before 19:00 of the second reading's day; otherwise the Friday three
   * days back on a Monday, and the previous calendar day at 19 o'clock on
   * any other day.
   */
  function DayOfInterest(now: Instant, later: Instant): (r: Instant)
    requires ValidInstant(now) && ValidInstant(later)
    ensures ValidInstant(r)
    ensures r.day <= now.day && r.ms == now.ms
  {
    if RollsBack(now, later) then
      if Weekday(now.day) == Monday then Instant(now.day - 3, now.hour, now.ms)
      else Instant(now.day - 1, TimesheetDeadline, now.ms)
    else now
  }

  /** With both readings equal, the run rolls back exactly when it is before 19:00. */
  lemma SingleReadingRollsBackBeforeDeadline(now: Instant)
    requires ValidInstant(now)
    ensures RollsBack(now, now) <==> now.hour < TimesheetDeadline
  {
    IsBeforeLexicographic(now, Instant(now.day, TimesheetDeadline, now.ms));
  }

  /** With both readings equal, from the deadline on the day of interest is the current moment itself. */
  lemma AtDeadlineKeepsToday(now: Instant)
    requires ValidInstant(now) && now.hour >= TimesheetDeadline
    ensures DayOfInterest(now, now) == now
  {
    SingleReadingRollsBackBeforeDeadline(now);
  }

  /**
   * Between 19:00 and 20:00, a clock that ticks between the two readings
   * makes the run roll back to an earlier day, where one reading would have
   * kept today.
   */
  lemma DeadlineHourTickRollsBack(now: Instant, later: Instant)
    requires ValidInstant(now) && ValidInstant(later)
    requires now.hour == TimesheetDeadline && later.day == now.day && now.ms < later.ms
    ensures RollsBack(now, later)
    ensures DayOfInterest(now, later).day < now.day
    ensures DayOfInterest(now, now) == now
  {
    IsBeforeLexicographic(now, Instant(later.day, TimesheetDeadline, later.ms));
    AtDeadlineKeepsToday(now);
  }

  /**
   * When the run rolls back from Monday to Saturday, the day of interest is
   * the latest business day before today: a weekday, earlier than today,
   * with only weekend days in between. A Monday therefore checks the Friday.
   */
  lemma {:induction false} RollbackIsPreviousBusinessDay(now: Instant, later: Instant)
    requires ValidInstant(now) && ValidInstant(later)
    requires RollsBack(now, later) && Weekday(now.day) != Sunday
    ensures var r := DayOfInterest(now, later).day;
      !IsWeekend(r) && r < now.day && forall d :: r < d < now.day ==> IsWeekend(d)
    ensures Weekday(now.day) == Monday ==> Weekday(DayOfInterest(now, later).day) == Friday
  {
    var r := DayOfInterest(now, later).day;
    if Weekday(now.day) == Monday {
      forall d | r < d < now.day ensures IsWeekend(d) {
        assert d == now.day - 2 || d == now.day - 1;
      }
    }
  }

  /**
   * The day of interest is a weekend day exactly when the run keeps a
   * weekend day, or rolls back from a Sunday (Saturday is checked then). So
   * a Saturday run that rolls back checks Friday.
   */
  lemma DayOfInterestIsWeekend(now: Instant, later: Instant)
    requires ValidInstant(now) && ValidInstant(later)
    ensures IsWeekend(DayOfInterest(now, later).day) <==>
              (!RollsBack(now, later) && IsWeekend(now.day)) ||
              (RollsBack(now, later) && Weekday(now.day) == Sunday)
  {
    var rollsBack := RollsBack(now, later);
    var r := DayOfInterest(now, later).day;
    if !rollsBack {
      assert r == now.day;
    } else if Weekday(now.day) == Monday {
      assert r == now.day - 3 && Weekday(r) == Friday;
    } else {
      assert r == now.day - 1;
      assert Weekday(r) == if Weekday(now.day) == Sunday then Saturday else Weekday(now.day) - 1;
    }
  }

  /**
   * Builds the day of interest the way the source does, by moving a moment
   * in place: `day(weekday - 3)` on a Monday, `day(weekday - 1)` and then
   * `hour(19)` otherwise.
   */
  method GetDayOfInterest(now: Instant, later: Instant) returns (currentTime: Moment)
    requires ValidInstant(now) && ValidInstant(later)
    ensures fresh(currentTime) && currentTime.Valid()
    ensures currentTime.At() == DayOfInterest(now, later)
  {
    currentTime := new Moment(now);
    var todayAtDeadline := new Moment(later);
    todayAtDeadline.SetHour(TimesheetDeadline);
    if IsBefore(currentTime.At(), todayAtDeadline.At()) {
      var currentDay := Weekday(currentTime.day);
      if currentDay == Monday {
        currentTime.SetWeekday(currentDay - 3);
      } else {
        currentTime.SetWeekday(currentDay - 1);
        currentTime.SetHour(TimesheetDeadline);
      }
    }
  }

  // ---------------------------------------------------------------------
  // Joining chat members to time-tracking users

  /** A chat member; `deleted` and `email` may be missing from the record. */
  datatype SlackMember = SlackMember(id: string, name: string, deleted: Option<bool>, email: Option<string>)

  /** The chat platform's `users.list` answer. */
  datatype SlackUsersList = SlackUsersList(ok: bool, members: seq<SlackMember>)

  datatype LinkedUser = LinkedUser(harvestUser: HarvestUser, slackUser: SlackMember)

  /** Kept only when the `deleted` flag is present and false. */
  predicate IsLive(m: SlackMember)
  {
    m.deleted == Some(false)
  }

  /** Active, not a contractor, and not on the exclusion list. */
  function EligibleFor(excludedUsers: seq<string>): HarvestUser -> bool
  {
    (u: HarvestUser) => u.isActive && !u.isContractor && IndexOf(excludedUsers, u.email) == -1
  }

  function EmailMatcher(email: string): SlackMember -> bool
  {
    (m: SlackMember) => m.email == Some(email)
  }

  /** The record for `u` and the first of `slackers` with its email, if there is one. */
  function Link(slackers: seq<SlackMember>, u: HarvestUser): (r: Option<LinkedUser>)
    ensures r.None? <==> forall j :: 0 <= j < |slackers| ==> slackers[j].email != Some(u.email)
    ensures r.Some? ==> r.value.harvestUser == u && r.value.slackUser in slackers &&
                        r.value.slackUser.email == Some(u.email)
  {
    match Find(EmailMatcher(u.email), slackers)
    case None => None
    case Some(m) => Some(LinkedUser(u, m))
  }

  /** `workers.map(...)`: one possibly missing record per worker. */
  function LinkAll(slackers: seq<SlackMember>, workers: seq<HarvestUser>): (r: seq<Option<LinkedUser>>)
    ensures |r| == |workers|
    ensures forall i :: 0 <= i < |r| ==> r[i] == Link(slackers, workers[i])
  {
    if workers == [] then [] else [Link(slackers, workers[0])] + LinkAll(slackers, workers[1..])
  }

  /** `users.filter(user => typeof user !== 'undefined')`. */
  function Defined(s: seq<Option<LinkedUser>>): (r: seq<LinkedUser>)
    ensures forall x :: x in r <==> Some(x) in s
  {
    if s == [] then []
    else match s[0]
      case Some(x) => [x] + Defined(s[1..])
      case None => Defined(s[1..])
  }

  /** What `MapUsers` promises of each record, from the filters and the search it is built from. */
  lemma LinkedRecordsHold(members: seq<SlackMember>, harvestResult: seq<HarvestUser>, excludedUsers: seq<string>)
    ensures var all := LinkAll(Filter(IsLive, members), Filter(EligibleFor(excludedUsers), harvestResult));
      forall l :: l in Defined(all) ==>
        IsLive(l.slackUser) && l.slackUser in members && l.slackUser.email == Some(l.harvestUser.email) &&
        l.harvestUser in harvestResult && l.harvestUser.isActive && !l.harvestUser.isContractor &&
        l.harvestUser.email !in excludedUsers
  {
    var slackers := Filter(IsLive, members);
    var workers := Filter(EligibleFor(excludedUsers), harvestResult);
    var all := LinkAll(slackers, workers);
    forall l | l in Defined(all)
      ensures IsLive(l.slackUser) && l.slackUser in members && l.slackUser.email == Some(l.harvestUser.email)
      ensures l.harvestUser in harvestResult && l.harvestUser.isActive && !l.harvestUser.isContractor
      ensures l.harvestUser.email !in excludedUsers
    {
      assert Some(l) in all;
      var i :| 0 <= i < |all| && all[i] == Some(l);
      assert l.harvestUser == workers[i] && l.slackUser in slackers;
      assert workers[i] in workers;
    }
  }

  /**
   * Joins chat members to time-tracking users by email. Fails when the chat
   * answer is not ok; otherwise every record pairs a live member with an
   * eligible user of the same email, both taken from the inputs.
   */
  function MapUsers(slackResult: SlackUsersList, harvestResult: seq<HarvestUser>, excludedUsers: seq<string>)
    : (r: Result<seq<LinkedUser>, string>)
    ensures r.Err? <==> !slackResult.ok
    ensures r.Err? ==> r.error == "Not okay"
    ensures r.Ok? ==> forall k :: 0 <= k < |r.value| ==>
              var l := r.value[k];
              IsLive(l.slackUser) && l.slackUser in slackResult.members &&
              l.slackUser.email == Some(l.harvestUser.email) &&
              l.harvestUser in harvestResult && l.harvestUser.isActive && !l.harvestUser.isContractor &&
              l.harvestUser.email !in excludedUsers
  {
    if !slackResult.ok then Err("Not okay")
    else
      var slackers := Filter(IsLive, slackResult.members);
      var workers := Filter(EligibleFor(excludedUsers), harvestResult);
      LinkedRecordsHold(slackResult.members, harvestResult, excludedUsers);
      Ok(Defined(LinkAll(slackers, workers)))
  }

  function HarvestSide(users: seq<LinkedUser>): (r: seq<HarvestUser>)
    ensures |r| == |users|
    ensures forall i :: 0 <= i < |r| ==> r[i] == users[i].harvestUser
  {
    if users == [] then [] else [users[0].harvestUser] + HarvestSide(users[1..])
  }

  /** Some live member of `members` has `email`. */
  predicate HasLiveMatch(members: seq<SlackMember>, email: string)
  {
    exists j :: 0 <= j < |members| && IsLive(members[j]) && members[j].email == Some(email)
  }

  /** The users the join must link: eligible, with a live member of the same email. */
  function Linkable(members: seq<SlackMember>, excludedUsers: seq<string>): HarvestUser -> bool
  {
    (u: HarvestUser) => EligibleFor(excludedUsers)(u) && HasLiveMatch(members, u.email)
  }

  /** `l` pairs its user with the first live member of `members` that has the user's email. */
  ghost predicate IsFirstLiveMatch(members: seq<SlackMember>, l: LinkedUser)
  {
    exists i :: 0 <= i < |members| && members[i] == l.slackUser && IsLive(members[i]) &&
                members[i].email == Some(l.harvestUser.email) &&
                forall j :: 0 <= j < i ==> !(IsLive(members[j]) && members[j].email == Some(l.harvestUser.email))
  }

  function LiveMatcher(email: string): SlackMember -> bool
  {
    (m: SlackMember) => IsLive(m) && m.email == Some(email)
  }

  lemma {:induction false} DefinedLinksAreMatches(slackers: seq<SlackMember>, workers: seq<HarvestUser>)
    ensures HarvestSide(Defined(LinkAll(slackers, workers))) ==
            Filter((u: HarvestUser) => Link(slackers, u).Some?, workers)
  {
    if workers != [] {
      DefinedLinksAreMatches(slackers, workers[1..]);
      var all := LinkAll(slackers, workers);
      assert all[1..] == LinkAll(slackers, workers[1..]);
    }
  }

  /** Searching the live members for an email searches the whole list for a live member with it. */
  lemma LiveSearch(members: seq<SlackMember>, email: string)
    ensures Find(EmailMatcher(email), Filter(IsLive, members)) == Find(LiveMatcher(email), members)
  {
    FindAfterFilter(IsLive, EmailMatcher(email), LiveMatcher(email), members);
  }

  /**
   * The users the join links are exactly the eligible users that have a live
   * member of the same email, in the order of the time-tracking list and
   * one record per such user (what `Filter` promises).
   */
  lemma {:induction false} MapUsersLinksExactlyLinkable(slackResult: SlackUsersList, harvestResult: seq<HarvestUser>,
                                                       excludedUsers: seq<string>)
    requires slackResult.ok
    ensures HarvestSide(MapUsers(slackResult, harvestResult, excludedUsers).value) ==
            Filter(Linkable(slackResult.members, excludedUsers), harvestResult)
  {
    var members := slackResult.members;
    var slackers := Filter(IsLive, members);
    var workers := Filter(EligibleFor(excludedUsers), harvestResult);
    var hasLink := (u: HarvestUser) => Link(slackers, u).Some?;
    forall u: HarvestUser
      ensures Linkable(members, excludedUsers)(u) == (EligibleFor(excludedUsers)(u) && hasLink(u))
    {
      LiveSearch(members, u.email);
    }
    DefinedLinksAreMatches(slackers, workers);
    FilterFilter(EligibleFor(excludedUsers), hasLink, Linkable(members, excludedUsers), harvestResult);
  }

  /** Every user the join links is paired with the first live chat member of the same email. */
  lemma {:induction false} MapUsersPairsFirstLiveMatch(slackResult: SlackUsersList, harvestResult: seq<HarvestUser>,
                                                      excludedUsers: seq<string>)
    requires slackResult.ok
    ensures var users := MapUsers(slackResult, harvestResult, excludedUsers).value;
      forall k :: 0 <= k < |users| ==> IsFirstLiveMatch(slackResult.members, users[k])
  {
    var members := slackResult.members;
    var slackers := Filter(IsLive, members);
    var workers := Filter(EligibleFor(excludedUsers), harvestResult);
    var all := LinkAll(slackers, workers);
    var users := Defined(all);
    forall k | 0 <= k < |users| ensures IsFirstLiveMatch(members, users[k]) {
      var l := users[k];
      assert Some(l) in all;
      var i :| 0 <= i < |all| && all[i] == Some(l);
      assert Link(slackers, workers[i]) == Some(l);
      LiveSearch(members, l.harvestUser.email);
      FoundIsFirstLiveMatch(members, l);
    }
  }

  lemma FoundIsFirstLiveMatch(members: seq<SlackMember>, l: LinkedUser)
    requires Find(LiveMatcher(l.harvestUser.email), members) == Some(l.slackUser)
    ensures IsFirstLiveMatch(members, l)
  {
    var i :| 0 <= i < |members| && members[i] == l.slackUser && LiveMatcher(l.harvestUser.email)(members[i]) &&
             forall j :: 0 <= j < i ==> !LiveMatcher(l.harvestUser.email)(members[j]);
  }

  // ---------------------------------------------------------------------
  // Users to nag

  /** A linked user with the time entries fetched for the day of interest. */
  datatype FetchedUser = FetchedUser(user: LinkedUser, entries: seq<DayEntry>)

  /**
   * Attaches to every linked user the entries `fetchEntries(userId, day)`
   * returns; the time-tracking report call is a parameter.
   */
  function AttachEntries(users: seq<LinkedUser>, fetchEntries: (int, int) -> seq<DayEntry>, day: int)
    : (r: seq<FetchedUser>)
    ensures |r| == |users|
    ensures forall i :: 0 <= i < |r| ==>
              r[i].user == users[i] && r[i].entries == fetchEntries(users[i].harvestUser.id, day)
  {
    if users == [] then []
    else [FetchedUser(users[0], fetchEntries(users[0].harvestUser.id, day))] +
         AttachEntries(users[1..], fetchEntries, day)
  }

  predicate HasNoEntries(u: FetchedUser)
  {
    |u.entries| == 0
  }

  /**
   * The users to nag: exactly those whose entry list is empty, in input
   * order, one per such position of the input.
   */
  function UsersOfInterest(users: seq<FetchedUser>): (r: seq<FetchedUser>)
    ensures forall u :: u in r <==> u in users && u.entries == []
    ensures IsSubsequence(r, users)
    ensures |r| == CountWhere(HasNoEntries, users)
  {
    Filter(HasNoEntries, users)
  }

  // ---------------------------------------------------------------------
  // The nag message

  /** `<@id|name>`, a chat mention of a member. */
  function Mention(m: SlackMember): (s: string)
  {
    "<@" + m.id + "|" + m.name + ">"
  }

  /** Reads a mention back into the member's id and name. */
  function ParseMention(s: string): Option<(string, string)>
  {
    if |s| < 3 || s[..2] != "<@" || s[|s| - 1] != '>' then None
    else
      var body := s[2..|s| - 1];
      var bar := IndexOf(body, '|');
      if bar == -1 then None else Some((body[..bar], body[bar + 1..]))
  }

  /** A mention reads back as the member's id and name when the id holds no `|`. */
  lemma MentionRoundTrip(m: SlackMember)
    requires '|' !in m.id
    ensures ParseMention(Mention(m)) == Some((m.id, m.name))
  {
    var s := Mention(m);
    var body := s[2..|s| - 1];
    assert body == m.id + "|" + m.name;
    assert body[|m.id|] == '|';
    assert body[..|m.id|] == m.id;
    assert IndexOf(body, '|') == |m.id|;
    assert body[|m.id| + 1..] == m.name;
  }

  function Mentions(users: seq<FetchedUser>): (r: seq<string>)
    ensures |r| == |users|
    ensures forall i :: 0 <= i < |r| ==> r[i] == Mention(users[i].user.slackUser)
  {
    if users == [] then [] else [Mention(users[0].user.slackUser)] + Mentions(users[1..])
  }

  const AskText := ". Could you check your timesheets are up to date for "

  /**
   * The nag text: "Hey ", the mentions joined by `oxford` (the list-joining
   * library, a parameter here), the question, and the day's weekday name
   * followed by "? ".
   */
  function NagMessage(oxford: seq<string> -> string, users: seq<FetchedUser>, today: int): (msg: string)
    ensures "Hey " + oxford(Mentions(users)) <= msg
    ensures |msg| >= |WeekdayName(today)| + 2 && msg[|msg| - |WeekdayName(today)| - 2..] == WeekdayName(today) + "? "
  {
    var list := oxford(Mentions(users));
    "Hey " + list + AskText + WeekdayName(today) + "? "
  }

  /**
   * The nag text names the weekday of the day of interest: for the same
   * users, two days give the same text exactly when they share a weekday.
   */
  lemma {:induction false} NagMessageNamesWeekday(oxford: seq<string> -> string, users: seq<FetchedUser>, a: int, b: int)
    ensures NagMessage(oxford, users, a) == NagMessage(oxford, users, b) <==> Weekday(a) == Weekday(b)
  {
    var p := "Hey " + oxford(Mentions(users)) + AskText;
    var x, y := WeekdayName(a) + "? ", WeekdayName(b) + "? ";
    assert NagMessage(oxford, users, a) == p + x;
    assert NagMessage(oxford, users, b) == p + y;
    if p + x == p + y {
      assert x == (p + x)[|p|..] && y == (p + y)[|p|..];
      assert WeekdayName(a) == x[..|x| - 2] && WeekdayName(b) == y[..|y| - 2];
    }
    WeekdayNameIdentifiesWeekday(a, b);
  }

  // ---------------------------------------------------------------------
  // The whole check

  datatype CheckOutcome = HolidaySkipped | Checked(usersOfInterest: seq<FetchedUser>, message: Option<string>)

  /**
   * One run of the timesheet check, with the two clock readings `now` and
   * `later` of the day of interest. When the day of
   * interest is a holiday nothing is fetched and the run reports it; a
   * failing join is rethrown as `Error: Not okay`; otherwise the users whose
   * fetched entries are empty are returned, and a nag message is composed
   * when there is at least one.
   */
  method CheckTimeSheets(now: Instant, later: Instant, publicHolidays: seq<int>, slackResult: SlackUsersList,
                         people: seq<HarvestUser>, excludedUsers: seq<string>,
                         fetchEntries: (int, int) -> seq<DayEntry>, oxford: seq<string> -> string)
    returns (r: Result<CheckOutcome, string>)
    requires ValidInstant(now) && ValidInstant(later)
    ensures var today := DayOfInterest(now, later).day;
      IsHoliday(today, publicHolidays) ==> r == Ok(HolidaySkipped)
    ensures var today := DayOfInterest(now, later).day;
      !IsHoliday(today, publicHolidays) && !slackResult.ok ==> r == Err("Error: Not okay")
    ensures var today := DayOfInterest(now, later).day;
      !IsHoliday(today, publicHolidays) && slackResult.ok ==>
        var linked := MapUsers(slackResult, people, excludedUsers).value;
        var nag := UsersOfInterest(AttachEntries(linked, fetchEntries, today));
        r == Ok(Checked(nag, if nag == [] then None else Some(NagMessage(oxford, nag, today))))
  {
    var today := GetDayOfInterest(now, later);
    if IsHoliday(today.day, publicHolidays) {
      return Ok(HolidaySkipped);
    }
    var joined := MapUsers(slackResult, people, excludedUsers);
    if joined.Err? {
      assert joined.error == "Not okay";
      assert "Error: " + joined.error == "Error: Not okay";
      return Err("Error: " + joined.error);
    }
    var users := AttachEntries(joined.value, fetchEntries, today.day);
    var usersOfInterest := UsersOfInterest(users);
    var message := None;
    if |usersOfInterest| > 0 {
      message := Some(NagMessage(oxford, usersOfInterest, today.day));
    }
    return Ok(Checked(usersOfInterest, message));
  }
}
