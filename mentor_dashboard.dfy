/** The mentor dashboard's derived views: the meetings matching the search
    box and the status filter, those meetings grouped by calendar day, the
    days in date order, the counts shown at the top, and the colour of each
    status badge. Dates are timestamps; `dayOf` maps a timestamp to the
    locale's day label and `timeOf` maps a day label back to a timestamp. */
module MentorDashboardView {
  import opened Common
  import opened Strings
  import opened Lists
  import opened MeetingModel
  import opened MentorPortal

  /** The status drop-down: every status, or one. */
  datatype StatusFilter = All | Only(status: Status)

  /** The search box matches a meeting when its topic or its student's name
      contains the search text, ignoring case. */
  predicate MatchesSearch(m: PortalMeeting, term: string) {
    Includes(ToLower(m.topic), ToLower(term)) || Includes(ToLower(m.student.fullName), ToLower(term))
  }

  predicate MatchesStatus(m: PortalMeeting, filter: StatusFilter) {
    filter.All? || m.status == filter.status
  }

  /** The test a meeting must pass to be listed. */
  function ShownBy(term: string, filter: StatusFilter): PortalMeeting -> bool {
    m => MatchesSearch(m, term) && MatchesStatus(m, filter)
  }

  /** The listed meetings, in the order received. */
  function FilterMeetings(meetings: seq<PortalMeeting>, term: string, filter: StatusFilter): (r: seq<PortalMeeting>)
    ensures |r| <= |meetings|
    ensures forall k :: 0 <= k < |r| ==> MatchesSearch(r[k], term) && MatchesStatus(r[k], filter)
  {
    var r := Filter(meetings, ShownBy(term, filter));
    assert forall k :: 0 <= k < |r| ==> ShownBy(term, filter)(r[k]);
    r
  }

  /** A meeting is listed exactly when it was received and it matches both
      the search text and the status filter. */
  lemma FilterMeetingsMembers(meetings: seq<PortalMeeting>, term: string, filter: StatusFilter, m: PortalMeeting)
    ensures m in FilterMeetings(meetings, term, filter) <==>
      m in meetings && MatchesSearch(m, term) && MatchesStatus(m, filter)
  {
    FilterMembership(meetings, ShownBy(term, filter), m);
  }

  /** With an empty search and every status selected, every meeting is listed. */
  lemma EmptySearchShowsAll(meetings: seq<PortalMeeting>)
    ensures FilterMeetings(meetings, "", All) == meetings
  {
    forall k | 0 <= k < |meetings|
      ensures ShownBy("", All)(meetings[k])
    {
      IncludesEmpty(ToLower(meetings[k].topic));
    }
    FilterIdentity(meetings, ShownBy("", All));
  }

  /** Listing keeps the received order: the listed meetings of two runs of
      meetings one after the other are those of the first, then those of the
      second. */
  lemma FilterMeetingsKeepsOrder(a: seq<PortalMeeting>, b: seq<PortalMeeting>, term: string, filter: StatusFilter)
    ensures FilterMeetings(a + b, term, filter) == FilterMeetings(a, term, filter) + FilterMeetings(b, term, filter)
  {
    FilterConcat(a, b, ShownBy(term, filter));
  }

  /** The meetings of one day, in list order. */
  function DayGroup(meetings: seq<PortalMeeting>, dayOf: int -> string, day: string): (r: seq<PortalMeeting>)
    ensures |r| <= |meetings|
    ensures forall k :: 0 <= k < |r| ==> dayOf(r[k].date) == day
    decreases |meetings|
  {
    if meetings == [] then []
    else
      var last := meetings[|meetings| - 1];
      DayGroup(meetings[..|meetings| - 1], dayOf, day) + (if dayOf(last.date) == day then [last] else [])
  }

  /** One more meeting at the end joins the end of its own day's group only. */
  lemma DayGroupSnoc(meetings: seq<PortalMeeting>, m: PortalMeeting, dayOf: int -> string, day: string)
    ensures DayGroup(meetings + [m], dayOf, day) ==
      DayGroup(meetings, dayOf, day) + (if dayOf(m.date) == day then [m] else [])
  {
    assert (meetings + [m])[..|meetings|] == meetings;
  }

  /** Each meeting is in exactly one group: the one for its own day. */
  lemma {:induction false} DayGroupMembers(meetings: seq<PortalMeeting>, dayOf: int -> string, day: string, m: PortalMeeting)
    ensures m in DayGroup(meetings, dayOf, day) <==> m in meetings && dayOf(m.date) == day
    decreases |meetings|
  {
    if meetings != [] {
      var init := meetings[..|meetings| - 1];
      DayGroupMembers(init, dayOf, day, m);
      assert meetings == init + [meetings[|meetings| - 1]];
    }
  }

  /** Builds the groups the way the page does, one meeting at a time,
      opening a group the first time its day is seen. Returns the groups and
      their days in the order they were opened. */
  method GroupByDay(filtered: seq<PortalMeeting>, dayOf: int -> string)
    returns (groups: map<string, seq<PortalMeeting>>, days: seq<string>)
    ensures forall day :: day in groups <==> DayGroup(filtered, dayOf, day) != []
    ensures forall day :: day in groups ==> groups[day] == DayGroup(filtered, dayOf, day)
    ensures NoDuplicates(days)
    ensures forall day :: day in days <==> day in groups
  {
    groups := map[];
    days := [];
    var i := 0;
    while i < |filtered|
      invariant 0 <= i <= |filtered|
      invariant forall day :: day in groups <==> DayGroup(filtered[..i], dayOf, day) != []
      invariant forall day :: day in groups ==> groups[day] == DayGroup(filtered[..i], dayOf, day)
      invariant NoDuplicates(days)
      invariant forall day :: day in days <==> day in groups
    {
      var m := filtered[i];
      var key := dayOf(m.date);
      assert filtered[..i + 1] == filtered[..i] + [m];
      forall day
        ensures DayGroup(filtered[..i + 1], dayOf, day) ==
          DayGroup(filtered[..i], dayOf, day) + (if key == day then [m] else [])
      {
        DayGroupSnoc(filtered[..i], m, dayOf, day);
      }
      if key !in groups {
        groups := groups[key := []];
        days := days + [key];
      }
      groups := groups[key := groups[key] + [m]];
      i := i + 1;
    }
    assert filtered[..|filtered|] == filtered;
  }

  /** The group days in ascending date order; the same days, each once. */
  function SortedDates(days: seq<string>, timeOf: string -> int): (r: seq<string>)
    ensures SortedBy(r, timeOf)
    ensures multiset(r) == multiset(days)
  {
    SortBy(days, timeOf)
  }

  /** Sorting lists the same days, and never one twice when none was. */
  lemma SortedDatesSameDays(days: seq<string>, timeOf: string -> int)
    ensures forall d :: d in SortedDates(days, timeOf) <==> d in days
    ensures NoDuplicates(days) ==> NoDuplicates(SortedDates(days, timeOf))
  {
    var r := SortedDates(days, timeOf);
    forall d
      ensures d in r <==> d in days
    {
      assert d in r <==> d in multiset(r);
      assert d in days <==> d in multiset(days);
    }
    if NoDuplicates(days) {
      forall i, j | 0 <= i < j < |r|
        ensures r[i] != r[j]
      {
        if r[i] == r[j] {
          MultisetAtLeastTwo(r, i, j);
          NoDuplicatesCountOne(days, r[i]);
        }
      }
    }
  }

  /** A value at two positions occurs at least twice. */
  lemma MultisetAtLeastTwo<T>(s: seq<T>, i: nat, j: nat)
    requires i < j < |s| && s[i] == s[j]
    ensures multiset(s)[s[i]] >= 2
  {
    assert s == s[..i] + [s[i]] + s[i + 1..j] + [s[j]] + s[j + 1..];
  }

  /** In a list without duplicates a value occurs at most once. */
  lemma {:induction false} NoDuplicatesCountOne<T>(s: seq<T>, x: T)
    requires NoDuplicates(s)
    ensures multiset(s)[x] <= 1
    decreases |s|
  {
    if s != [] {
      NoDuplicatesCountOne(s[1..], x);
      assert s == [s[0]] + s[1..];
      if s[0] == x {
        assert x !in s[1..];
      }
    }
  }

  /** Meetings still to come: dated after `now` and scheduled. */
  predicate Upcoming(m: PortalMeeting, now: int) {
    m.date > now && m.status == Scheduled
  }

  function UpcomingBy(now: int): PortalMeeting -> bool {
    m => Upcoming(m, now)
  }

  /** The three counts at the top of the dashboard. */
  datatype Stats = Stats(today: nat, upcoming: nat, total: nat)

  /** Today's count is the size of today's group among the listed meetings;
      the upcoming count and the total are taken over every meeting,
      whatever the search and the filter. */
  function Statistics(meetings: seq<PortalMeeting>, term: string, filter: StatusFilter,
                      dayOf: int -> string, now: int): (s: Stats)
    ensures s.total == |meetings|
    ensures s.upcoming <= s.total && s.today <= s.total
    ensures s.today == |DayGroup(FilterMeetings(meetings, term, filter), dayOf, dayOf(now))|
    ensures s.upcoming == |Filter(meetings, UpcomingBy(now))|
  {
    Stats(|DayGroup(FilterMeetings(meetings, term, filter), dayOf, dayOf(now))|,
          |Filter(meetings, UpcomingBy(now))|,
          |meetings|)
  }

  /** A meeting is counted as upcoming exactly when it is one of the
      mentor's meetings, dated after now, and scheduled. */
  lemma UpcomingMembers(meetings: seq<PortalMeeting>, now: int, m: PortalMeeting)
    ensures m in Filter(meetings, UpcomingBy(now)) <==> m in meetings && m.date > now && m.status == Scheduled
  {
    FilterMembership(meetings, UpcomingBy(now), m);
  }

  /** Badge colours. */
  datatype Color = Blue | Green | Red | Gray

  /** The badge colour of a status name: one colour per status, grey for a
      name that is not a status. */
  function StatusColor(status: string): (c: Color)
    ensures c == Gray <==> ParseStatus(status).None?
    ensures ParseStatus(status) == Some(Scheduled) ==> c == Blue
    ensures ParseStatus(status) == Some(Completed) ==> c == Green
    ensures ParseStatus(status) == Some(Cancelled) ==> c == Red
  {
    if status == "scheduled" then Blue
    else if status == "completed" then Green
    else if status == "cancelled" then Red
    else Gray
  }

  /** Different statuses never share a colour. */
  lemma StatusColorDistinct(a: Status, b: Status)
    requires a != b
    ensures StatusColor(StatusName(a)) != StatusColor(StatusName(b))
  {
    ParseStatusName(a);
    ParseStatusName(b);
  }

  /** The dashboard's own state: the search text and the status filter. */
  class MentorDashboardPage {
    var searchTerm: string
    var statusFilter: StatusFilter

    constructor ()
      ensures searchTerm == "" && statusFilter == All
    {
      searchTerm := "";
      statusFilter := All;
    }

    method SetSearchTerm(term: string)
      modifies this
      ensures searchTerm == term && statusFilter == old(statusFilter)
    {
      searchTerm := term;
    }

    method SetStatusFilter(filter: StatusFilter)
      modifies this
      ensures statusFilter == filter && searchTerm == old(searchTerm)
    {
      statusFilter := filter;
    }

    /** What the page shows for the given meetings: the listed meetings,
        their groups, the group days in date order and the counts. */
    method View(meetings: seq<PortalMeeting>, dayOf: int -> string, timeOf: string -> int, now: int)
      returns (shown: seq<PortalMeeting>, groups: map<string, seq<PortalMeeting>>, dates: seq<string>, stats: Stats)
      ensures shown == FilterMeetings(meetings, searchTerm, statusFilter)
      ensures forall day :: day in groups <==> DayGroup(shown, dayOf, day) != []
      ensures forall day :: day in groups ==> groups[day] == DayGroup(shown, dayOf, day)
      ensures SortedBy(dates, timeOf) && NoDuplicates(dates)
      ensures forall day :: day in dates <==> day in groups
      ensures stats == Statistics(meetings, searchTerm, statusFilter, dayOf, now)
    {
      shown := FilterMeetings(meetings, searchTerm, statusFilter);
      var days;
      groups, days := GroupByDay(shown, dayOf);
      dates := SortedDates(days, timeOf);
      SortedDatesSameDays(days, timeOf);
      stats := Statistics(meetings, searchTerm, statusFilter, dayOf, now);
    }
  }
}
