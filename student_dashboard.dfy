/** The student dashboard: it loads mentors for the student's first
    preferred industry (falling back to every mentor), loads the student's
    meetings, and books a meeting with a chosen mentor. Each network
    exchange is a parameter: the response the server gave, or the failure. */
module StudentDashboard {
  import opened Common
  import opened Strings
  import opened Lists
  import opened MeetingModel
  import MentorModel

  /** Which mentor list is requested first. */
  datatype MentorQuery = ByIndustry(industry: string) | AllMentors

  /** The first preferred industry when there is one and it is not the empty
      string (which JavaScript treats as false); otherwise every mentor. */
  function MentorQueryFor(industryPreference: seq<string>): (q: MentorQuery)
    ensures q.ByIndustry? <==> |industryPreference| > 0 && industryPreference[0] != ""
    ensures q.ByIndustry? ==> q.industry == industryPreference[0]
  {
    if |industryPreference| > 0 && industryPreference[0] != "" then ByIndustry(industryPreference[0])
    else AllMentors
  }

  /** The preference used when the dashboard is given none. */
  const DefaultIndustryPreference: seq<string> := ["tech"]

  /** What a checked request yields: a non-2xx status, a failure before any
      response (network, JSON parsing), or the decoded body. */
  datatype Response<T> = HttpError(status: nat) | NetworkError(message: string) | Body(data: T)

  /** The message a non-2xx status is turned into. */
  function HttpErrorMessage(status: nat): (m: string)
    ensures StartsWith(m, "HTTP error! status: ")
    ensures |m| > |"HTTP error! status: "|
    ensures m[|"HTTP error! status: "|..] == NatToString(status)
    ensures DecimalValue(m[|"HTTP error! status: "|..]) == status
  {
    NatToStringValue(status);
    "HTTP error! status: " + NatToString(status)
  }

  /** The message a failed checked request carries. */
  function FailureMessage<T>(r: Response<T>): string
    requires !r.Body?
  {
    if r.HttpError? then HttpErrorMessage(r.status) else r.message
  }

  /** The fallback request for every mentor does not look at the status: it
      either fails outright, or its decoded body is used when it is a
      non-empty list (an error body, not being a list, counts as empty). */
  datatype FallbackOutcome = FallbackFailed(message: string) | FallbackBody(mentors: seq<MentorModel.Mentor>)

  /** What the mentor list becomes after loading. */
  datatype LoadOutcome =
    | Loaded(mentors: seq<MentorModel.Mentor>)
    | KeptPrevious
    | LoadFailed(message: string)

  /** The loading chain: a non-empty first result is shown; an empty one
      triggers the fallback, whose non-empty result is shown and whose empty
      result keeps the list as it was; any failure empties the list. */
  function MentorLoad(first: Response<seq<MentorModel.Mentor>>, fallback: FallbackOutcome): (o: LoadOutcome)
    ensures o.Loaded? ==> |o.mentors| > 0
    ensures first.Body? && |first.data| > 0 ==> o == Loaded(first.data)
    ensures !first.Body? ==> o == LoadFailed(FailureMessage(first))
    ensures first.Body? && first.data == [] ==>
      (fallback.FallbackFailed? ==> o == LoadFailed(fallback.message))
      && (fallback.FallbackBody? && |fallback.mentors| > 0 ==> o == Loaded(fallback.mentors))
      && (fallback.FallbackBody? && fallback.mentors == [] ==> o == KeptPrevious)
  {
    match first
    case HttpError(status) => LoadFailed(HttpErrorMessage(status))
    case NetworkError(message) => LoadFailed(message)
    case Body(data) =>
      if |data| > 0 then Loaded(data)
      else
        match fallback
        case FallbackFailed(message) => LoadFailed(message)
        case FallbackBody(all) => if |all| > 0 then Loaded(all) else KeptPrevious
  }

  /** The fallback is consulted only when the first list is empty. */
  lemma FallbackOnlyWhenEmpty(first: Response<seq<MentorModel.Mentor>>, f1: FallbackOutcome, f2: FallbackOutcome)
    requires MentorLoad(first, f1) != MentorLoad(first, f2)
    ensures first.Body? && first.data == []
  {
  }

  /** The list shown after loading, given the list shown before. */
  function MentorsAfter(previous: seq<MentorModel.Mentor>, o: LoadOutcome): (r: seq<MentorModel.Mentor>)
    ensures o.LoadFailed? ==> r == []
    ensures o.KeptPrevious? ==> r == previous
    ensures o.Loaded? ==> r == o.mentors
  {
    match o
    case Loaded(mentors) => mentors
    case KeptPrevious => previous
    case LoadFailed(_) => []
  }

  /** The request a booking sends. */
  datatype BookingRequest = BookingRequest(
    userId: string,
    mentorId: string,
    date: int,
    timeSlot: string,
    topic: string,
    status: Status,
    meetingLink: string)

  const MeetingLinkPrefix: string := "https://meet.google.com/"

  /** The booking check and request: nothing is sent unless a mentor is
      selected and the date, slot, topic and student id are all non-empty;
      the request asks for a scheduled meeting with the selected mentor.
      `dateOf` reads the picked date and `linkCode` is the random part of
      the meeting link. */
  function Booking(selected: Option<MentorModel.Mentor>, date: string, slot: string, topic: string,
                   userId: Option<string>, dateOf: string -> int, linkCode: string): (r: Option<BookingRequest>)
    ensures r.Some? <==>
      selected.Some? && date != "" && slot != "" && topic != "" && userId.Some? && userId.value != ""
    ensures r.Some? ==>
      && r.value.status == Scheduled
      && r.value.mentorId == selected.value.id
      && r.value.userId == userId.value
      && r.value.date == dateOf(date)
      && r.value.timeSlot == slot && r.value.topic == topic
      && StartsWith(r.value.meetingLink, MeetingLinkPrefix)
  {
    if selected.None? || date == "" || slot == "" || topic == "" || userId.None? || userId.value == "" then None
    else
      Some(BookingRequest(userId.value, selected.value.id, dateOf(date), slot, topic, Scheduled,
                          MeetingLinkPrefix + linkCode))
  }

  /** The body the server receives for a booking request. */
  function RequestInput(req: BookingRequest): MeetingInput {
    MeetingInput(Some(req.userId), Some(req.mentorId), Some(req.date), Some(req.timeSlot),
                 Some(StatusName(req.status)), Some(req.topic), None, Some(req.meetingLink))
  }

  /** Every request the dashboard sends for a mentor with an id passes the
      meeting schema, and the meeting created is scheduled with that mentor
      in the requested slot. */
  lemma BookingAccepted(selected: Option<MentorModel.Mentor>, date: string, slot: string, topic: string,
                        userId: Option<string>, dateOf: string -> int, linkCode: string, id: string)
    requires Booking(selected, date, slot, topic, userId, dateOf, linkCode).Some?
    requires selected.value.id != ""
    ensures var m := CreateMeeting(id, RequestInput(Booking(selected, date, slot, topic, userId, dateOf, linkCode).value));
      && m.Ok?
      && m.value.status == Scheduled && m.value.mentorId == selected.value.id
      && m.value.timeSlot == slot && m.value.userId == userId.value
  {
    var req := Booking(selected, date, slot, topic, userId, dateOf, linkCode).value;
    ParseStatusName(req.status);
  }

  /** The slot choices offered for a mentor: every slot of every day, in order. */
  function OfferedSlots(availability: seq<MentorModel.DaySlots>): (r: seq<string>)
  {
    Flatten(SlotLists(availability))
  }

  function SlotLists(availability: seq<MentorModel.DaySlots>): (r: seq<seq<string>>)
    ensures |r| == |availability|
    ensures forall i :: 0 <= i < |r| ==> r[i] == availability[i].slots
  {
    seq(|availability|, i requires 0 <= i < |availability| => availability[i].slots)
  }

  /** A slot is offered exactly when some day of the mentor's availability lists it. */
  lemma OfferedSlotsMembers(availability: seq<MentorModel.DaySlots>, slot: string)
    ensures slot in OfferedSlots(availability) <==> exists i :: 0 <= i < |availability| && slot in availability[i].slots
  {
    FlattenMembership(SlotLists(availability), slot);
  }

  /** As many choices are offered as there are slots, day by day. */
  lemma OfferedSlotsCount(availability: seq<MentorModel.DaySlots>)
    ensures |OfferedSlots(availability)| == TotalLength(SlotLists(availability))
  {
    FlattenLength(SlotLists(availability));
  }

  /** The dashboard page. */
  class DashboardPage {
    const userId: Option<string>
    const industryPreference: seq<string>
    var mentors: seq<MentorModel.Mentor>
    var meetings: seq<Meeting>
    var loading: bool
    var error: Option<string>
    var selectedMentor: Option<MentorModel.Mentor>
    var showMeetingModal: bool
    var meetingDate: string
    var meetingSlot: string
    var meetingTopic: string

    /** A fresh page: nothing loaded yet and loading under way; an absent
        industry preference becomes the default one. */
    constructor (userId: Option<string>, industryPreference: Option<seq<string>>)
      ensures this.userId == userId
      ensures this.industryPreference == industryPreference.GetOr(DefaultIndustryPreference)
      ensures mentors == [] && meetings == [] && loading && error.None?
      ensures selectedMentor.None? && !showMeetingModal
      ensures meetingDate == "" && meetingSlot == "" && meetingTopic == ""
    {
      this.userId := userId;
      this.industryPreference := industryPreference.GetOr(DefaultIndustryPreference);
      mentors := [];
      meetings := [];
      loading := true;
      error := None;
      selectedMentor := None;
      showMeetingModal := false;
      meetingDate := "";
      meetingSlot := "";
      meetingTopic := "";
    }

    /** Loads the mentors: `first` answers the request for `query`, and
        `fallback` the request for every mentor, made only when the first list
        is empty. Loading ends in every case; only a failure sets the error. */
    method LoadMentors(first: Response<seq<MentorModel.Mentor>>, fallback: FallbackOutcome)
      returns (query: MentorQuery)
      modifies this
      ensures query == MentorQueryFor(industryPreference)
      ensures !loading
      ensures mentors == MentorsAfter(old(mentors), MentorLoad(first, fallback))
      ensures MentorLoad(first, fallback).LoadFailed? ==> error == Some(MentorLoad(first, fallback).message)
      ensures !MentorLoad(first, fallback).LoadFailed? ==> error == old(error)
      ensures meetings == old(meetings) && selectedMentor == old(selectedMentor)
      ensures showMeetingModal == old(showMeetingModal)
      ensures meetingDate == old(meetingDate) && meetingSlot == old(meetingSlot)
      ensures meetingTopic == old(meetingTopic)
    {
      query := MentorQueryFor(industryPreference);
      loading := true;
      var outcome := MentorLoad(first, fallback);
      match outcome {
        case Loaded(list) =>
          mentors := list;
        case KeptPrevious =>
        case LoadFailed(message) =>
          error := Some(message);
          mentors := [];
      }
      loading := false;
    }

    /** Loads the student's meetings when the page has a student id: a
        successful response replaces the list, a failure is only logged. */
    method LoadMeetings(response: Response<seq<Meeting>>) returns (requested: bool)
      modifies this
      ensures requested <==> userId.Some? && userId.value != ""
      ensures requested && response.Body? ==> meetings == response.data
      ensures !(requested && response.Body?) ==> meetings == old(meetings)
      ensures mentors == old(mentors) && loading == old(loading) && error == old(error)
      ensures selectedMentor == old(selectedMentor) && showMeetingModal == old(showMeetingModal)
      ensures meetingDate == old(meetingDate) && meetingSlot == old(meetingSlot)
      ensures meetingTopic == old(meetingTopic)
    {
      requested := userId.Some? && userId.value != "";
      if requested && response.Body? {
        meetings := response.data;
      }
    }

    /** Opens the booking form for a mentor. */
    method ScheduleMeeting(mentor: MentorModel.Mentor)
      modifies this
      ensures selectedMentor == Some(mentor) && showMeetingModal
      ensures mentors == old(mentors) && meetings == old(meetings)
      ensures loading == old(loading) && error == old(error)
      ensures meetingDate == old(meetingDate) && meetingSlot == old(meetingSlot)
      ensures meetingTopic == old(meetingTopic)
    {
      selectedMentor := Some(mentor);
      showMeetingModal := true;
    }

    /** Closes the booking form, keeping what was typed. */
    method CloseModal()
      modifies this
      ensures !showMeetingModal
      ensures selectedMentor == old(selectedMentor)
      ensures mentors == old(mentors) && meetings == old(meetings)
      ensures loading == old(loading) && error == old(error)
      ensures meetingDate == old(meetingDate) && meetingSlot == old(meetingSlot)
      ensures meetingTopic == old(meetingTopic)
    {
      showMeetingModal := false;
    }

    /** Typing in the booking form. */
    method EditBooking(date: string, slot: string, topic: string)
      modifies this
      ensures meetingDate == date && meetingSlot == slot && meetingTopic == topic
      ensures selectedMentor == old(selectedMentor) && showMeetingModal == old(showMeetingModal)
      ensures mentors == old(mentors) && meetings == old(meetings)
      ensures loading == old(loading) && error == old(error)
    {
      meetingDate := date;
      meetingSlot := slot;
      meetingTopic := topic;
    }

    /** Submits the booking form. An incomplete form sends nothing and
        changes nothing. Otherwise the request is sent and `response` is the
        server's answer: the created meeting is appended at the end, the form
        is closed and its fields cleared; a failure changes nothing. */
    method SubmitMeeting(dateOf: string -> int, linkCode: string, response: Response<Meeting>)
      returns (request: Option<BookingRequest>)
      modifies this
      ensures request == Booking(old(selectedMentor), old(meetingDate), old(meetingSlot), old(meetingTopic),
                                 userId, dateOf, linkCode)
      ensures request.Some? && response.Body? ==>
        && meetings == old(meetings) + [response.data]
        && !showMeetingModal
        && meetingDate == "" && meetingSlot == "" && meetingTopic == ""
      ensures !(request.Some? && response.Body?) ==>
        && meetings == old(meetings) && showMeetingModal == old(showMeetingModal)
        && meetingDate == old(meetingDate) && meetingSlot == old(meetingSlot)
        && meetingTopic == old(meetingTopic)
      ensures selectedMentor == old(selectedMentor)
      ensures mentors == old(mentors) && loading == old(loading) && error == old(error)
    {
      request := Booking(selectedMentor, meetingDate, meetingSlot, meetingTopic, userId, dateOf, linkCode);
      if request.Some? && response.Body? {
        meetings := meetings + [response.data];
        showMeetingModal := false;
        meetingDate := "";
        meetingSlot := "";
        meetingTopic := "";
      }
    }
  }
}
