/** The Meeting document of the back end: a booking between a student
    (User) and a Mentor, with a status drawn from a three-value enum. */
module MeetingModel {
  import opened Common

  /** The `status` enum. */
  datatype Status = Scheduled | Completed | Cancelled

  /** The stored spelling of each status. */
  function StatusName(s: Status): string {
    match s
    case Scheduled => "scheduled"
    case Completed => "completed"
    case Cancelled => "cancelled"
  }

  /** The enum validator: a string is a status exactly when it is one of the
      three stored spellings. */
  function ParseStatus(name: string): (r: Option<Status>)
    ensures r.Some? <==> name in {"scheduled", "completed", "cancelled"}
    ensures r.Some? ==> StatusName(r.value) == name
  {
    if name == "scheduled" then Some(Scheduled)
    else if name == "completed" then Some(Completed)
    else if name == "cancelled" then Some(Cancelled)
    else None
  }

  /** Every status survives being stored and read back. */
  lemma ParseStatusName(s: Status)
    ensures ParseStatus(StatusName(s)) == Some(s)
  {
  }

  /** The status given to a meeting created without one. */
  const DefaultStatus: Status := Scheduled

  /** A stored meeting. `date` is a timestamp in milliseconds; `notes` and
      `meetingLink` are optional. */
  datatype Meeting = Meeting(
    id: string,
    userId: string,
    mentorId: string,
    date: int,
    timeSlot: string,
    status: Status,
    topic: string,
    notes: Option<string>,
    meetingLink: Option<string>)

  /** The body of a create request, field by field as the client sent it. */
  datatype MeetingInput = MeetingInput(
    userId: Option<string>,
    mentorId: Option<string>,
    date: Option<int>,
    timeSlot: Option<string>,
    status: Option<string>,
    topic: Option<string>,
    notes: Option<string>,
    meetingLink: Option<string>)

  /** Why a document fails schema validation. */
  datatype ValidationError = MissingField(field: string) | NotInEnum(value: string)

  /** A required string field is present and not empty. */
  predicate Given(f: Option<string>) {
    f.Some? && f.value != ""
  }

  /** Schema validation and defaults of `new Meeting(body).save()`: the
      required fields must be given, a given status must be in the enum, and
      an absent status becomes the default. */
  function CreateMeeting(id: string, input: MeetingInput): (r: Result<Meeting, ValidationError>)
    ensures r.Ok? <==>
      && Given(input.userId) && Given(input.mentorId) && input.date.Some?
      && Given(input.timeSlot) && Given(input.topic)
      && (input.status.None? || ParseStatus(input.status.value).Some?)
    ensures r.Ok? ==>
      && r.value.id == id
      && Some(r.value.userId) == input.userId && Some(r.value.mentorId) == input.mentorId
      && Some(r.value.date) == input.date && Some(r.value.timeSlot) == input.timeSlot
      && Some(r.value.topic) == input.topic
      && r.value.notes == input.notes && r.value.meetingLink == input.meetingLink
    ensures r.Ok? ==> SchemaValid(r.value)
    ensures r.Ok? && input.status.None? ==> r.value.status == DefaultStatus
    ensures r.Ok? && input.status.Some? ==> StatusName(r.value.status) == input.status.value
  {
    if !Given(input.userId) then Err(MissingField("userId"))
    else if !Given(input.mentorId) then Err(MissingField("mentorId"))
    else if input.date.None? then Err(MissingField("date"))
    else if !Given(input.timeSlot) then Err(MissingField("timeSlot"))
    else if !Given(input.topic) then Err(MissingField("topic"))
    else
      var status :=
        if input.status.None? then Some(DefaultStatus) else ParseStatus(input.status.value);
      if status.None? then Err(NotInEnum(input.status.value))
      else
        Ok(Meeting(id, input.userId.value, input.mentorId.value, input.date.value,
                   input.timeSlot.value, status.value, input.topic.value,
                   input.notes, input.meetingLink))
  }

  /** A stored meeting satisfies the schema: its required fields are non-empty. */
  predicate SchemaValid(m: Meeting) {
    m.userId != "" && m.mentorId != "" && m.timeSlot != "" && m.topic != ""
  }
}
