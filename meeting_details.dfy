/** The meeting details page of the mentor portal: the status changes it
    offers for a meeting, its notes editor, and the flags that disable its
    buttons while a change is under way. */
module MeetingDetailsView {
  import opened Common
  import opened MeetingModel
  import opened MentorPortal
  import MentorDashboardView

  /** The status changes offered as buttons for a meeting in status `s`. */
  function OfferedTransitions(s: Status): (r: seq<Status>)
    ensures forall t :: t in r ==> t != s
    ensures s == Completed ==> r == []
  {
    match s
    case Scheduled => [Completed, Cancelled]
    case Cancelled => [Scheduled]
    case Completed => []
  }

  /** The intended transition relation: a scheduled meeting can be
      completed or cancelled, a cancelled one rescheduled, and a completed
      one is final. */
  predicate Allowed(from: Status, to: Status) {
    (from == Scheduled && to != Scheduled) || (from == Cancelled && to == Scheduled)
  }

  /** The buttons offer exactly the allowed transitions. */
  lemma OfferedIffAllowed(from: Status, to: Status)
    ensures to in OfferedTransitions(from) <==> Allowed(from, to)
  {
  }

  /** Cancelling and rescheduling through the buttons returns a meeting to
      scheduled, while a completed meeting can never be left. */
  lemma CancelThenReschedule()
    ensures Cancelled in OfferedTransitions(Scheduled) && Scheduled in OfferedTransitions(Cancelled)
    ensures forall t :: !Allowed(Completed, t)
  {
  }

  /** The badge colour shown for the meeting's status. */
  function BadgeColor(m: PortalMeeting): (c: MentorDashboardView.Color)
    ensures c != MentorDashboardView.Gray
  {
    ParseStatusName(m.status);
    MentorDashboardView.StatusColor(StatusName(m.status))
  }

  /** The details page for one meeting. */
  class MeetingDetailsPage {
    var meeting: PortalMeeting
    var notes: string
    var isEditingNotes: bool
    var isSaving: bool
    var statusUpdateLoading: bool

    /** Opening the page: the editor holds the meeting's notes, or nothing
        when it has none, and no change is under way. */
    constructor (m: PortalMeeting)
      ensures meeting == m && notes == m.notes.GetOr("")
      ensures !isEditingNotes && !isSaving && !statusUpdateLoading
    {
      meeting := m;
      notes := m.notes.GetOr("");
      isEditingNotes := false;
      isSaving := false;
      statusUpdateLoading := false;
    }

    /** The controller hands the page a new version of the meeting; the
        notes editor keeps its own text. */
    method ReceiveMeeting(m: PortalMeeting)
      modifies this
      ensures meeting == m && notes == old(notes)
      ensures isEditingNotes == old(isEditingNotes) && isSaving == old(isSaving)
      ensures statusUpdateLoading == old(statusUpdateLoading)
    {
      meeting := m;
    }

    /** The edit button opens the notes editor. */
    method StartEditing()
      requires !isEditingNotes
      modifies this
      ensures isEditingNotes
      ensures meeting == old(meeting) && notes == old(notes) && isSaving == old(isSaving)
      ensures statusUpdateLoading == old(statusUpdateLoading)
    {
      isEditingNotes := true;
    }

    /** Typing in the open editor. */
    method EditNotes(text: string)
      requires isEditingNotes && !isSaving
      modifies this
      ensures notes == text
      ensures meeting == old(meeting) && isEditingNotes && !isSaving
      ensures statusUpdateLoading == old(statusUpdateLoading)
    {
      notes := text;
    }

    /** The save button writes the edited text into the meeting's notes and
        closes the editor; saving is over when it returns. */
    method SaveNotes()
      requires isEditingNotes && !isSaving
      modifies this
      ensures meeting == old(meeting).(notes := Some(old(notes)))
      ensures notes == old(notes) && !isEditingNotes && !isSaving
      ensures statusUpdateLoading == old(statusUpdateLoading)
    {
      isSaving := true;
      meeting := meeting.(notes := Some(notes));
      isEditingNotes := false;
      isSaving := false;
    }

    /** A status button: the change is requested for this meeting from the
        controller, whose answer is only logged. Whatever the answer, the
        buttons are enabled again afterwards; the page itself changes nothing
        else (the controller supplies the updated meeting). */
    method UpdateStatus(status: Status) returns (meetingId: string)
      requires !statusUpdateLoading && status in OfferedTransitions(meeting.status)
      modifies this
      ensures meetingId == meeting.id
      ensures Allowed(meeting.status, status)
      ensures !statusUpdateLoading
      ensures meeting == old(meeting) && notes == old(notes)
      ensures isEditingNotes == old(isEditingNotes) && isSaving == old(isSaving)
    {
      OfferedIffAllowed(meeting.status, status);
      statusUpdateLoading := true;
      meetingId := meeting.id;
      statusUpdateLoading := false;
    }
  }
}
