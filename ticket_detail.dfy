/**
 One ticket's page (`Ticket.jsx`). The page's hook state is the class `TicketPage`;
 its handlers are methods that take the signed-in user and the outcome of their
 request as parameters and return the request body they send and the route they
 navigate to. Which controls are rendered, where the page leads back to, the status
 style and the short case reference are plain functions.
 */
module TicketDetail {
  import opened Domain
  import opened Text

  /** The routes the page navigates or links to. */
  datatype Route = Dashboard | Records
  {
    function Path(): (p: string)
    {
      match this
      case Dashboard => "/admin"
      case Records => "/tickets"
    }
  }

  /** The list the page leads back to: back button, breadcrumb, and after a delete. */
  function ListRoute(role: string): (r: Route)
    ensures r == Dashboard <==> role == AdminRole
    ensures r == Records <==> role != AdminRole
  {
    if role == AdminRole then Dashboard else Records
  }

  /** After a successful close a non-administrator is sent to the records list; an administrator stays. */
  function CloseRoute(role: string): (r: Option<Route>)
    ensures r.None? <==> role == AdminRole
    ensures r.Some? ==> r.value == Records
  {
    if role != AdminRole then Some(Records) else None
  }

  /** What `onDelete` does: the request it sends and where it navigates afterwards. */
  datatype DeleteEffect = DeleteEffect(requestSent: bool, navigateTo: Option<Route>)

  /**
   Nothing happens unless the user confirms; a confirmed delete sends the request and,
   once it succeeds, goes to the administrator's dashboard or the user's records.
   */
  function DeleteOutcome(role: string, confirmed: bool, succeeded: bool): (e: DeleteEffect)
    ensures e.requestSent <==> confirmed
    ensures e.navigateTo.Some? <==> confirmed && succeeded
    ensures e.navigateTo.Some? ==> e.navigateTo.value == ListRoute(role)
  {
    if !confirmed then DeleteEffect(false, None)
    else if succeeded then DeleteEffect(true, Some(ListRoute(role)))
    else DeleteEffect(true, None)
  }

  /** Every way off the page that depends on the role lands on the same list, or stays. */
  lemma NavigationAgrees(role: string)
    ensures DeleteOutcome(role, true, true).navigateTo == Some(ListRoute(role))
    ensures CloseRoute(role).Some? ==> CloseRoute(role).value == ListRoute(role)
    ensures ListRoute(role).Path() == (if role == AdminRole then "/admin" else "/tickets")
  {
  }

  const PrimaryClass: string := "bg-primary"
  const WarningClass: string := "bg-warning text-main"
  const SuccessClass: string := "bg-success"
  const DangerClass: string := "bg-danger"
  const SecondaryClass: string := "bg-secondary"

  /** `getStatusClass`: total, one class per known status, `bg-secondary` for anything else. */
  function StatusClass(status: string): (cls: string)
    ensures cls == SecondaryClass <==> !IsKnownStatus(status)
    ensures status == Closed ==> cls == DangerClass
  {
    if status == Open then PrimaryClass
    else if status == InProgress then WarningClass
    else if status == Resolved then SuccessClass
    else if status == Closed then DangerClass
    else SecondaryClass
  }

  /** The four known statuses get four different classes. */
  lemma StatusClassesDistinct(a: string, b: string)
    requires IsKnownStatus(a) && IsKnownStatus(b) && a != b
    ensures StatusClass(a) != StatusClass(b)
  {
  }

  /** The short case reference: the last (at most) six characters of the id, upper-cased. */
  function CaseReference(id: string): (r: string)
    ensures |r| == if |id| < 6 then |id| else 6
    ensures forall i :: 0 <= i < |r| ==> r[i] == UpperChar(id[|id| - |r| + i])
  {
    var tail := TakeLast(id, 6);
    UpperOfSuffix(id, |id| - |tail|);
    Upper(tail)
  }

  /** An id of at most six characters is shown whole. */
  lemma ShortIdShownWhole(id: string)
    requires |id| <= 6
    ensures CaseReference(id) == Upper(id)
  {
  }

  /** The interactive parts of the page that may be rendered. */
  datatype Control =
    | EditButton     // EDIT, opens the edit form
    | CloseButton    // CLOSE, runs onTicketClose
    | EditForm       // title/priority/description form, with SAVE and CANCEL
    | DetailsCard    // read-only description and support response
    | ControlPanel   // status select, reply box and SAVE for administrators
    | DeleteButton   // PERMANENT DELETE
    | HelpCenter     // the note non-administrators see instead

  /**
   The controls rendered for a loaded ticket. EDIT and CLOSE appear together, and only
   for a non-administrator who is not editing a ticket that is not closed; the control
   panel and delete appear exactly for administrators.
   */
  function Controls(role: string, isEditing: bool, t: Ticket): (cs: set<Control>)
    ensures EditButton in cs <==> role != AdminRole && !isEditing && t.status != Closed
    ensures CloseButton in cs <==> EditButton in cs
    ensures ControlPanel in cs <==> role == AdminRole
    ensures DeleteButton in cs <==> role == AdminRole
    ensures HelpCenter in cs <==> role != AdminRole
    ensures EditForm in cs <==> isEditing
    ensures DetailsCard in cs <==> !isEditing
  {
    (if role != AdminRole && !isEditing && t.status != Closed then {EditButton, CloseButton} else {})
    + (if isEditing then {EditForm} else {DetailsCard})
    + (if role == AdminRole then {ControlPanel, DeleteButton} else {HelpCenter})
  }

  /** No rendering offers an administrator the content edit, nor shows it beside the control panel. */
  lemma AdminNeverOfferedEdit(role: string, isEditing: bool, t: Ticket)
    ensures ControlPanel in Controls(role, isEditing, t) ==> EditButton !in Controls(role, isEditing, t)
    ensures role == AdminRole ==> CloseButton !in Controls(role, isEditing, t)
  {
  }

  /** The copy of a ticket the page keeps after a successful close: only the status differs. */
  function Closing(t: Ticket): (c: Ticket)
    ensures c.status == Closed
    ensures c.id == t.id && c.title == t.title && c.description == t.description
    ensures c.priority == t.priority && c.adminReply == t.adminReply && c.requesterName == t.requesterName
  {
    t.(status := Closed)
  }

  /** What the page renders. */
  datatype View = Loading | NotFound | Detail(ticket: Ticket)

  /** A JSON request body. */
  type Payload = map<string, string>

  /** The form controls whose `onChange` writes one piece of state. */
  datatype Field = TitleInput | PriorityInput | DescriptionInput | StatusSelect | ReplyInput

  /** The page's hook state. */
  class TicketPage {
    var ticket: Option<Ticket>
    var isLoading: bool
    var adminReply: string
    var status: string
    var isEditing: bool
    var editTitle: string
    var editDescription: string
    var editPriority: string

    /** A loaded ticket ends the spinner, and editing happens only over a loaded ticket. */
    ghost predicate Valid()
      reads this
    {
      (ticket.Some? ==> !isLoading) && (isEditing ==> ticket.Some?)
    }

    function View(): (v: View)
      reads this
      ensures v.Detail? <==> !isLoading && ticket.Some?
      ensures v.Detail? ==> v.ticket == ticket.value
      ensures v == Loading <==> isLoading
    {
      if isLoading then Loading
      else if ticket.None? then NotFound
      else Detail(ticket.value)
    }

    function VisibleControls(user: User): set<Control>
      reads this
      requires View().Detail?
    {
      Controls(user.role, isEditing, ticket.value)
    }

    /** The initial `useState` values. */
    constructor ()
      ensures Valid()
      ensures ticket == None && isLoading && !isEditing
      ensures adminReply == "" && status == ""
      ensures editTitle == "" && editDescription == "" && editPriority == ""
    {
      ticket := None;
      isLoading := true;
      adminReply := "";
      status := "";
      isEditing := false;
      editTitle := "";
      editDescription := "";
      editPriority := "";
    }

    /**
     The fetch effect. Without a user nothing is requested. A fetched ticket becomes the
     page's ticket and pre-fills the status, reply and edit fields; a failed fetch only
     ends the spinner.
     */
    method FetchTicket(user: Option<User>, response: Outcome<Ticket>)
      requires Valid()
      modifies this
      ensures Valid()
      ensures user.None? ==> unchanged(this)
      ensures user.Some? ==> !isLoading && isEditing == old(isEditing)
      ensures user.Some? && response.Succeeded? ==>
                var t := response.value;
                ticket == Some(t) && adminReply == ReplyText(t) && status == t.status
                && editTitle == t.title && editDescription == t.description && editPriority == t.priority
      ensures user.Some? && response.Failed? ==>
                ticket == old(ticket) && adminReply == old(adminReply) && status == old(status)
                && editTitle == old(editTitle) && editDescription == old(editDescription)
                && editPriority == old(editPriority)
    {
      if user.Some? {
        match response
        case Succeeded(t) =>
          ticket := Some(t);
          adminReply := ReplyText(t);
          status := t.status;
          editTitle := t.title;
          editDescription := t.description;
          editPriority := t.priority;
          isLoading := false;
        case Failed =>
          isLoading := false;
      }
    }

    /** The EDIT button. */
    method StartEditing(user: User)
      requires Valid() && View().Detail? && EditButton in VisibleControls(user)
      modifies this`isEditing
      ensures Valid() && View() == old(View())
      ensures isEditing
      ensures EditForm in VisibleControls(user)
      ensures EditButton !in VisibleControls(user) && CloseButton !in VisibleControls(user)
    {
      isEditing := true;
    }

    /**
     CANCEL and the close icon of the edit form; the drafts are kept, not reset. The
     form is only rendered over a loaded ticket, which `Valid` guarantees while editing.
     */
    method CancelEditing()
      requires Valid() && !isLoading && isEditing
      modifies this`isEditing
      ensures Valid() && View().Detail? && View() == old(View())
      ensures !isEditing
    {
      isEditing := false;
    }

    /** The `onChange` of one form control: it writes that control's state and nothing else. */
    method ChangeField(field: Field, value: string)
      requires Valid()
      modifies this`editTitle, this`editPriority, this`editDescription, this`status, this`adminReply
      ensures Valid()
      ensures editTitle == (if field == TitleInput then value else old(editTitle))
      ensures editPriority == (if field == PriorityInput then value else old(editPriority))
      ensures editDescription == (if field == DescriptionInput then value else old(editDescription))
      ensures status == (if field == StatusSelect then value else old(status))
      ensures adminReply == (if field == ReplyInput then value else old(adminReply))
    {
      match field
      case TitleInput => editTitle := value;
      case PriorityInput => editPriority := value;
      case DescriptionInput => editDescription := value;
      case StatusSelect => status := value;
      case ReplyInput => adminReply := value;
    }

    /**
     `onAdminUpdate`: a non-administrator gets no request and no change. For an
     administrator the body is exactly the selected status and the reply; on success the
     returned ticket replaces the page's ticket.
     */
    method OnAdminUpdate(user: User, response: Outcome<Ticket>) returns (request: Option<Payload>)
      requires Valid() && View().Detail?
      modifies this`ticket
      ensures Valid()
      ensures !IsAdmin(user) ==> request == None && unchanged(this)
      ensures IsAdmin(user) ==>
                request == Some(map["status" := status, "adminReply" := adminReply])
                && request.value.Keys == {"status", "adminReply"}
      ensures IsAdmin(user) && response.Succeeded? ==> ticket == Some(response.value)
      ensures response.Failed? ==> unchanged(this)
    {
      if !IsAdmin(user) {
        return None;
      }
      request := Some(map["status" := status, "adminReply" := adminReply]);
      if response.Succeeded? {
        ticket := Some(response.value);
      }
    }

    /**
     `onUserUpdate`: the body is exactly the edited title, description and priority. On
     success the returned ticket replaces the page's ticket and the form closes; on
     failure nothing changes and the form stays as it was. The title and description
     inputs are `required`, so the browser submits the form only when both are filled.
     */
    method OnUserUpdate(response: Outcome<Ticket>) returns (request: Payload)
      requires Valid() && View().Detail?
      requires editTitle != "" && editDescription != ""
      modifies this`ticket, this`isEditing
      ensures Valid()
      ensures request == map["title" := editTitle, "description" := editDescription, "priority" := editPriority]
      ensures request.Keys == {"title", "description", "priority"}
      ensures response.Succeeded? ==> ticket == Some(response.value) && !isEditing
      ensures response.Failed? ==> unchanged(this)
    {
      request := map["title" := editTitle, "description" := editDescription, "priority" := editPriority];
      if response.Succeeded? {
        ticket := Some(response.value);
        isEditing := false;
      }
    }

    /**
     `onTicketClose`: sends `{status: 'Closed'}`. On success the ticket and the status
     select show `Closed`, every other ticket field stays, and a non-administrator is
     sent to the records list; on failure nothing changes.
     */
    method OnTicketClose(user: User, succeeded: bool) returns (request: Payload, navigateTo: Option<Route>)
      requires Valid() && View().Detail?
      modifies this`ticket, this`status
      ensures Valid()
      ensures request == map["status" := Closed]
      ensures succeeded ==> ticket == Some(Closing(old(ticket.value))) && status == Closed
      ensures succeeded ==> navigateTo == CloseRoute(user.role)
      ensures succeeded ==> EditButton !in VisibleControls(user) && CloseButton !in VisibleControls(user)
      ensures !succeeded ==> unchanged(this) && navigateTo == None
    {
      request := map["status" := Closed];
      navigateTo := None;
      if succeeded {
        ticket := Some(Closing(ticket.value));
        status := Closed;
        navigateTo := CloseRoute(user.role);
      }
    }
  }
}
