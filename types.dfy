/** The records and enumerations of src/types/index.ts. Timestamps (`Date`) are
    milliseconds since the epoch. */
module Types {
  import opened Wrappers

  type Time = nat

  datatype Role = Citizen | Authority | Admin | Ngo

  datatype Category = Sanitation | Infrastructure | PublicServices | Utilities | Transportation | Other

  datatype Priority = Low | Medium | High | Urgent

  datatype Status = Pending | InProgress | Resolved | Escalated | Closed

  /** The string literal each role is written as. */
  function RoleName(r: Role): string
  {
    match r
    case Citizen => "citizen"
    case Authority => "authority"
    case Admin => "admin"
    case Ngo => "ngo"
  }

  function CategoryName(c: Category): string
  {
    match c
    case Sanitation => "sanitation"
    case Infrastructure => "infrastructure"
    case PublicServices => "publicServices"
    case Utilities => "utilities"
    case Transportation => "transportation"
    case Other => "other"
  }

  function PriorityName(p: Priority): string
  {
    match p
    case Low => "low"
    case Medium => "medium"
    case High => "high"
    case Urgent => "urgent"
  }

  function StatusName(s: Status): string
  {
    match s
    case Pending => "pending"
    case InProgress => "inProgress"
    case Resolved => "resolved"
    case Escalated => "escalated"
    case Closed => "closed"
  }

  /** The role union: exactly four members, with distinct names. */
  function AllRoles(): (r: seq<Role>)
    ensures |r| == 4 && forall x: Role :: x in r
    ensures forall i, j :: 0 <= i < j < |r| ==> RoleName(r[i]) != RoleName(r[j])
  {
    var r := [Citizen, Authority, Admin, Ngo];
    assert forall x: Role :: x in r by {
      forall x: Role ensures x in r {
        if x.Citizen? { assert x == r[0]; } else if x.Authority? { assert x == r[1]; } else if x.Admin? { assert x == r[2]; } else { assert x == r[3]; }
      }
    }
    r
  }

  /** `ComplaintCategory`: exactly six members, with distinct names. */
  function AllCategories(): (r: seq<Category>)
    ensures |r| == 6 && forall x: Category :: x in r
    ensures forall i, j :: 0 <= i < j < |r| ==> CategoryName(r[i]) != CategoryName(r[j])
  {
    var r := [Sanitation, Infrastructure, PublicServices, Utilities, Transportation, Other];
    assert forall x: Category :: x in r by {
      forall x: Category ensures x in r {
        if x.Sanitation? { assert x == r[0]; } else if x.Infrastructure? { assert x == r[1]; } else if x.PublicServices? { assert x == r[2]; } else if x.Utilities? { assert x == r[3]; } else if x.Transportation? { assert x == r[4]; } else { assert x == r[5]; }
      }
    }
    r
  }

  /** `Priority`: exactly four members, with distinct names. */
  function AllPriorities(): (r: seq<Priority>)
    ensures |r| == 4 && forall x: Priority :: x in r
    ensures forall i, j :: 0 <= i < j < |r| ==> PriorityName(r[i]) != PriorityName(r[j])
  {
    var r := [Low, Medium, High, Urgent];
    assert forall x: Priority :: x in r by {
      forall x: Priority ensures x in r {
        if x.Low? { assert x == r[0]; } else if x.Medium? { assert x == r[1]; } else if x.High? { assert x == r[2]; } else { assert x == r[3]; }
      }
    }
    r
  }

  /** `ComplaintStatus`: exactly five members, `closed` among them, with distinct names. */
  function AllStatuses(): (r: seq<Status>)
    ensures |r| == 5 && forall x: Status :: x in r
    ensures forall i, j :: 0 <= i < j < |r| ==> StatusName(r[i]) != StatusName(r[j])
  {
    var r := [Pending, InProgress, Resolved, Escalated, Closed];
    assert forall x: Status :: x in r by {
      forall x: Status ensures x in r {
        if x.Pending? { assert x == r[0]; } else if x.InProgress? { assert x == r[1]; } else if x.Resolved? { assert x == r[2]; } else if x.Escalated? { assert x == r[3]; } else { assert x == r[4]; }
      }
    }
    r
  }

  /** Reads an enumeration literal, as a `z.enum([...])` schema does. */
  function ParseCategory(s: string): (r: Option<Category>)
    ensures forall c :: r == Some(c) <==> CategoryName(c) == s
  {
    if s == "sanitation" then Some(Sanitation)
    else if s == "infrastructure" then Some(Infrastructure)
    else if s == "publicServices" then Some(PublicServices)
    else if s == "utilities" then Some(Utilities)
    else if s == "transportation" then Some(Transportation)
    else if s == "other" then Some(Other)
    else None
  }

  function ParsePriority(s: string): (r: Option<Priority>)
    ensures forall p :: r == Some(p) <==> PriorityName(p) == s
  {
    if s == "low" then Some(Low)
    else if s == "medium" then Some(Medium)
    else if s == "high" then Some(High)
    else if s == "urgent" then Some(Urgent)
    else None
  }

  /** `User`: `phone` and `department` are optional. */
  datatype User = User(
    id: string,
    email: string,
    firstName: string,
    lastName: string,
    phone: Option<string>,
    role: Role,
    department: Option<string>,
    createdAt: Time,
    updatedAt: Time)

  /** `ComplaintFeedback`: `rating` is a JavaScript number, taken here as an integer. */
  datatype ComplaintFeedback = ComplaintFeedback(rating: int, comment: Option<string>, submittedAt: Time)

  /** `ComplaintUpdate`: one audit-trail entry. */
  datatype ComplaintUpdate = ComplaintUpdate(
    id: string,
    complaintId: string,
    message: string,
    status: Status,
    updatedBy: string,
    updatedAt: Time,
    attachments: Option<seq<string>>)

  /** `Complaint`: the optional fields are `Option`s; `updates` is always a list. */
  datatype Complaint = Complaint(
    id: string,
    userId: string,
    category: Category,
    subject: string,
    description: string,
    location: string,
    priority: Priority,
    status: Status,
    attachments: Option<seq<string>>,
    assignedTo: Option<string>,
    assignedDepartment: Option<string>,
    submittedAt: Time,
    updatedAt: Time,
    resolvedAt: Option<Time>,
    feedback: Option<ComplaintFeedback>,
    updates: seq<ComplaintUpdate>)

  /** The argument of `submitComplaint`: a `Complaint` without `id`, `userId`,
      `submittedAt`, `updatedAt` and `updates`, so a caller cannot choose them. */
  datatype ComplaintInput = ComplaintInput(
    category: Category,
    subject: string,
    description: string,
    location: string,
    priority: Priority,
    status: Status,
    attachments: Option<seq<string>>,
    assignedTo: Option<string>,
    assignedDepartment: Option<string>,
    resolvedAt: Option<Time>,
    feedback: Option<ComplaintFeedback>)

  /** `Partial<Complaint>`, the argument of `updateComplaint`. `None` is a key the
      object does not have. For an optional field, `Some(None)` is a key present
      with the value `undefined`, which the object spread copies over the old value. */
  datatype ComplaintPatch = ComplaintPatch(
    id: Option<string>,
    userId: Option<string>,
    category: Option<Category>,
    subject: Option<string>,
    description: Option<string>,
    location: Option<string>,
    priority: Option<Priority>,
    status: Option<Status>,
    attachments: Option<Option<seq<string>>>,
    assignedTo: Option<Option<string>>,
    assignedDepartment: Option<Option<string>>,
    submittedAt: Option<Time>,
    updatedAt: Option<Time>,
    resolvedAt: Option<Option<Time>>,
    feedback: Option<Option<ComplaintFeedback>>,
    updates: Option<seq<ComplaintUpdate>>)

  /** The empty object `{}`. */
  const EmptyPatch := ComplaintPatch(None, None, None, None, None, None, None, None,
                                     None, None, None, None, None, None, None, None)

  /** `RegisterData`, the argument of `register`. */
  datatype RegisterData = RegisterData(
    firstName: string,
    lastName: string,
    email: string,
    phone: Option<string>,
    password: string)
}
