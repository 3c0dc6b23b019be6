/** The records the console exchanges with its backend, from the interface
    files: complaints, agencies, users and the analytics count records. */
module Models {
  import opened Wrappers

  /** `ComplaintType`, with the wire code of each member. */
  datatype ComplaintType = Environmental | PublicHealth | Transportation | WaterAndSanitation | Other {
    function Code(): string {
      match this
      case Environmental => "environmental"
      case PublicHealth => "public_health"
      case Transportation => "transportation"
      case WaterAndSanitation => "water_and_sanitation"
      case Other => "other"
    }
  }

  /** `ComplaintStatus`, a closed set of five codes. */
  datatype ComplaintStatus = Pending | InProgress | AwaitingInfo | Resolved | Rejected {
    function Code(): string {
      match this
      case Pending => "pending"
      case InProgress => "in_progress"
      case AwaitingInfo => "awaiting_info"
      case Resolved => "resolved"
      case Rejected => "rejected"
    }
  }

  datatype ComplaintFile = ComplaintFile(link: string, mimeType: string)

  datatype ComplaintTypeObject = ComplaintTypeObject(id: string, name: string)

  /** A complaint's `type`: an enum member or an embedded type object. */
  datatype ComplaintKind = KnownType(code: ComplaintType) | TypeObject(obj: ComplaintTypeObject)

  /** An agency; its timestamps are kept as the strings the backend sends. */
  datatype Agency = Agency(id: string, name: string, complaintTypes: Option<seq<ComplaintTypeObject>>,
                           createdAt: Option<string>, updatedAt: Option<string>)

  /** The submitter summary embedded in a complaint. */
  datatype Submitter = Submitter(id: string, firstName: Option<string>, lastName: Option<string>, email: string)

  datatype Complaint = Complaint(
    id: string, title: string, description: string, userId: string, agencyId: string,
    kind: ComplaintKind, location: string, files: seq<ComplaintFile>, status: ComplaintStatus,
    version: int, createdAt: string, updatedAt: string,
    agency: Option<Agency>, submitter: Option<Submitter>)

  /** A user account as listed by the users endpoint. */
  datatype User = User(
    id: string, firstName: Option<string>, lastName: Option<string>, email: string, phone: string,
    role: string, isActive: bool, mustChangePassword: bool, profilePicture: Option<string>,
    createdAt: string, updatedAt: string)

  /** The users form's `CreateUserDto`; the form always holds every field as a string. */
  datatype CreateUserDto = CreateUserDto(firstName: string, lastName: string, email: string, phone: string, password: string)

  /** `CreateStaffDto.targetRole`: `'staff_admin' | 'complaint_staff'`. */
  datatype TargetRole = StaffAdmin | ComplaintStaff {
    function Code(): string {
      match this
      case StaffAdmin => "staff_admin"
      case ComplaintStaff => "complaint_staff"
    }
  }

  /** The staff form's `CreateStaffDto`. A `targetRole` of `None` is a form
      whose role select holds no value, the case `!targetRole` guards. */
  datatype CreateStaffDto = CreateStaffDto(firstName: string, lastName: string, email: string, phone: string,
                                           targetRole: Option<TargetRole>, agencyId: string)

  /** `QueryUserDto`: every field optional; page and limit are integers. */
  datatype QueryUserDto = QueryUserDto(
    role: Option<string>, isVerified: Option<bool>, isActive: Option<bool>,
    page: Option<int>, limit: Option<int>, search: Option<string>, orderBy: Option<string>)

  /** One entry of `ComplaintsByStatus.data`. */
  datatype StatusData = StatusData(status: string, count: int)

  /** One entry of `ComplaintsByAgency.data`. */
  datatype AgencyData = AgencyData(agencyId: string, agencyName: string, count: int)

  /** One entry of `ComplaintsByType.data` (`type` is the type's name). */
  datatype TypeData = TypeData(typeName: string, count: int)

  datatype Period = Period(startDate: string, endDate: string)

  datatype PerformanceStats = PerformanceStats(averageResponseTime: real, totalRequests: int, totalErrors: int,
                                               successRate: real, period: Period)

  datatype ResolutionTimeStats = ResolutionTimeStats(averageTimeInDays: real, medianTimeInDays: real,
                                                     minTimeInDays: real, maxTimeInDays: real, totalResolved: int)

  /** `AnalyticsQueryParams`. */
  datatype AnalyticsQuery = AnalyticsQuery(startDate: Option<string>, endDate: Option<string>)
}
