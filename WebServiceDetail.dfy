/** The route table `dfx::api::web` (conan/recipes/dfxprotosweb/include/dfx/api/web/WebServiceDetail.hpp):
    for every DFX API call, the WebSocket action code, the HTTP method, the
    REST path with one `{}` per argument, and the number of arguments.
    The header is generated from a list of routes; here each route keeps its
    path as `/`-separated segments, and `Detail` renders the header's
    `WebServiceDetail` struct from it. */
module WebService {

  /** The HTTP methods the header uses. */
  datatype HttpOption = GET | POST | PATCH | DELETE | CONNECT

  function OptionName(o: HttpOption): string
  {
    match o
    case GET => "GET" case POST => "POST" case PATCH => "PATCH"
    case DELETE => "DELETE" case CONNECT => "CONNECT"
  }

  predicate NoBraces(s: string)
  {
    forall k :: 0 <= k < |s| ==> s[k] != '{' && s[k] != '}'
  }

  /** A literal path segment cannot contain a brace. */
  type Name = s: string | NoBraces(s)

  /** A path segment: literal text, or the `{}` an argument is formatted into. */
  datatype Segment = Word(text: Name) | Arg

  /** `struct WebServiceDetail`. */
  datatype WebServiceDetail = WebServiceDetail(wsCode: int, httpOption: string, urlPath: string, urlArgCount: int)

  /** One `static const WebServiceDetail <name>` inside `namespace <space>`. */
  datatype Route = Route(space: string, name: string, wsCode: int, option: HttpOption, path: seq<Segment>, urlArgCount: int)

  function SegmentText(s: Segment): string
  {
    match s
    case Word(t) => t
    case Arg => "{}"
  }

  /** The segments joined by `/`. */
  function Render(path: seq<Segment>): string
  {
    if |path| == 0 then ""
    else if |path| == 1 then SegmentText(path[0])
    else SegmentText(path[0]) + "/" + Render(path[1..])
  }

  function Detail(r: Route): WebServiceDetail
  {
    WebServiceDetail(r.wsCode, OptionName(r.option), Render(r.path), r.urlArgCount)
  }

  /** The number of `{}` replacement fields in a format string. */
  function Placeholders(s: string): nat
  {
    if |s| < 2 then 0
    else (if s[0] == '{' && s[1] == '}' then 1 else 0) + Placeholders(s[1..])
  }

  function ArgCount(path: seq<Segment>): nat
  {
    if path == [] then 0 else (if path[0].Arg? then 1 else 0) + ArgCount(path[1..])
  }

  /** `dfx::api::web::General` (WebServiceDetail.hpp:39-48). */
  const General: seq<Route> := [
    Route("General", "Status", 100, GET, [Word("status")], 0),
    Route("General", "MimeTypes", 101, GET, [Word("mimes")], 0),
    Route("General", "Roles", 102, GET, [Word("roles")], 0),
    Route("General", "Statuses", 104, GET, [Word("statuses")], 0),
    Route("General", "VerifyToken", 107, GET, [Word("auth")], 0),
    Route("General", "Regions", 108, GET, [Word("regions")], 0),
    Route("General", "RetrieveConsent", 109, GET, [Word("consents")], 0),
    Route("General", "CreateConsent", 110, POST, [Word("consents")], 0),
    Route("General", "UpdateConsent", 111, PATCH, [Word("consents")], 0),
    Route("General", "DeleteConsent", 112, DELETE, [Word("consents")], 0)
  ]

  /** `dfx::api::web::Users` (WebServiceDetail.hpp:52-75). */
  const Users: seq<Route> := [
    Route("Users", "Create", 200, POST, [Word("users")], 0),
    Route("Users", "Login", 201, POST, [Word("users"), Word("auth")], 0),
    Route("Users", "MfaSecret", 221, POST, [Word("users"), Word("mfa"), Word("secret")], 0),
    Route("Users", "EnableMfa", 222, POST, [Word("users"), Word("mfa")], 0),
    Route("Users", "DisableMfa", 223, DELETE, [Word("users"), Word("mfa")], 0),
    Route("Users", "Retrieve", 202, GET, [Word("users")], 0),
    Route("Users", "Remove", 206, DELETE, [Word("users")], 0),
    Route("Users", "Update", 208, PATCH, [Word("users")], 0),
    Route("Users", "SendReset", 209, PATCH, [Word("users"), Word("sendreset")], 0),
    Route("Users", "ResetPassword", 210, PATCH, [Word("users"), Word("reset")], 0),
    Route("Users", "GetRole", 211, GET, [Word("users"), Word("role")], 0),
    Route("Users", "Verify", 212, POST, [Word("users"), Word("verify")], 0),
    Route("Users", "VerificationCode", 213, GET, [Word("users"), Word("verificationCode"), Arg, Arg], 2),
    Route("Users", "SendResetMobile", 214, PATCH, [Word("users"), Word("sendreset"), Word("mobile")], 0),
    Route("Users", "Signup", 215, POST, [Word("users"), Word("signup")], 0),
    Route("Users", "RequestLoginCode", 216, GET, [Word("users"), Word("auth"), Word("code"), Arg, Arg], 2),
    Route("Users", "LoginWithCode", 217, POST, [Word("users"), Word("auth"), Word("code")], 0),
    Route("Users", "Sso", 218, POST, [Word("users"), Word("auth"), Word("sso")], 0),
    Route("Users", "RemoveUserMeasurements", 219, DELETE, [Word("users"), Arg, Word("measurements")], 1),
    Route("Users", "ChangePassword", 220, POST, [Word("users"), Word("changepassword")], 0),
    Route("Users", "DisableMfaForUser", 224, DELETE, [Word("users"), Arg, Word("mfa")], 1),
    Route("Users", "RenewToken", 225, POST, [Word("users"), Word("auth"), Word("renew")], 0),
    Route("Users", "Logout", 226, DELETE, [Word("users"), Word("auth")], 0),
    Route("Users", "RecoveryVerificationCode", 228, GET, [Word("users"), Word("recoveryVerificationCode"), Arg], 1)
  ]

  /** `dfx::api::web::Meta` (WebServiceDetail.hpp:79-82). */
  const Meta: seq<Route> := [
    Route("Meta", "Retrieve", 300, GET, [Word("meta"), Arg], 1),
    Route("Meta", "RetrieveByType", 301, GET, [Word("meta"), Arg, Arg, Arg], 3),
    Route("Meta", "Update", 302, PATCH, [Word("meta"), Arg], 1),
    Route("Meta", "UpdateByType", 303, PATCH, [Word("meta"), Arg, Arg, Arg], 3)
  ]

  /** `dfx::api::web::Profiles` (WebServiceDetail.hpp:86-91). */
  const Profiles: seq<Route> := [
    Route("Profiles", "Create", 400, POST, [Word("users"), Word("profiles")], 0),
    Route("Profiles", "Retrieve", 401, GET, [Word("users"), Word("profiles"), Arg], 1),
    Route("Profiles", "List", 402, GET, [Word("users"), Word("profiles")], 0),
    Route("Profiles", "ListByUser", 403, GET, [Word("users"), Arg, Word("profiles")], 1),
    Route("Profiles", "Remove", 404, DELETE, [Word("users"), Word("profiles"), Arg], 1),
    Route("Profiles", "Update", 405, PATCH, [Word("users"), Word("profiles"), Arg], 1)
  ]

  /** `dfx::api::web::Measurements` (WebServiceDetail.hpp:95-107). */
  const Measurements: seq<Route> := [
    Route("Measurements", "Retrieve", 500, GET, [Word("measurements"), Arg], 1),
    Route("Measurements", "List", 501, GET, [Word("measurements")], 0),
    Route("Measurements", "Create", 504, POST, [Word("measurements")], 0),
    Route("Measurements", "Data", 506, POST, [Word("measurements"), Arg, Word("data")], 1),
    Route("Measurements", "Remove", 507, DELETE, [Word("measurements"), Arg], 1),
    Route("Measurements", "SubscribeResults", 510, CONNECT, [Word("measurements"), Arg, Word("results"), Word("")], 1),
    Route("Measurements", "Reprocess", 512, PATCH, [Word("measurements"), Word("reprocess")], 0),
    Route("Measurements", "AddTags", 515, POST, [Word("measurements"), Arg, Word("tags")], 1),
    Route("Measurements", "SaveResults", 517, POST, [Word("measurements"), Arg, Word("results")], 1),
    Route("Measurements", "AddSurveyData", 518, POST, [Word("survey"), Arg], 1),
    Route("Measurements", "BugReport", 520, POST, [Word("measurements"), Arg, Word("bug-report")], 1),
    Route("Measurements", "RetrieveBugReport", 521, GET, [Word("measurements"), Arg, Word("bug-report")], 1),
    Route("Measurements", "MeasurementEnd", 522, POST, [Word("measurements"), Arg, Word("end")], 1)
  ]

  /** `dfx::api::web::Groups` (WebServiceDetail.hpp:111-119). */
  const Groups: seq<Route> := [
    Route("Groups", "List", 600, GET, [Word("groups")], 0),
    Route("Groups", "Types", 601, GET, [Word("groups"), Word("types")], 0),
    Route("Groups", "Retrieve", 602, GET, [Word("groups"), Arg], 1),
    Route("Groups", "GetUsers", 603, GET, [Word("groups"), Arg, Word("users")], 1),
    Route("Groups", "Create", 604, POST, [Word("groups")], 0),
    Route("Groups", "AddUsers", 605, POST, [Word("groups"), Arg, Word("users")], 1),
    Route("Groups", "Update", 606, PATCH, [Word("groups"), Arg], 1),
    Route("Groups", "Remove", 607, DELETE, [Word("groups"), Arg], 1),
    Route("Groups", "RemoveUsers", 608, DELETE, [Word("groups"), Arg, Word("users")], 1)
  ]

  /** `dfx::api::web::Organizations` (WebServiceDetail.hpp:123-143). */
  const Organizations: seq<Route> := [
    Route("Organizations", "Retrieve", 700, GET, [Word("organizations")], 0),
    Route("Organizations", "Users", 702, GET, [Word("organizations"), Word("users")], 0),
    Route("Organizations", "ListMeasurements", 703, GET, [Word("organizations"), Word("measurements")], 0),
    Route("Organizations", "RetrieveMeasurement", 704, GET, [Word("organizations"), Word("measurements"), Arg], 1),
    Route("Organizations", "RegisterLicense", 705, POST, [Word("organizations"), Word("licenses")], 0),
    Route("Organizations", "UnregisterLicense", 706, DELETE, [Word("organizations"), Word("licenses")], 0),
    Route("Organizations", "RetrieveLogo", 708, GET, [Word("organizations"), Arg, Word("logo")], 1),
    Route("Organizations", "ListProfiles", 710, GET, [Word("organizations"), Word("profiles")], 0),
    Route("Organizations", "RetrieveProfile", 711, GET, [Word("organizations"), Word("profiles"), Arg], 1),
    Route("Organizations", "RetrieveUser", 712, GET, [Word("organizations"), Word("users"), Arg], 1),
    Route("Organizations", "CreateUser", 713, POST, [Word("organizations"), Word("users")], 0),
    Route("Organizations", "UpdateUser", 714, PATCH, [Word("organizations"), Word("users"), Arg], 1),
    Route("Organizations", "RemoveUser", 715, DELETE, [Word("organizations"), Word("users"), Arg], 1),
    Route("Organizations", "UpdateProfile", 716, PATCH, [Word("organizations"), Word("profiles"), Arg], 1),
    Route("Organizations", "Login", 717, POST, [Word("organizations"), Word("auth")], 0),
    Route("Organizations", "LoginWithToken", 718, POST, [Word("organizations"), Word("auth"), Word("token")], 0),
    Route("Organizations", "ContactUser", 719, POST, [Word("organizations"), Word("users"), Word("contact")], 0),
    Route("Organizations", "Update", 720, PATCH, [Word("organizations")], 0),
    Route("Organizations", "RemoveOrgMeasurements", 721, DELETE, [Word("organizations"), Arg, Word("measurements")], 1),
    Route("Organizations", "RemovePartnerMeasurements", 722, DELETE, [Word("organizations"), Arg, Word("partners"), Arg, Word("measurements")], 2),
    Route("Organizations", "GetDefaultPasswordPolicy", 723, GET, [Word("organizations"), Word("policy"), Word("password")], 0)
  ]

  /** `dfx::api::web::Studies` (WebServiceDetail.hpp:147-160). */
  const Studies: seq<Route> := [
    Route("Studies", "Types", 800, GET, [Word("studies"), Word("types")], 0),
    Route("Studies", "RetrieveTemplates", 801, GET, [Word("studies"), Word("templates")], 0),
    Route("Studies", "Assets", 803, GET, [Word("studies"), Word("templates"), Arg, Word("assets")], 1),
    Route("Studies", "Retrieve", 804, GET, [Word("studies"), Arg], 1),
    Route("Studies", "List", 805, GET, [Word("studies")], 0),
    Route("Studies", "Create", 806, POST, [Word("studies")], 0),
    Route("Studies", "Update", 807, PATCH, [Word("studies"), Arg], 1),
    Route("Studies", "Remove", 808, DELETE, [Word("studies"), Arg], 1),
    Route("Studies", "GetConfig", 809, POST, [Word("studies"), Word("sdkconfig")], 0),
    Route("Studies", "GetConfigHash", 810, POST, [Word("studies"), Word("sdkconfig"), Word("hash")], 0),
    Route("Studies", "RemoveStudyMeasurements", 811, DELETE, [Word("studies"), Arg, Word("measurements")], 1),
    Route("Studies", "GetStudySurveys", 812, GET, [Word("studies"), Arg, Word("surveys")], 1),
    Route("Studies", "GetSurveySchema", 813, GET, [Word("studies"), Arg, Word("surveys"), Arg, Word("language"), Arg], 3),
    Route("Studies", "SubmitSurvey", 814, POST, [Word("studies"), Arg, Word("surveys"), Arg, Word("language"), Arg], 3)
  ]

  /** `dfx::api::web::Devices` (WebServiceDetail.hpp:164-172). */
  const Devices: seq<Route> := [
    Route("Devices", "Types", 900, GET, [Word("devices"), Word("types")], 0),
    Route("Devices", "RetrieveLicense", 908, GET, [Word("devices"), Word("license")], 0),
    Route("Devices", "Checkin", 901, PATCH, [Word("devices"), Word("checkin")], 0),
    Route("Devices", "Retrieve", 902, GET, [Word("devices"), Arg], 1),
    Route("Devices", "Create", 903, POST, [Word("devices")], 0),
    Route("Devices", "Update", 904, PATCH, [Word("devices"), Arg], 1),
    Route("Devices", "Remove", 905, DELETE, [Word("devices"), Arg], 1),
    Route("Devices", "List", 906, GET, [Word("devices")], 0),
    Route("Devices", "RemoveDeviceMeasurements", 907, DELETE, [Word("devices"), Arg, Word("measurements")], 1)
  ]

  /** `dfx::api::web::Templates` (WebServiceDetail.hpp:176-188). */
  const Templates: seq<Route> := [
    Route("Templates", "ListTemplates", 1100, GET, [Word("templates")], 0),
    Route("Templates", "ListTypes", 1101, GET, [Word("templates"), Word("types")], 0),
    Route("Templates", "ListSignals", 1102, GET, [Word("templates"), Word("signals")], 0),
    Route("Templates", "ListFileTypes", 1103, GET, [Word("templates"), Word("files")], 0),
    Route("Templates", "CreateTemplate", 1105, POST, [Word("templates")], 0),
    Route("Templates", "RetrieveTemplate", 1104, GET, [Word("templates"), Arg], 1),
    Route("Templates", "DeleteTemplate", 1106, DELETE, [Word("templates"), Arg], 1),
    Route("Templates", "UpdateTemplate", 1107, PATCH, [Word("templates"), Arg], 1),
    Route("Templates", "UpdateSignals", 1108, PATCH, [Word("templates"), Arg, Word("signals")], 1),
    Route("Templates", "UpdateFileTypes", 1109, PATCH, [Word("templates"), Arg, Word("files")], 1),
    Route("Templates", "ListConfigFiles", 1110, GET, [Word("sdkconfig")], 0),
    Route("Templates", "CreateConfigFile", 1111, POST, [Word("sdkconfig")], 0),
    Route("Templates", "DeleteConfigFile", 1112, DELETE, [Word("sdkconfig")], 0)
  ]

  /** `dfx::api::web::OrganizationsPrivate` (WebServiceDetail.hpp:192-209). */
  const OrganizationsPrivate: seq<Route> := [
    Route("OrganizationsPrivate", "List", 1200, GET, [Word("org-private")], 0),
    Route("OrganizationsPrivate", "Create", 1201, POST, [Word("org-private")], 0),
    Route("OrganizationsPrivate", "Update", 1202, PATCH, [Word("org-private"), Arg], 1),
    Route("OrganizationsPrivate", "TemplateAdd", 1203, POST, [Word("org-private"), Arg, Word("templates")], 1),
    Route("OrganizationsPrivate", "TemplateRemove", 1204, DELETE, [Word("org-private"), Arg, Word("templates"), Arg], 2),
    Route("OrganizationsPrivate", "Retrieve", 1205, GET, [Word("org-private"), Arg], 1),
    Route("OrganizationsPrivate", "TemplateList", 1206, GET, [Word("org-private"), Arg, Word("templates")], 1),
    Route("OrganizationsPrivate", "ListAdmins", 1207, GET, [Word("org-private"), Arg, Word("admins")], 1),
    Route("OrganizationsPrivate", "CreateAdmin", 1208, POST, [Word("org-private"), Arg, Word("admins")], 1),
    Route("OrganizationsPrivate", "RemoveAdmin", 1209, DELETE, [Word("org-private"), Arg, Word("admins"), Arg], 2),
    Route("OrganizationsPrivate", "ListUsers", 1210, GET, [Word("org-private"), Arg, Word("users")], 1),
    Route("OrganizationsPrivate", "ListStudies", 1211, GET, [Word("org-private"), Arg, Word("studies")], 1),
    Route("OrganizationsPrivate", "UpdateLogo", 1212, POST, [Word("org-private"), Arg, Word("logo")], 1),
    Route("OrganizationsPrivate", "TemplateUpdate", 1213, PATCH, [Word("org-private"), Arg, Word("templates")], 1),
    Route("OrganizationsPrivate", "AddAddress", 1214, POST, [Word("org-private"), Arg, Word("addresses")], 1),
    Route("OrganizationsPrivate", "RemoveOrg", 1215, DELETE, [Word("org-private"), Arg], 1),
    Route("OrganizationsPrivate", "CreateConsentForOrg", 1216, POST, [Word("org-private"), Arg, Word("consent")], 1),
    Route("OrganizationsPrivate", "MeasurementList", 1217, GET, [Word("org-private"), Arg, Word("measurements")], 1)
  ]

  /** `dfx::api::web::Reports` (WebServiceDetail.hpp:213-215). */
  const Reports: seq<Route> := [
    Route("Reports", "ReportReady", 1300, POST, [Word("reports"), Word("ready")], 0),
    Route("Reports", "ReportCount", 1301, POST, [Word("reports"), Word("count")], 0),
    Route("Reports", "MakeReport", 1302, POST, [Word("reports")], 0)
  ]

  /** `dfx::api::web::Exports` (WebServiceDetail.hpp:219-221). */
  const Exports: seq<Route> := [
    Route("Exports", "ExportReadyHandler", 1300, POST, [Word("exports"), Word("ready")], 0),
    Route("Exports", "ExportCountHandler", 1301, POST, [Word("exports"), Word("count")], 0),
    Route("Exports", "ExportHandler", 1302, POST, [Word("exports")], 0)
  ]

  /** `dfx::api::web::Licenses` (WebServiceDetail.hpp:225-237). */
  const Licenses: seq<Route> := [
    Route("Licenses", "CreateLicenseAllowedStudy", 1400, POST, [Word("licenses"), Word("studies")], 0),
    Route("Licenses", "UpdateLicenseAllowedStudy", 1401, PATCH, [Word("licenses"), Word("studies"), Arg], 1),
    Route("Licenses", "RemoveLicenseAllowedStudy", 1402, DELETE, [Word("licenses"), Word("studies"), Arg], 1),
    Route("Licenses", "ListLicenseAllowedStudies", 1403, GET, [Word("licenses"), Word("studies")], 0),
    Route("Licenses", "RetrieveLicenseAllowedStudy", 1404, GET, [Word("licenses"), Word("studies"), Arg], 1),
    Route("Licenses", "ListLicenses", 1405, GET, [Word("licenses")], 0),
    Route("Licenses", "ListOrgLicenses", 1406, GET, [Word("licenses"), Word("organization")], 0),
    Route("Licenses", "ListLicenseTypes", 1412, GET, [Word("licenses"), Word("types")], 0),
    Route("Licenses", "CreateLicense", 1407, POST, [Word("licenses")], 0),
    Route("Licenses", "UpdateLicense", 1408, PATCH, [Word("licenses"), Arg], 1),
    Route("Licenses", "RemoveLicense", 1409, DELETE, [Word("licenses"), Arg], 1),
    Route("Licenses", "RetrieveLicense", 1410, GET, [Word("licenses"), Arg], 1),
    Route("Licenses", "RetrieveOrgLicense", 1411, GET, [Word("licenses"), Word("organization"), Arg], 1)
  ]

  /** `dfx::api::web::Addresses` (WebServiceDetail.hpp:241-242). */
  const Addresses: seq<Route> := [
    Route("Addresses", "Update", 1700, PATCH, [Word("addresses"), Arg], 1),
    Route("Addresses", "Delete", 1701, DELETE, [Word("addresses"), Arg], 1)
  ]

  /** `dfx::api::web::Signals` (WebServiceDetail.hpp:246-249). */
  const Signals: seq<Route> := [
    Route("Signals", "Retrieve", 1801, GET, [Word("signals"), Arg], 1),
    Route("Signals", "Update", 1803, PATCH, [Word("signals"), Arg], 1),
    Route("Signals", "RetrieveMultiple", 1804, POST, [Word("signals"), Word("retrieve-multiple")], 0),
    Route("Signals", "List", 1805, GET, [Word("signals")], 0)
  ]

  /** `dfx::api::web::BillingSchedules` (WebServiceDetail.hpp:253-257). */
  const BillingSchedules: seq<Route> := [
    Route("BillingSchedules", "CreateBillingSchedule", 1900, POST, [Word("billing"), Word("schedules")], 0),
    Route("BillingSchedules", "RetrieveBillingSchedule", 1901, GET, [Word("billing"), Word("schedules"), Arg], 1),
    Route("BillingSchedules", "RemoveBillingSchedule", 1901, DELETE, [Word("billing"), Word("schedules"), Arg], 1),
    Route("BillingSchedules", "UpdateBillingSchedule", 1903, PATCH, [Word("billing"), Word("schedules"), Arg], 1),
    Route("BillingSchedules", "ListBillingSchedules", 1904, GET, [Word("billing"), Word("schedules")], 0)
  ]

  /** `dfx::api::web::BillingPeriods` (WebServiceDetail.hpp:261-265). */
  const BillingPeriods: seq<Route> := [
    Route("BillingPeriods", "CreateBillingPeriod", 2000, POST, [Word("billing"), Word("periods")], 0),
    Route("BillingPeriods", "RetrieveBillingPeriod", 2001, GET, [Word("billing"), Word("periods"), Arg], 1),
    Route("BillingPeriods", "RemoveBillingPeriod", 2001, DELETE, [Word("billing"), Word("periods"), Arg], 1),
    Route("BillingPeriods", "UpdateBillingPeriod", 2003, PATCH, [Word("billing"), Word("periods"), Arg], 1),
    Route("BillingPeriods", "ListBillingPeriods", 2004, GET, [Word("billing"), Word("schedules"), Arg, Word("periods")], 1)
  ]

  /** `dfx::api::web::CostSummaries` (WebServiceDetail.hpp:269-273). */
  const CostSummaries: seq<Route> := [
    Route("CostSummaries", "CreateCostSummary", 2100, POST, [Word("billing"), Word("summaries")], 0),
    Route("CostSummaries", "RetrieveCostSummary", 2101, GET, [Word("billing"), Word("summaries"), Arg], 1),
    Route("CostSummaries", "RemoveCostSummary", 2101, DELETE, [Word("billing"), Word("summaries"), Arg], 1),
    Route("CostSummaries", "UpdateCostSummary", 2103, PATCH, [Word("billing"), Word("summaries"), Arg], 1),
    Route("CostSummaries", "ListCostSummaries", 2104, GET, [Word("billing"), Word("periods"), Arg, Word("summaries")], 1)
  ]

  /** `dfx::api::web::Brands` (WebServiceDetail.hpp:277-287). */
  const Brands: seq<Route> := [
    Route("Brands", "Create", 2200, POST, [Word("brands")], 0),
    Route("Brands", "Retrieve", 2201, GET, [Word("brands"), Arg], 1),
    Route("Brands", "Remove", 2202, DELETE, [Word("brands"), Arg], 1),
    Route("Brands", "Update", 2203, PATCH, [Word("brands"), Arg], 1),
    Route("Brands", "List", 2204, GET, [Word("brands")], 0),
    Route("Brands", "GetOrganizationBrand", 2205, GET, [Word("organizations"), Arg, Word("brand")], 1),
    Route("Brands", "RetrieveEmailTemplates", 2206, GET, [Word("brands"), Arg, Word("templates")], 1),
    Route("Brands", "CreateEmailTemplate", 2207, POST, [Word("brands"), Arg, Word("templates")], 1),
    Route("Brands", "RetrieveEmailTemplate", 2208, GET, [Word("brands"), Word("templates"), Arg], 1),
    Route("Brands", "UpdateEmailTemplate", 2209, PATCH, [Word("brands"), Word("templates"), Arg], 1),
    Route("Brands", "DeleteEmailTemplate", 2210, DELETE, [Word("brands"), Word("templates"), Arg], 1)
  ]

  /** `dfx::api::web::Auths` (WebServiceDetail.hpp:291-296). */
  const Auths: seq<Route> := [
    Route("Auths", "SendReset", 2300, PATCH, [Word("auths"), Word("users"), Word("reset")], 0),
    Route("Auths", "ResetPassword", 2301, PATCH, [Word("auths"), Word("users")], 0),
    Route("Auths", "SendResetMobile", 2302, PATCH, [Word("auths"), Word("users"), Word("reset"), Word("mobile")], 0),
    Route("Auths", "RequestLoginCodeV2", 2303, POST, [Word("auths"), Word("users"), Word("code")], 0),
    Route("Auths", "RenewToken", 2304, POST, [Word("auths"), Word("renew")], 0),
    Route("Auths", "GenerateToken", 2305, POST, [Word("auths"), Word("generateToken")], 0)
  ]
  /** Every route, namespace by namespace in declaration order. */
  const Routes: seq<Route> :=
    General + Users + Meta + Profiles + Measurements +
    Groups + Organizations + Studies + Devices + Templates +
    OrganizationsPrivate + Reports + Exports + Licenses + Addresses +
    Signals + BillingSchedules + BillingPeriods + CostSummaries + Brands +
    Auths

  /** Placeholders of a concatenation are those of its parts, unless a `{`
      ending the first part meets a `}` starting the second. */
  lemma {:induction false} PlaceholdersAppend(x: string, y: string)
    requires x == [] || y == [] || x[|x| - 1] != '{' || y[0] != '}'
    ensures Placeholders(x + y) == Placeholders(x) + Placeholders(y)
  {
    if x == [] {
      assert x + y == y;
    } else if y == [] {
      assert x + y == x;
    } else {
      var xy := x + y;
      assert xy[1..] == x[1..] + y;
      assert xy[0] == x[0];
      if |x| == 1 {
        assert xy[1..] == y && xy[1] == y[0];
      } else {
        assert xy[1] == x[1];
        PlaceholdersAppend(x[1..], y);
      }
    }
  }

  lemma {:induction false} NoBracesNoPlaceholders(s: string)
    requires NoBraces(s)
    ensures Placeholders(s) == 0
  {
    if |s| >= 2 { NoBracesNoPlaceholders(s[1..]); }
  }

  /** The rendered path has one `{}` per argument segment, and no other. */
  lemma {:induction false} RenderPlaceholders(path: seq<Segment>)
    ensures Placeholders(Render(path)) == ArgCount(path)
  {
    if |path| > 0 {
      var head := SegmentText(path[0]);
      assert head != [] ==> head[|head| - 1] != '{';
      if path[0].Word? { NoBracesNoPlaceholders(head); }
      if |path| == 1 {
        assert path[1..] == [];
      } else {
        RenderPlaceholders(path[1..]);
        PlaceholdersAppend(head, "/");
        PlaceholdersAppend(head + "/", Render(path[1..]));
        assert Render(path) == head + "/" + Render(path[1..]);
      }
    }
  }

  /** What the header's comments promise of an entry: an action code that
      fits the four digits of a WebSocket request ID, and one argument per
      placeholder. */
  predicate WellFormed(r: Route)
  {
    0 <= r.wsCode <= 9999 && ArgCount(r.path) == r.urlArgCount
  }

  predicate AllWellFormed(t: seq<Route>)
  {
    forall k :: 0 <= k < |t| ==> WellFormed(t[k])
  }

  lemma AllWellFormedAppend(a: seq<Route>, b: seq<Route>)
    requires AllWellFormed(a) && AllWellFormed(b)
    ensures AllWellFormed(a + b)
  {
    forall k | 0 <= k < |a + b| ensures WellFormed((a + b)[k]) {
      if k >= |a| { assert (a + b)[k] == b[k - |a|]; }
    }
  }

  // One lemma per namespace keeps each proof small.
  lemma GeneralWellFormed() ensures AllWellFormed(General) { }

  lemma UsersWellFormed() ensures AllWellFormed(Users) { }

  lemma MetaWellFormed() ensures AllWellFormed(Meta) { }

  lemma ProfilesWellFormed() ensures AllWellFormed(Profiles) { }

  lemma MeasurementsWellFormed() ensures AllWellFormed(Measurements) { }

  lemma GroupsWellFormed() ensures AllWellFormed(Groups) { }

  lemma OrganizationsWellFormed() ensures AllWellFormed(Organizations) { }

  lemma StudiesWellFormed() ensures AllWellFormed(Studies) { }

  lemma DevicesWellFormed() ensures AllWellFormed(Devices) { }

  lemma TemplatesWellFormed() ensures AllWellFormed(Templates) { }

  lemma OrganizationsPrivateWellFormed() ensures AllWellFormed(OrganizationsPrivate) { }

  lemma ReportsWellFormed() ensures AllWellFormed(Reports) { }

  lemma ExportsWellFormed() ensures AllWellFormed(Exports) { }

  lemma LicensesWellFormed() ensures AllWellFormed(Licenses) { }

  lemma AddressesWellFormed() ensures AllWellFormed(Addresses) { }

  lemma SignalsWellFormed() ensures AllWellFormed(Signals) { }

  lemma BillingSchedulesWellFormed() ensures AllWellFormed(BillingSchedules) { }

  lemma BillingPeriodsWellFormed() ensures AllWellFormed(BillingPeriods) { }

  lemma CostSummariesWellFormed() ensures AllWellFormed(CostSummaries) { }

  lemma BrandsWellFormed() ensures AllWellFormed(Brands) { }

  lemma AuthsWellFormed() ensures AllWellFormed(Auths) { }

  /** Every entry of the table is well formed. */
  lemma RoutesWellFormed()
    ensures AllWellFormed(Routes)
  {
    GeneralWellFormed();
    UsersWellFormed();
    MetaWellFormed();
    ProfilesWellFormed();
    MeasurementsWellFormed();
    GroupsWellFormed();
    OrganizationsWellFormed();
    StudiesWellFormed();
    DevicesWellFormed();
    TemplatesWellFormed();
    OrganizationsPrivateWellFormed();
    ReportsWellFormed();
    ExportsWellFormed();
    LicensesWellFormed();
    AddressesWellFormed();
    SignalsWellFormed();
    BillingSchedulesWellFormed();
    BillingPeriodsWellFormed();
    CostSummariesWellFormed();
    BrandsWellFormed();
    AuthsWellFormed();
    AllWellFormedAppend(General, Users);
    AllWellFormedAppend(General + Users, Meta);
    AllWellFormedAppend(General + Users + Meta, Profiles);
    AllWellFormedAppend(General + Users + Meta + Profiles, Measurements);
    AllWellFormedAppend(General + Users + Meta + Profiles + Measurements, Groups);
    AllWellFormedAppend(General + Users + Meta + Profiles + Measurements + Groups, Organizations);
    AllWellFormedAppend(General + Users + Meta + Profiles + Measurements + Groups + Organizations, Studies);
    AllWellFormedAppend(General + Users + Meta + Profiles + Measurements + Groups + Organizations + Studies, Devices);
    AllWellFormedAppend(General + Users + Meta + Profiles + Measurements + Groups + Organizations + Studies + Devices, Templates);
    AllWellFormedAppend(General + Users + Meta + Profiles + Measurements + Groups + Organizations + Studies + Devices + Templates, OrganizationsPrivate);
    AllWellFormedAppend(General + Users + Meta + Profiles + Measurements + Groups + Organizations + Studies + Devices + Templates + OrganizationsPrivate, Reports);
    AllWellFormedAppend(General + Users + Meta + Profiles + Measurements + Groups + Organizations + Studies + Devices + Templates + OrganizationsPrivate + Reports, Exports);
    AllWellFormedAppend(General + Users + Meta + Profiles + Measurements + Groups + Organizations + Studies + Devices + Templates + OrganizationsPrivate + Reports + Exports, Licenses);
    AllWellFormedAppend(General + Users + Meta + Profiles + Measurements + Groups + Organizations + Studies + Devices + Templates + OrganizationsPrivate + Reports + Exports + Licenses, Addresses);
    AllWellFormedAppend(General + Users + Meta + Profiles + Measurements + Groups + Organizations + Studies + Devices + Templates + OrganizationsPrivate + Reports + Exports + Licenses + Addresses, Signals);
    AllWellFormedAppend(General + Users + Meta + Profiles + Measurements + Groups + Organizations + Studies + Devices + Templates + OrganizationsPrivate + Reports + Exports + Licenses + Addresses + Signals, BillingSchedules);
    AllWellFormedAppend(General + Users + Meta + Profiles + Measurements + Groups + Organizations + Studies + Devices + Templates + OrganizationsPrivate + Reports + Exports + Licenses + Addresses + Signals + BillingSchedules, BillingPeriods);
    AllWellFormedAppend(General + Users + Meta + Profiles + Measurements + Groups + Organizations + Studies + Devices + Templates + OrganizationsPrivate + Reports + Exports + Licenses + Addresses + Signals + BillingSchedules + BillingPeriods, CostSummaries);
    AllWellFormedAppend(General + Users + Meta + Profiles + Measurements + Groups + Organizations + Studies + Devices + Templates + OrganizationsPrivate + Reports + Exports + Licenses + Addresses + Signals + BillingSchedules + BillingPeriods + CostSummaries, Brands);
    AllWellFormedAppend(General + Users + Meta + Profiles + Measurements + Groups + Organizations + Studies + Devices + Templates + OrganizationsPrivate + Reports + Exports + Licenses + Addresses + Signals + BillingSchedules + BillingPeriods + CostSummaries + Brands, Auths);
  }

  /** For every entry of the header: the action code is at most 9999, the
      method is one of GET, POST, PATCH, DELETE and CONNECT, and `urlArgCount`
      is the number of `{}` fields in `urlPath`. */
  lemma TableInvariants()
    ensures forall k :: 0 <= k < |Routes| ==>
      var d := Detail(Routes[k]);
      0 <= d.wsCode <= 9999 &&
      d.httpOption in {"GET", "POST", "PATCH", "DELETE", "CONNECT"} &&
      d.urlArgCount == Placeholders(d.urlPath)
  {
    RoutesWellFormed();
    forall k | 0 <= k < |Routes|
      ensures Detail(Routes[k]).urlArgCount == Placeholders(Detail(Routes[k]).urlPath)
    {
      RenderPlaceholders(Routes[k].path);
    }
  }

  /** Action codes do not identify a route: the Reports and Exports entries
      share 1300-1302, and each billing Retrieve/Remove pair shares one code
      while using different methods. */
  lemma SharedCodes()
    ensures forall k :: 0 <= k < 3 ==>
      Reports[k].wsCode == Exports[k].wsCode == 1300 + k && Reports[k].path != Exports[k].path
    ensures BillingSchedules[1].wsCode == BillingSchedules[2].wsCode == 1901
    ensures BillingPeriods[1].wsCode == BillingPeriods[2].wsCode == 2001
    ensures CostSummaries[1].wsCode == CostSummaries[2].wsCode == 2101
    ensures BillingSchedules[1].option == GET && BillingSchedules[2].option == DELETE
    ensures BillingPeriods[1].option == GET && BillingPeriods[2].option == DELETE
    ensures CostSummaries[1].option == GET && CostSummaries[2].option == DELETE
  {
    forall k | 0 <= k < 3
      ensures Reports[k].path != Exports[k].path
    {
      assert Reports[k].path[0].text[0] == 'r' && Exports[k].path[0].text[0] == 'e';
    }
  }
}
