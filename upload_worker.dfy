/**
 * WeatherUploadWorker.kt: the periodic background work. It checks the location
 * permission, asks for one position, and, when it gets one, starts a weather
 * request whose successful answer is emailed from a separately launched job.
 * The result reported to the scheduler is decided before that request returns.
 */
module Worker {
  import opened Wrappers
  import opened Models
  import opened Constants

  /** The scheduler's vocabulary: `Result.success()`, `failure()`, `retry()`. */
  datatype WorkResult = Success | Failure | Retry

  datatype Permissions = Permissions(fineLocation: bool, coarseLocation: bool)

  /** Either location permission suffices. */
  predicate LocationPermitted(p: Permissions) {
    p.fineLocation || p.coarseLocation
  }

  datatype ExceptionKind = SecurityException | OtherException

  /** What the fused location provider does with a current-location request. */
  datatype ProviderAnswer =
    | Delivered(location: Option<Location>)
    | ProviderFailed(error: ExceptionKind)

  /** How `getCurrentLocation` ends: it returns a possibly null location, or throws. */
  datatype LocationOutcome = Returned(location: Option<Location>) | Threw(error: ExceptionKind)

  /** Whether the platform was asked at all, and the outcome. */
  datatype LocationCall = LocationCall(requested: bool, outcome: LocationOutcome)

  /**
   * `getCurrentLocation`: re-checks the permission and answers null without
   * asking the platform when it is missing; otherwise the provider's location
   * is returned and its failure is rethrown.
   */
  function GetCurrentLocation(recheck: Permissions, answer: ProviderAnswer): (r: LocationCall)
    ensures r.requested <==> LocationPermitted(recheck)
    ensures !r.requested ==> r.outcome == Returned(None)
    ensures r.outcome.Threw? <==> r.requested && answer.ProviderFailed?
    ensures r.outcome.Threw? ==> r.outcome.error == answer.error
    ensures r.requested && answer.Delivered? ==> r.outcome == Returned(answer.location)
    ensures r.outcome.Returned? && r.outcome.location.Some? ==>
              r.requested && answer == Delivered(r.outcome.location)
  {
    if !LocationPermitted(recheck) then LocationCall(false, Returned(None))
    else
      match answer
      case Delivered(location) => LocationCall(true, Returned(location))
      case ProviderFailed(error) => LocationCall(true, Threw(error))
  }

  // ---------------------------------------------------------------------------
  // The email
  // ---------------------------------------------------------------------------

  /** The sending account and the recipients; their values are configuration. */
  datatype MailConfig = MailConfig(account: string, recipients: seq<string>)

  datatype EmailMessage = EmailMessage(from: string, to: seq<string>, subject: string, text: string)

  const SubjectPrefix: string := "Weather Details: "
  const BodyPrefix: string := "Latest weather update:\n\n"

  /** The SMTP session properties: authenticated, STARTTLS, the mail host on the submission port. */
  const SmtpProperties: map<string, string> := map[
    "mail.smtp.auth" := "true",
    "mail.smtp.starttls.enable" := "true",
    "mail.smtp.host" := "smtp.gmail.com",
    "mail.smtp.port" := "587"]

  /** The message `sendEmail` builds: the timestamp and the payload can be read back from it. */
  function Email(config: MailConfig, weatherData: string, timestamp: string): (m: EmailMessage)
    ensures m.from == config.account && m.to == config.recipients
    ensures |m.subject| == |SubjectPrefix| + |timestamp|
    ensures m.subject[..|SubjectPrefix|] == SubjectPrefix && m.subject[|SubjectPrefix|..] == timestamp
    ensures |m.text| == |BodyPrefix| + |weatherData|
    ensures m.text[..|BodyPrefix|] == BodyPrefix && m.text[|BodyPrefix|..] == weatherData
  {
    EmailMessage(config.account, config.recipients, SubjectPrefix + timestamp, BodyPrefix + weatherData)
  }

  /** Different payloads give different emails. */
  lemma EmailKeepsPayload(config: MailConfig, a: string, b: string, timestamp: string)
    requires Email(config, a, timestamp) == Email(config, b, timestamp)
    ensures a == b
  {
    assert a == Email(config, a, timestamp).text[|BodyPrefix|..];
  }

  datatype MailError = MessagingException(message: string) | UnexpectedError(message: string)

  /** What `Transport.send` does with the message. */
  datatype SendOutcome = Sent | SendThrew(error: MailError)

  /**
   * `sendEmail`: fills the session properties and the message one setting at
   * a time, sends, and rethrows whatever the send throws.
   */
  method SendEmail(config: MailConfig, weatherData: string, timestamp: string, transport: SendOutcome)
    returns (props: map<string, string>, message: EmailMessage, thrown: Option<MailError>)
    ensures props == SmtpProperties
    ensures message == Email(config, weatherData, timestamp)
    ensures thrown.Some? <==> transport.SendThrew?
    ensures thrown.Some? ==> thrown.value == transport.error
  {
    props := map[];
    props := props["mail.smtp.auth" := "true"];
    props := props["mail.smtp.starttls.enable" := "true"];
    props := props["mail.smtp.host" := "smtp.gmail.com"];
    props := props["mail.smtp.port" := "587"];
    message := EmailMessage("", [], "", "");
    message := message.(from := config.account);
    message := message.(to := config.recipients);
    message := message.(subject := SubjectPrefix + timestamp);
    message := message.(text := BodyPrefix + weatherData);
    match transport
    case Sent => thrown := None;
    case SendThrew(error) => thrown := Some(error);
  }

  /** The launched job logs the outcome of the send; it catches every exception. */
  datatype EmailLog = EmailSent | EmailFailed(error: MailError)

  function EmailJob(transport: SendOutcome): (log: EmailLog)
    ensures log.EmailFailed? <==> transport.SendThrew?
  {
    match transport
    case Sent => EmailSent
    case SendThrew(error) => EmailFailed(error)
  }

  // ---------------------------------------------------------------------------
  // The weather request and doWork
  // ---------------------------------------------------------------------------

  /** What the weather callback ends with. */
  datatype WorkerReply =
    | EmailLaunched(email: EmailMessage, log: EmailLog)
    | HttpError(status: StatusClass)
    | TransportFailure(message: string)

  datatype WorkerFetch = NoRequest | Requested(request: WeatherRequest, reply: WorkerReply)

  /**
   * The worker's `weatherDetail`: no request without a network; a successful
   * response is serialized and emailed; error statuses are classified as in
   * MainActivity. The cache is not written here.
   */
  function WorkerWeatherDetail(network: ConnectivityState, location: Location, call: CallOutcome,
                               toJson: WeatherResponse -> string, config: MailConfig,
                               timestamp: string, transport: SendOutcome): (r: WorkerFetch)
    ensures r.NoRequest? <==> !IsNetworkAvailable(network)
    ensures r.Requested? ==> r.request == WeatherRequest(location, MetricUnit)
    ensures r.Requested? && r.reply.EmailLaunched? <==>
              IsNetworkAvailable(network) && call.Responded? && IsSuccessful(call.code)
    ensures r.Requested? && r.reply.EmailLaunched? ==>
              r.reply.email == Email(config, toJson(call.body), timestamp)
              && r.reply.log == EmailJob(transport)
    ensures r.Requested? && call.Responded? && !IsSuccessful(call.code) ==>
              r.reply == HttpError(ClassifyStatus(call.code))
  {
    if !IsNetworkAvailable(network) then NoRequest
    else
      var request := WeatherRequest(location, MetricUnit);
      match call
      case Responded(code, body) =>
        if IsSuccessful(code) then
          Requested(request, EmailLaunched(Email(config, toJson(body), timestamp), EmailJob(transport)))
        else
          Requested(request, HttpError(ClassifyStatus(code)))
      case TransportFailed(message) => Requested(request, TransportFailure(message))
  }

  /** Everything outside the worker that decides one run. */
  datatype WorkerWorld = WorkerWorld(
    permissions: Permissions,   // at doWork's check
    recheck: Permissions,       // at getCurrentLocation's check
    provider: ProviderAnswer,
    network: ConnectivityState,
    call: CallOutcome,          // what the weather API answers, if asked
    transport: SendOutcome,     // what the mail transport does, if reached
    timestamp: string)

  /** One run: the result reported, the location call made, and the weather request started. */
  datatype WorkTrace = WorkTrace(result: WorkResult, location: Option<LocationCall>, fetch: Option<WorkerFetch>)

  function DoWork(w: WorkerWorld, config: MailConfig, toJson: WeatherResponse -> string): (t: WorkTrace)
    ensures !LocationPermitted(w.permissions) ==> t == WorkTrace(Failure, None, None)
    ensures t.result == Success <==>
              LocationPermitted(w.permissions) && LocationPermitted(w.recheck)
              && w.provider.Delivered? && w.provider.location.Some?
    ensures t.result == Retry <==>
              LocationPermitted(w.permissions)
              && (!LocationPermitted(w.recheck) || w.provider == Delivered(None))
    ensures LocationPermitted(w.permissions) && LocationPermitted(w.recheck) && w.provider.ProviderFailed? ==>
              t.result == Failure
    ensures t.fetch.Some? <==> t.result == Success
    ensures t.result == Success ==>
              t.fetch == Some(WorkerWeatherDetail(w.network, w.provider.location.value, w.call,
                                                  toJson, config, w.timestamp, w.transport))
  {
    if !LocationPermitted(w.permissions) then WorkTrace(Failure, None, None)
    else
      var located := GetCurrentLocation(w.recheck, w.provider);
      match located.outcome
      case Threw(SecurityException) => WorkTrace(Failure, Some(located), None)
      case Threw(OtherException) => WorkTrace(Failure, Some(located), None)
      case Returned(None) => WorkTrace(Retry, Some(located), None)
      case Returned(Some(location)) =>
        var fetch := WorkerWeatherDetail(w.network, location, w.call, toJson, config, w.timestamp, w.transport);
        WorkTrace(Success, Some(located), Some(fetch))
  }

  /**
   * The reported result depends only on the permissions and the location
   * provider: the weather answer and the email outcome never change it.
   */
  lemma ResultIgnoresFetchAndEmail(w1: WorkerWorld, w2: WorkerWorld, config: MailConfig,
                                   toJson: WeatherResponse -> string)
    requires w1.permissions == w2.permissions && w1.recheck == w2.recheck && w1.provider == w2.provider
    ensures DoWork(w1, config, toJson).result == DoWork(w2, config, toJson).result
  {
  }

  /** Without permission the location provider is never asked. */
  lemma NoPermissionNoLocationRequest(w: WorkerWorld, config: MailConfig, toJson: WeatherResponse -> string)
    ensures var t := DoWork(w, config, toJson);
            t.location.Some? && t.location.value.requested <==>
              LocationPermitted(w.permissions) && LocationPermitted(w.recheck)
  {
  }
}
