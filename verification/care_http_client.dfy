/** `CareHttpClient`: the configuration checks and the status-code policy of
    the two calls to the CaRe analytics API. The configuration service is a
    key/value map, the transport's answer to the POST is an input, and a
    successful outcome carries the response body handed to the JSON decoder. */
module CareHttpClient {
  import opened Wrappers

  const BaseAddressKey := "url.care.base"
  const DistributionPathKey := "url.care.distribution.relativepath"
  const ProgressionPathKey := "url.care.progression.relativepath"

  const BaseAddressMessage :=
    "Care API base address must be specified. Check the setting - url.care.base in system configuration"
  const DistributionPathMessage :=
    "Care API distribution  relative path must be specified. Check the setting - url.care.distribution.relativepath in system configuration"
  const ProgressionPathMessage :=
    "Care API Progression relative path must be specified. Check the setting - url.care.progression.relativepath in system configuration"
  const StatsTransportMessage := "Error occurred while fetching candidate distribution stats"
  const ProgressionTransportMessage := "Error occurred while fetching career progression stats"

  const ClientName := "CareHttpClient"
  const NullReferenceExceptionType := "NullReferenceException"
  const CountryCodeField := "CountryCode"
  const CountryNotSupported := "[CountryCode] - Country not supported"

  const UnprocessableEntityStatus := 422
  const NotFoundStatus := 404
  const InternalServerErrorStatus := 500
  const ServiceUnavailableStatus := 503
  const GatewayTimeoutStatus := 504

  datatype CareError =
    | ConfigurationError(message: string)
    | UnprocessableEntity(field: string, message: string)
    | EntityNotFound(entityName: string, content: string)
    | ServiceUnavailable(entityName: string, cause: UnavailableCause)
      /** An exception the calls do not catch, passed through unchanged. */
    | Uncaught(exceptionType: string)

  /** A service-unavailable error either wraps an error response's body or
      reports a transport failure in the named operation. */
  datatype UnavailableCause =
    | ErrorResponse(content: string)
    | TransportError(operation: string, message: string)

  /** What the POST and the read of the body produced: an
      `HttpRequestException` (the only exception the calls catch), any other
      exception (a `TaskCanceledException` from a timeout or a cancellation,
      an `IOException`, ...), or a response. */
  datatype Reply =
    | TransportFailure
    | OtherException(exceptionType: string)
    | Response(statusCode: int, content: string)

  /** A POST of `payload` to `relativeUrl` resolved against `baseAddress`. */
  datatype Post<P> = Post(baseAddress: string, relativeUrl: string, payload: P)

  /** One call: the configuration keys it looked up, the request it sent (if
      any), and its outcome: the body to decode or the error thrown. */
  datatype Exchange<P> = Exchange(configKeysRead: seq<string>, sent: Option<Post<P>>, outcome: Result<string, CareError>)

  datatype DistributionQuery = DistributionQuery(
    title: string, titleSynonyms: seq<string>, companies: seq<string>,
    industries: seq<string>, skills: seq<string>,
    countryCode: string, state: string, city: string,
    titlesCount: int, companiesCount: int, industriesCount: int, skillsCount: int)

  datatype Location = Location(countryCode: string, stateName: string, cityName: string)

  datatype StatsPayload = StatsPayload(
    title: string, titleSynonyms: seq<string>, companies: seq<string>,
    industries: seq<string>, skills: seq<string>,
    isSimilarTitlesStats: bool, isOccupationsStats: bool, isCompaniesStats: bool,
    isIndustriesStats: bool, isSkillsStats: bool, isTotalCandidateCount: bool,
    location: Location,
    similarTitlesCount: int, companiesCount: int, industriesCount: int, skillsCount: int)

  datatype ProgressionQuery = ProgressionQuery(title: string, similarTitles: seq<string>, skills: seq<string>)

  /** The progression payload keeps the wire's snake_case key. */
  datatype ProgressionPayload = ProgressionPayload(title: string, similar_titles: seq<string>, skills: seq<string>)

  /** The statuses the client reports as the service being unavailable. */
  predicate IsUnavailableStatus(status: int)
    ensures IsUnavailableStatus(status) <==> status in {500, 503, 504}
  {
    status == GatewayTimeoutStatus || status == ServiceUnavailableStatus || status == InternalServerErrorStatus
  }

  /** `GetValueAsync`: the configured value, or null for an unset key. */
  function Lookup(config: map<string, string>, key: string): (r: Option<string>)
    ensures r.Some? <==> key in config
    ensures r.Some? ==> r.value == config[key]
  {
    if key in config then Some(config[key]) else None
  }

  /** The stats request: the query's filters and counts, with occupation
      statistics switched off and every other statistic switched on. */
  function StatsRequest(query: DistributionQuery): (p: StatsPayload)
    ensures !p.isOccupationsStats
    ensures p.isSimilarTitlesStats && p.isCompaniesStats && p.isIndustriesStats
    ensures p.isSkillsStats && p.isTotalCandidateCount
    ensures p.location == Location(query.countryCode, query.state, query.city)
    ensures p.title == query.title && p.titleSynonyms == query.titleSynonyms
    ensures p.companies == query.companies && p.industries == query.industries && p.skills == query.skills
    ensures p.similarTitlesCount == query.titlesCount && p.companiesCount == query.companiesCount
    ensures p.industriesCount == query.industriesCount && p.skillsCount == query.skillsCount
  {
    StatsPayload(
      query.title, query.titleSynonyms, query.companies, query.industries, query.skills,
      true, false, true, true, true, true,
      Location(query.countryCode, query.state, query.city),
      query.titlesCount, query.companiesCount, query.industriesCount, query.skillsCount)
  }

  /** The progression request carries the criteria unchanged. */
  function ProgressionRequest(criteria: ProgressionQuery): (p: ProgressionPayload)
    ensures p.title == criteria.title && p.similar_titles == criteria.similarTitles && p.skills == criteria.skills
  {
    ProgressionPayload(criteria.title, criteria.similarTitles, criteria.skills)
  }

  /** `GetStatsAsync`. */
  function GetStats(baseAddress: Option<string>, query: Option<DistributionQuery>,
                    config: map<string, string>, reply: Reply): (x: Exchange<StatsPayload>)
    ensures baseAddress.None? ==> x == Exchange([], None, Failure(ConfigurationError(BaseAddressMessage)))
    ensures baseAddress.Some? && query.None? ==> x == Exchange([], None, Failure(Uncaught(NullReferenceExceptionType)))
    ensures baseAddress.Some? && query.Some? ==> x.configKeysRead == [DistributionPathKey]
    ensures x.sent.Some? <==> baseAddress.Some? && query.Some? && DistributionPathKey in config
    ensures x.sent.Some? ==> x.sent.value == Post(baseAddress.value, config[DistributionPathKey], StatsRequest(query.value))
    ensures baseAddress.Some? && query.Some? && DistributionPathKey !in config ==>
      x.outcome == Failure(ConfigurationError(DistributionPathMessage))
    ensures x.sent.Some? && reply.TransportFailure? ==>
      x.outcome == Failure(ServiceUnavailable(ClientName, TransportError("GetStatsAsync", StatsTransportMessage)))
    ensures x.sent.Some? && reply.OtherException? ==> x.outcome == Failure(Uncaught(reply.exceptionType))
    ensures x.sent.Some? && reply.Response? && reply.statusCode == UnprocessableEntityStatus ==>
      x.outcome == Failure(UnprocessableEntity(CountryCodeField, CountryNotSupported))
    ensures x.sent.Some? && reply.Response? && reply.statusCode == NotFoundStatus ==>
      x.outcome == Failure(EntityNotFound(ClientName, reply.content))
    ensures x.sent.Some? && reply.Response? && IsUnavailableStatus(reply.statusCode) ==>
      x.outcome == Failure(ServiceUnavailable(ClientName, ErrorResponse(reply.content)))
    ensures x.outcome.Success? <==>
      x.sent.Some? && reply.Response? && reply.statusCode !in {404, 422, 500, 503, 504}
    ensures x.outcome.Success? ==> x.outcome.value == reply.content
  {
    if baseAddress.None? then
      Exchange([], None, Failure(ConfigurationError(BaseAddressMessage)))
    else if query.None? then
      // Building the payload reads a member of the null query.
      Exchange([], None, Failure(Uncaught(NullReferenceExceptionType)))
    else
      var request := StatsRequest(query.value);
      var careApiDistributionRelativeUrl := Lookup(config, DistributionPathKey);
      if careApiDistributionRelativeUrl.None? then
        Exchange([DistributionPathKey], None, Failure(ConfigurationError(DistributionPathMessage)))
      else
        var post := Some(Post(baseAddress.value, careApiDistributionRelativeUrl.value, request));
        var outcome :=
          match reply
          case TransportFailure =>
            Failure(ServiceUnavailable(ClientName, TransportError("GetStatsAsync", StatsTransportMessage)))
          case OtherException(exceptionType) => Failure(Uncaught(exceptionType))
          case Response(status, content) =>
            if status == UnprocessableEntityStatus then
              Failure(UnprocessableEntity(CountryCodeField, CountryNotSupported))
            else if status == NotFoundStatus then
              Failure(EntityNotFound(ClientName, content))
            else if IsUnavailableStatus(status) then
              Failure(ServiceUnavailable(ClientName, ErrorResponse(content)))
            else
              Success(content);
        Exchange([DistributionPathKey], post, outcome)
  }

  /** `GetProgressionAsync`: the same checks, with no 422 branch. */
  function GetProgression(baseAddress: Option<string>, criteria: Option<ProgressionQuery>,
                          config: map<string, string>, reply: Reply): (x: Exchange<ProgressionPayload>)
    ensures baseAddress.None? ==> x == Exchange([], None, Failure(ConfigurationError(BaseAddressMessage)))
    ensures baseAddress.Some? && criteria.None? ==> x == Exchange([], None, Failure(Uncaught(NullReferenceExceptionType)))
    ensures baseAddress.Some? && criteria.Some? ==> x.configKeysRead == [ProgressionPathKey]
    ensures x.sent.Some? <==> baseAddress.Some? && criteria.Some? && ProgressionPathKey in config
    ensures x.sent.Some? ==>
      x.sent.value == Post(baseAddress.value, config[ProgressionPathKey], ProgressionRequest(criteria.value))
    ensures baseAddress.Some? && criteria.Some? && ProgressionPathKey !in config ==>
      x.outcome == Failure(ConfigurationError(ProgressionPathMessage))
    ensures x.sent.Some? && reply.TransportFailure? ==>
      x.outcome == Failure(ServiceUnavailable(ClientName, TransportError("GetProgressionAsync", ProgressionTransportMessage)))
    ensures x.sent.Some? && reply.OtherException? ==> x.outcome == Failure(Uncaught(reply.exceptionType))
    ensures x.sent.Some? && reply.Response? && reply.statusCode == NotFoundStatus ==>
      x.outcome == Failure(EntityNotFound(ClientName, reply.content))
    ensures x.sent.Some? && reply.Response? && IsUnavailableStatus(reply.statusCode) ==>
      x.outcome == Failure(ServiceUnavailable(ClientName, ErrorResponse(reply.content)))
    ensures x.outcome.Success? <==>
      x.sent.Some? && reply.Response? && reply.statusCode !in {404, 500, 503, 504}
    ensures x.outcome.Success? ==> x.outcome.value == reply.content
  {
    if baseAddress.None? then
      Exchange([], None, Failure(ConfigurationError(BaseAddressMessage)))
    else if criteria.None? then
      // Building the payload reads a member of the null criteria.
      Exchange([], None, Failure(Uncaught(NullReferenceExceptionType)))
    else
      var request := ProgressionRequest(criteria.value);
      var careProgressionApiRelativeUrl := Lookup(config, ProgressionPathKey);
      if careProgressionApiRelativeUrl.None? then
        Exchange([ProgressionPathKey], None, Failure(ConfigurationError(ProgressionPathMessage)))
      else
        var post := Some(Post(baseAddress.value, careProgressionApiRelativeUrl.value, request));
        var outcome :=
          match reply
          case TransportFailure =>
            Failure(ServiceUnavailable(ClientName, TransportError("GetProgressionAsync", ProgressionTransportMessage)))
          case OtherException(exceptionType) => Failure(Uncaught(exceptionType))
          case Response(status, content) =>
            if status == NotFoundStatus then
              Failure(EntityNotFound(ClientName, content))
            else if IsUnavailableStatus(status) then
              Failure(ServiceUnavailable(ClientName, ErrorResponse(content)))
            else
              Success(content);
        Exchange([ProgressionPathKey], post, outcome)
  }

  /** The error taxonomy without its payloads. */
  datatype Kind = Decode | Configuration | Unprocessable | NotFound | Unavailable | Passthrough

  function KindOf(outcome: Result<string, CareError>): Kind {
    match outcome
    case Success(_) => Decode
    case Failure(ConfigurationError(_)) => Configuration
    case Failure(UnprocessableEntity(_, _)) => Unprocessable
    case Failure(EntityNotFound(_, _)) => NotFound
    case Failure(ServiceUnavailable(_, _)) => Unavailable
    case Failure(Uncaught(_)) => Passthrough
  }

  /** A call sends nothing exactly when it fails on the configuration or, with
      a base address set, on a null query; a configuration error is the first
      of these. When nothing is sent the transport's reply has no say in the
      outcome. */
  lemma ConfigurationErrorIffNothingSent(baseAddress: Option<string>, query: Option<DistributionQuery>,
                                         criteria: Option<ProgressionQuery>,
                                         config: map<string, string>, reply: Reply, other: Reply)
    ensures KindOf(GetStats(baseAddress, query, config, reply).outcome) == Configuration
        <==> GetStats(baseAddress, query, config, reply).sent.None? && (baseAddress.None? || query.Some?)
    ensures KindOf(GetProgression(baseAddress, criteria, config, reply).outcome) == Configuration
        <==> GetProgression(baseAddress, criteria, config, reply).sent.None? && (baseAddress.None? || criteria.Some?)
    ensures GetStats(baseAddress, query, config, reply).sent.None? ==>
      GetStats(baseAddress, query, config, reply) == GetStats(baseAddress, query, config, other)
    ensures GetProgression(baseAddress, criteria, config, reply).sent.None? ==>
      GetProgression(baseAddress, criteria, config, reply) == GetProgression(baseAddress, criteria, config, other)
  {
  }

  /** The two calls classify every reply alike except status 422, which only
      the stats call reports, as an unsupported country. */
  lemma PoliciesDifferOnlyAt422(baseAddress: Option<string>, query: Option<DistributionQuery>,
                                criteria: Option<ProgressionQuery>, config: map<string, string>, reply: Reply)
    requires (DistributionPathKey in config) == (ProgressionPathKey in config)
    requires query.Some? == criteria.Some?
    ensures var s, p := GetStats(baseAddress, query, config, reply), GetProgression(baseAddress, criteria, config, reply);
      if s.sent.Some? && reply.Response? && reply.statusCode == UnprocessableEntityStatus
      then KindOf(s.outcome) == Unprocessable && p.outcome == Success(reply.content)
      else KindOf(s.outcome) == KindOf(p.outcome)
  {
  }

  /** 502 (Bad Gateway) is not among the unavailable statuses: both calls
      hand its body to the decoder. */
  lemma BadGatewayIsDecoded(baseAddress: string, query: DistributionQuery, criteria: ProgressionQuery,
                            config: map<string, string>, content: string)
    requires DistributionPathKey in config && ProgressionPathKey in config
    ensures GetStats(Some(baseAddress), Some(query), config, Response(502, content)).outcome == Success(content)
    ensures GetProgression(Some(baseAddress), Some(criteria), config, Response(502, content)).outcome == Success(content)
  {
  }
}
