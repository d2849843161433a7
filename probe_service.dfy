/** ProbeService: the liveness and readiness probes of the content service,
    reported as one sentence. The status class decides the sentence; the probe
    body only decides whether "(no details)" is added. Nothing is caught: an
    exception from the probes API escapes to the caller. The probe body is an
    abstract payload P. */
module ProbeService {
  import opened Upstream

  /** The status classes the probes tell apart, tested in this order:
      2xx Successful, 4xx Client Error, 503 Service Unavailable, anything else. */
  datatype StatusClass = Successful | ClientError | Unavailable | Unexpected

  /** The class of a status code. Each code falls in exactly one class. */
  function ClassOf(c: Code): (k: StatusClass)
    ensures k == Successful <==> 200 <= c <= 299
    ensures k == ClientError <==> 400 <= c <= 499
    ensures k == Unavailable <==> c == 503
    ensures k == Unexpected <==> (c < 200 || 300 <= c < 400 || 500 <= c < 503 || 503 < c)
  {
    if Is2xxSuccessful(c) then Successful
    else if Is4xxClientError(c) then ClientError
    else if c == ServiceUnavailable then Unavailable
    else Unexpected
  }

  /** What a probe reports, before it is put into words: up (with or without
      details), or down for a client error, for unavailability, or for an
      unexpected status whose text is quoted. */
  datatype Verdict = Up | UpNoDetails | DownClientError | Down | DownUnexpected(status: string)

  /** The verdict a probe reply gives, from its status class and, for 2xx
      only, from whether the body is null. */
  function VerdictOf<P>(reply: Outcome<P>): (v: Returned<Verdict>)
    ensures reply.Threw? <==> v.Raised?
    ensures reply.Threw? ==> v.exception == UpstreamError(reply.message)
    ensures v == Value(Up) <==> reply.Resp? && Is2xxSuccessful(reply.status.code) && reply.body.Some?
    ensures v == Value(UpNoDetails) <==> reply.Resp? && Is2xxSuccessful(reply.status.code) && reply.body.None?
    ensures v == Value(DownClientError) <==> reply.Resp? && Is4xxClientError(reply.status.code)
    ensures v == Value(Down) <==> reply.Resp? && reply.status.code == ServiceUnavailable
    ensures v.Value? && v.value.DownUnexpected? <==> reply.Resp? && ClassOf(reply.status.code) == Unexpected
    ensures v.Value? && v.value.DownUnexpected? ==> v.value.status == reply.status.text
  {
    match reply
    case Threw(message) => Raised(UpstreamError(message))
    case Resp(status, body) =>
      match ClassOf(status.code)
      case Successful => Value(if body.Some? then Up else UpNoDetails)
      case ClientError => Value(DownClientError)
      case Unavailable => Value(Down)
      case Unexpected => Value(DownUnexpected(status.text))
  }

  /** The sentences of the liveness probe. */
  function LiveSentence(v: Verdict): string
  {
    match v
    case Up => "Alfresco Content Service is live"
    case UpNoDetails => "Alfresco Content Service is live (no details)"
    case DownClientError => "Alfresco Content Service is not live (Client Error)"
    case Down => "Alfresco Content Service is not live"
    case DownUnexpected(status) => "Alfresco Content Service is not live (Unexpected Error) " + status
  }

  /** The sentences of the readiness probe: those of the liveness probe with "ready" for "live". */
  function ReadySentence(v: Verdict): string
  {
    match v
    case Up => "Alfresco Content Service is ready"
    case UpNoDetails => "Alfresco Content Service is ready (no details)"
    case DownClientError => "Alfresco Content Service is not ready (Client Error)"
    case Down => "Alfresco Content Service is not ready"
    case DownUnexpected(status) => "Alfresco Content Service is not ready (Unexpected Error) " + status
  }

  /** isAlfrescoLive: the liveness sentence of the verdict the reply to
      getProbe("-live-") gives. */
  function IsAlfrescoLive<P>(reply: Outcome<P>): (r: Returned<string>)
    ensures reply.Threw? ==> r == Raised(UpstreamError(reply.message))
    ensures reply.Resp? ==> r == Value(LiveSentence(VerdictOf(reply).value))
  {
    match reply
    case Threw(message) => Raised(UpstreamError(message))
    case Resp(status, body) =>
      if !Is2xxSuccessful(status.code) then
        if Is4xxClientError(status.code) then Value("Alfresco Content Service is not live (Client Error)")
        else if status.code == ServiceUnavailable then Value("Alfresco Content Service is not live")
        else Value("Alfresco Content Service is not live (Unexpected Error) " + status.text)
      else if body.Some? then Value("Alfresco Content Service is live")
      else Value("Alfresco Content Service is live (no details)")
  }

  /** isAlfrescoReady: the readiness sentence of the verdict the reply to
      getProbe("-ready-") gives. */
  function IsAlfrescoReady<P>(reply: Outcome<P>): (r: Returned<string>)
    ensures reply.Threw? ==> r == Raised(UpstreamError(reply.message))
    ensures reply.Resp? ==> r == Value(ReadySentence(VerdictOf(reply).value))
  {
    match reply
    case Threw(message) => Raised(UpstreamError(message))
    case Resp(status, body) =>
      if !Is2xxSuccessful(status.code) then
        if Is4xxClientError(status.code) then Value("Alfresco Content Service is not ready (Client Error)")
        else if status.code == ServiceUnavailable then Value("Alfresco Content Service is not ready")
        else Value("Alfresco Content Service is not ready (Unexpected Error) " + status.text)
      else if body.Some? then Value("Alfresco Content Service is ready")
      else Value("Alfresco Content Service is ready (no details)")
  }

  /** The body of a non-2xx probe reply is never looked at. */
  lemma StatusDecidesDown<P>(status: Status, b1: Option<P>, b2: Option<P>)
    requires !Is2xxSuccessful(status.code)
    ensures IsAlfrescoLive(Resp(status, b1)) == IsAlfrescoLive(Resp(status, b2))
    ensures IsAlfrescoReady(Resp(status, b1)) == IsAlfrescoReady(Resp(status, b2))
  {
  }
}
