/** The shapes of what the content service's REST client hands back to the
    services: an HTTP status with an optional typed body, or an exception.
    The client itself is not modelled; every service takes its reply as a
    parameter. */
module Upstream {

  /** A Java reference that may be null. */
  datatype Option<+T> = None | Some(value: T)

  /** A status code as Spring's HttpStatusCode.valueOf accepts it: three decimal digits. */
  type Code = c: int | 100 <= c <= 999 witness 200

  /** A status and the text its toString() prints (for example "404 NOT_FOUND"). */
  datatype Status = Status(code: Code, text: string)

  /** HttpStatusCode.is2xxSuccessful: the hundreds digit is 2, which is the
      2xx (Successful) class of section 15.3 of RFC 9110. */
  predicate Is2xxSuccessful(c: Code)
    ensures Is2xxSuccessful(c) <==> 200 <= c <= 299
  {
    c / 100 == 2
  }

  /** HttpStatusCode.is4xxClientError: the 4xx (Client Error) class of section 15.5 of RFC 9110. */
  predicate Is4xxClientError(c: Code)
    ensures Is4xxClientError(c) <==> 400 <= c <= 499
  {
    c / 100 == 4
  }

  /** 503 Service Unavailable, section 15.6.4 of RFC 9110. */
  const ServiceUnavailable: Code := 503

  /** One upstream call: it threw (with the exception's possibly-null
      message), or it answered with a status and a possibly-null body. */
  datatype Outcome<B> = Threw(message: Option<string>) | Resp(status: Status, body: Option<B>)

  /** The API's "entry" wrapper: NodeEntry, AuditAppEntry, AuditEntryEntry, DiscoveryEntry. */
  datatype Entry<T> = Entry(entry: Option<T>)

  /** The paging wrapper: NodePaging, AuditAppPaging, AuditEntryPaging, and its
      list, whose entries are a possibly-null list of possibly-null entries. */
  datatype PagingList<T> = PagingList(entries: Option<seq<Option<Entry<T>>>>)
  datatype Paging<T> = Paging(list: Option<PagingList<T>>)

  /** The entries list of a paging body, when body, list and entries are all non-null. */
  function ListedEntries<T>(body: Option<Paging<T>>): Option<seq<Option<Entry<T>>>>
  {
    if body.Some? && body.value.list.Some? then body.value.list.value.entries else None
  }

  /** A repository node: its id and, by name, every other property it carries. */
  datatype Node = Node(id: Option<string>, properties: map<string, string>)

  /** `new Node().id(text)`: a node whose id is the given text and whose other properties are unset. */
  function Placeholder(text: string): Node
  {
    Node(Some(text), map[])
  }

  /** The exceptions that can leave a service that does not catch them. */
  datatype Exception = UpstreamError(message: Option<string>) | NullPointer

  /** What a Java method without a try/catch delivers: a value, or an exception
      that escapes to its caller. */
  datatype Returned<T> = Value(value: T) | Raised(exception: Exception)

  /** Java string concatenation of a possibly-null string. */
  function JavaText(s: Option<string>): string
  {
    match s
    case None => "null"
    case Some(t) => t
  }

  /** The four tiers of the response-normalisation policy, in precedence order:
      the call threw, the status is not 2xx, the payload is missing, the payload. */
  datatype Tier<T> = Exceptional(message: Option<string>) | BadStatus(status: Status) | Missing | Delivered(payload: T)

  /** The tier a reply falls into, given how to dig the payload out of a body. */
  function Classify<B, T>(reply: Outcome<B>, unwrap: Option<B> -> Option<T>): (t: Tier<T>)
    ensures t.Exceptional? <==> reply.Threw?
    ensures t.Exceptional? ==> t.message == reply.message
    ensures t.BadStatus? <==> reply.Resp? && !Is2xxSuccessful(reply.status.code)
    ensures t.BadStatus? ==> t.status == reply.status
    ensures t.Missing? <==> reply.Resp? && Is2xxSuccessful(reply.status.code) && unwrap(reply.body).None?
    ensures t.Delivered? <==> reply.Resp? && Is2xxSuccessful(reply.status.code) && unwrap(reply.body).Some?
    ensures t.Delivered? ==> t.payload == unwrap(reply.body).value
  {
    match reply
    case Threw(m) => Exceptional(m)
    case Resp(status, body) =>
      if !Is2xxSuccessful(status.code) then BadStatus(status)
      else match unwrap(body)
        case None => Missing
        case Some(p) => Delivered(p)
  }

  /** The status is looked at before the body: with a non-2xx status, any two
      bodies fall into the same tier. */
  lemma StatusBeforeBody<B, T>(status: Status, b1: Option<B>, b2: Option<B>, unwrap: Option<B> -> Option<T>)
    requires !Is2xxSuccessful(status.code)
    ensures Classify(Resp(status, b1), unwrap) == Classify(Resp(status, b2), unwrap) == BadStatus(status)
  {
  }
}
