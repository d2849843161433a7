/** DiscoveryService: the repository information of the content service,
    unwrapped from the discovery entry and reported in a response envelope.
    The repository information itself is an abstract payload R. */
module DiscoveryService {
  import opened Upstream
  import opened Model

  /** The entry of a DiscoveryEntry: it holds the repository information. */
  datatype RepositoryEntry<R> = RepositoryEntry(repository: Option<R>)

  /** The reply to discoveryApi.getRepositoryInformation(): a DiscoveryEntry
      whose entry holds the repository information. */
  type DiscoveryReply<R> = Outcome<Entry<RepositoryEntry<R>>>

  const Prefix: string := "Error retrieving discovery information: "
  const NullBody: string := "Error retrieving discovery information: response body or repository info was null"

  /** entry.repository of a DiscoveryEntry body, when body, entry and repository are all non-null. */
  function RepositoryOf<R>(body: Option<Entry<RepositoryEntry<R>>>): Option<R>
  {
    if body.Some? && body.value.entry.Some? then body.value.entry.value.repository else None
  }

  /** getDiscoveryInfo: the four tiers of the normalisation policy in their
      order; success carries entry.repository, unwrapped two levels, and no
      message; every failure carries no data and exactly one message. */
  function GetDiscoveryInfo<R>(reply: DiscoveryReply<R>): (r: Envelope<R>)
    ensures r.success <==> Classify(reply, RepositoryOf).Delivered?
    ensures r.success ==> r.data == Some(reply.body.value.entry.value.repository.value) && r.messages == []
    ensures !r.success ==> r.data == None && |r.messages| == 1
    ensures Classify(reply, RepositoryOf).Exceptional? ==> r.messages == [Prefix + JavaText(reply.message)]
    ensures Classify(reply, RepositoryOf).BadStatus? ==> r.messages == [Prefix + reply.status.text]
    ensures Classify(reply, RepositoryOf).Missing? ==> r.messages == [NullBody]
  {
    match reply
    case Threw(message) => Failed(Prefix + JavaText(message))
    case Resp(status, body) =>
      if !Is2xxSuccessful(status.code) then
        Failed(Prefix + status.text)
      else if body.None? || body.value.entry.None? || body.value.entry.value.repository.None? then
        Failed(NullBody)
      else
        Succeeded(body.value.entry.value.repository.value)
  }

  /** With a non-2xx status the body is never inspected: whatever it holds, the
      envelope is the same failure naming the status. */
  lemma StatusCheckedBeforeBody<R>(status: Status, b1: Option<Entry<RepositoryEntry<R>>>,
                                   b2: Option<Entry<RepositoryEntry<R>>>)
    requires !Is2xxSuccessful(status.code)
    ensures GetDiscoveryInfo(Resp(status, b1)) == GetDiscoveryInfo(Resp(status, b2)) == Failed(Prefix + status.text)
  {
  }
}
